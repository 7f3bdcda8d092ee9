/**
Every interleaving of the runs of the agent runtime over one session ledger. A step is one
critical section of the ledger mutex; a run passes through the phases of `Start`, `Bootstrap`
or `Resume`. The caller's obligations are the predicate `Careful`; what they buy, and that
they are not too much, are the theorems.
*/
module SessionRuns {
  import opened Ledger

  datatype Phase =
    | Launching(purpose: Purpose, provider: string, parent: string)  // a Start before its start event
    | Claimed(rec: nat)    // a Start whose event claimed a provider session
    | Resuming(rec: nat)   // a Resume past its ledger checks
    | Draining(rec: nat)   // the record was activated and its stream is read
    | Losing(rec: nat)     // the fallback marked the record LOST and prepares the successor

  /** `heirs` is history only: which record an automatic fallback created, and for which lost record. */
  datatype State = State(ledger: Ledger, runs: map<nat, Phase>, heirs: map<nat, nat>)

  datatype Action =
    | Hydrate(facts: seq<Session>)
    | BeginStart(run: nat, purpose: Purpose, provider: string, supersedes: string)
    | Establish(run: nat, id: string, claimed: string)
    | BeginResume(run: nat, pid: string, purpose: Purpose)
    | Activate(run: nat)
    | Settle(run: nat, status: Status)
    | Stop(run: nat)
    | Lose(run: nat)
    | Succeed(run: nat, id: string, provider: string)

  /** The checks the code makes before the step. */
  ghost predicate Enabled(s: State, a: Action) {
    var l := s.ledger;
    match a
    case Hydrate(facts) => Hydratable(l, facts)
    case BeginStart(run, purpose, _, pred) =>
      && run !in s.runs
      && !purpose.UnknownPurpose?
      && (pred != "" ==> pred in l.byProvider && l.byProvider[pred] < |l.records|
                         && l.records[l.byProvider[pred]].purpose == purpose)
    case Establish(run, _, claimed) =>
      run in s.runs && s.runs[run].Launching? && claimed != "" && claimed !in l.byProvider
    case BeginResume(run, pid, purpose) =>
      && run !in s.runs
      && pid in l.byProvider && l.byProvider[pid] < |l.records|
      && !Terminal(l.records[l.byProvider[pid]].status)
      && l.records[l.byProvider[pid]].purpose == purpose
    case Activate(run) =>
      run in s.runs && (s.runs[run].Claimed? || s.runs[run].Resuming?) && s.runs[run].rec < |l.records|
    case Settle(run, status) =>
      && run in s.runs && s.runs[run].Draining? && s.runs[run].rec < |l.records|
      && (status == Completed || status == Failed || status == Cancelled)
    case Stop(run) => run in s.runs
    case Lose(run) => run in s.runs && s.runs[run].Resuming? && s.runs[run].rec < |l.records|
    case Succeed(run, _, _) => run in s.runs && s.runs[run].Losing? && s.runs[run].rec < |l.records|
  }

  ghost function Apply(s: State, a: Action): State
    requires Enabled(s, a)
  {
    var l := s.ledger;
    match a
    case Hydrate(facts) => s.(ledger := LoadAll(l, facts))
    case BeginStart(run, purpose, provider, pred) =>
      var parent := if pred == "" then "" else l.records[l.byProvider[pred]].id;
      s.(runs := s.runs[run := Launching(purpose, provider, parent)])
    case Establish(run, id, claimed) =>
      var p := s.runs[run];
      s.(ledger := Insert(l, Session(id, claimed, p.purpose, Active, p.parent, p.provider)),
         runs := s.runs[run := Claimed(|l.records|)])
    case BeginResume(run, pid, _) => s.(runs := s.runs[run := Resuming(l.byProvider[pid])])
    case Activate(run) =>
      var i := s.runs[run].rec;
      s.(ledger := WithStatus(l, i, Active), runs := s.runs[run := Draining(i)])
    case Settle(run, status) =>
      s.(ledger := WithStatus(l, s.runs[run].rec, status), runs := s.runs - {run})
    case Stop(run) => s.(runs := s.runs - {run})
    case Lose(run) =>
      var i := s.runs[run].rec;
      s.(ledger := WithStatus(l, i, Lost), runs := s.runs[run := Losing(i)])
    case Succeed(run, id, provider) =>
      var i := s.runs[run].rec;
      var lost := l.records[i];
      State(Insert(l, Session(id, "", lost.purpose, Starting, lost.id, provider)), s.runs - {run},
            s.heirs[|l.records| := i])
  }

  /**
  The caller's part: hydrated facts have a sound lineage, an allocated session id is reusable,
  and a session is resumed only while no other run works on it.
  */
  ghost predicate Careful(s: State, a: Action) {
    match a
    case Hydrate(facts) => SoundFacts(facts)
    case Establish(_, id, _) => id != "" && Reusable(s.ledger, id)
    case BeginResume(_, pid, _) => pid in s.ledger.byProvider ==> Alone(s, s.ledger.byProvider[pid])
    case Succeed(_, id, _) => id != "" && Reusable(s.ledger, id)
    case _ => true
  }

  predicate WorksOn(p: Phase, i: nat) {
    !p.Launching? && p.rec == i
  }

  ghost predicate Alone(s: State, i: nat) {
    forall r <- s.runs :: !WorksOn(s.runs[r], i)
  }

  // ----- Lineage -----

  function Rank(rank: map<string, nat>, c: string): nat {
    if c in rank then rank[c] else 0
  }

  /** A predecessor is known, was bound to a provider, has the same purpose and ranks lower. */
  ghost predicate Ranked(l: Ledger, rank: map<string, nat>) {
    forall c :: Known(l, c) && Look(l, c).supersedes != "" ==> Descends(l, rank, c)
  }

  ghost predicate Descends(l: Ledger, rank: map<string, nat>, c: string)
    requires Known(l, c)
  {
    var p := Look(l, c).supersedes;
    Known(l, p) && Look(l, p).pid != "" && Look(l, p).purpose == Look(l, c).purpose && Rank(rank, p) < Rank(rank, c)
  }

  ghost predicate Lineage(l: Ledger) {
    exists rank :: Ranked(l, rank)
  }

  /** The same, of facts by themselves: predecessors are among the facts, bound, and ranked lower. */
  ghost predicate SoundFacts(facts: seq<Session>) {
    exists rank :: RankedFacts(facts, rank)
  }

  ghost predicate RankedFacts(facts: seq<Session>, rank: map<string, nat>) {
    forall k :: 0 <= k < |facts| && facts[k].supersedes != "" ==> FactDescends(facts, rank, k)
  }

  ghost predicate FactDescends(facts: seq<Session>, rank: map<string, nat>, k: nat)
    requires k < |facts|
  {
    exists j :: 0 <= j < |facts| && facts[j].id == facts[k].supersedes && facts[j].pid != ""
      && facts[j].purpose == facts[k].purpose && Rank(rank, facts[j].id) < Rank(rank, facts[k].id)
  }

  /** Session ids linked by `supersedes`, from a session back through its predecessors. */
  ghost predicate Chain(l: Ledger, path: seq<string>) {
    && (forall i :: 0 <= i < |path| ==> Known(l, path[i]))
    && (forall i :: 0 < i < |path| ==> path[i] != "" && Look(l, path[i - 1]).supersedes == path[i])
  }

  /** No session precedes itself, and a chain keeps one purpose. */
  lemma {:induction false} ChainsAreSound(l: Ledger, path: seq<string>, i: nat, j: nat)
    requires Lineage(l) && Chain(l, path) && i < j < |path|
    ensures path[i] != path[j] && Look(l, path[i]).purpose == Look(l, path[j]).purpose
  {
    var rank :| Ranked(l, rank);
    ChainRanks(l, rank, path, i, j);
  }

  lemma {:induction false} ChainRanks(l: Ledger, rank: map<string, nat>, path: seq<string>, i: nat, j: nat)
    requires Ranked(l, rank) && Chain(l, path) && i < j < |path|
    ensures Rank(rank, path[j]) < Rank(rank, path[i]) && Look(l, path[i]).purpose == Look(l, path[j]).purpose
    decreases j - i
  {
    assert path[j] != "" && Descends(l, rank, path[j - 1]);
    if i < j - 1 {
      ChainRanks(l, rank, path, i, j - 1);
    }
  }

  // ----- The invariant -----

  ghost predicate RunOk(l: Ledger, p: Phase) {
    if p.Launching? then
      p.parent != "" ==> Known(l, p.parent) && Look(l, p.parent).pid != "" && Look(l, p.parent).purpose == p.purpose
    else
      && p.rec < |l.records|
      && l.records[p.rec].pid != ""
      && (if p.Losing? then l.records[p.rec].status == Lost else !Terminal(l.records[p.rec].status))
  }

  ghost predicate RunsOk(s: State) {
    && (forall r <- s.runs :: RunOk(s.ledger, s.runs[r]))
    && (forall q, r :: q in s.runs && r in s.runs && q != r && !s.runs[q].Launching? ==> !WorksOn(s.runs[r], s.runs[q].rec))
  }

  /** An automatic successor keeps the purpose of its lost predecessor, which no run touches again. */
  ghost predicate HeirOk(s: State, h: nat)
    requires h in s.heirs
  {
    var l, i := s.ledger, s.heirs[h];
    && h < |l.records| && i < |l.records|
    && l.records[i].pid != "" && l.records[i].status == Lost
    && l.records[h].supersedes == l.records[i].id && l.records[h].purpose == l.records[i].purpose
    && Alone(s, i)
  }

  ghost predicate HeirsOk(s: State) {
    && (forall h <- s.heirs :: HeirOk(s, h))
    && (forall g, h :: g in s.heirs && h in s.heirs && g != h ==> s.heirs[g] != s.heirs[h])
  }

  ghost predicate Inv(s: State) {
    Consistent(s.ledger) && RunsOk(s) && HeirsOk(s) && Lineage(s.ledger)
  }

  /** How a step may change the ledger: nothing, one status of a live record, or new records. */
  lemma StepConsistent(s: State, a: Action)
    requires Inv(s) && Enabled(s, a) && Careful(s, a)
    ensures Consistent(Apply(s, a).ledger) && Frozen(s.ledger, Apply(s, a).ledger)
  {
    var l := s.ledger;
    match a
    case Hydrate(facts) =>
      LoadedFacts(l, facts);
      hide Inv, RunsOk, HeirsOk, Lineage;
      LoadFrozen(l, facts);
    case Establish(run, id, claimed) =>
      var p := s.runs[run];
      InsertHarmlessIffReusable(l, Session(id, claimed, p.purpose, Active, p.parent, p.provider));
    case Succeed(run, id, provider) =>
      var lost := l.records[s.runs[run].rec];
      InsertHarmlessIffReusable(l, Session(id, "", lost.purpose, Starting, lost.id, provider));
    case Activate(run) => LiveStatus(l, s.runs[run], Active);
    case Settle(run, status) => LiveStatus(l, s.runs[run], status);
    case Lose(run) => LiveStatus(l, s.runs[run], Lost);
    case _ =>
  }

  lemma LoadFrozen(l: Ledger, facts: seq<Session>)
    requires Consistent(l) && Loaded(l, facts, LoadAll(l, facts))
    ensures Frozen(l, LoadAll(l, facts))
  {
  }

  lemma LiveStatus(l: Ledger, p: Phase, st: Status)
    requires Consistent(l) && RunOk(l, p) && !p.Launching? && !p.Losing?
    ensures Consistent(WithStatus(l, p.rec, st)) && Frozen(l, WithStatus(l, p.rec, st))
  {
    StatusKeepsConsistent(l, p.rec, st);
  }

  lemma StepRuns(s: State, a: Action)
    requires Inv(s) && Enabled(s, a) && Careful(s, a)
    ensures RunsOk(Apply(s, a))
  {
    var t := Apply(s, a);
    StepConsistent(s, a);
    forall r | r in t.runs ensures RunOk(t.ledger, t.runs[r]) {
      hide Inv, Enabled, Careful, Frozen, RunOk;
      if r in s.runs && t.runs[r] == s.runs[r] {
        RunKept(s, a, r);
      } else {
        OwnRun(s, a, r);
      }
    }
    StepExclusive(s, a);
    hide Inv, Enabled, Careful, Frozen, RunOk, WorksOn;
  }

  lemma OwnRun(s: State, a: Action, r: nat)
    requires Inv(s) && Enabled(s, a) && r in Apply(s, a).runs
    requires r !in s.runs || Apply(s, a).runs[r] != s.runs[r]
    ensures RunOk(Apply(s, a).ledger, Apply(s, a).runs[r])
  {
    hide HeirsOk, Lineage, LoadAll, Hydratable, SoundFacts;
    var l := s.ledger;
    if a.BeginStart? && a.supersedes != "" {
      assert Reachable(l, l.byProvider[a.supersedes]);
    }
  }

  lemma StepExclusive(s: State, a: Action)
    requires Inv(s) && Enabled(s, a) && Careful(s, a)
    ensures var runs := Apply(s, a).runs;
      forall q, r :: q in runs && r in runs && q != r && !runs[q].Launching? ==> !WorksOn(runs[r], runs[q].rec)
  {
    hide Consistent, HeirsOk, Lineage, LoadAll, Hydratable, SoundFacts;
    assert forall r <- s.runs :: RunOk(s.ledger, s.runs[r]);
  }

  /** The record a step gives a new status, if it gives one. */
  ghost predicate Touches(s: State, a: Action, i: nat) {
    (a.Activate? || a.Settle? || a.Lose?) && a.run in s.runs && WorksOn(s.runs[a.run], i)
  }

  lemma StepRecords(s: State, a: Action)
    requires Inv(s) && Enabled(s, a)
    ensures |s.ledger.records| <= |Apply(s, a).ledger.records|
    ensures forall i :: 0 <= i < |s.ledger.records| ==>
      Apply(s, a).ledger.records[i] == s.ledger.records[i].(status := Apply(s, a).ledger.records[i].status)
    ensures forall i :: 0 <= i < |s.ledger.records| && !Touches(s, a, i) ==>
      Apply(s, a).ledger.records[i] == s.ledger.records[i]
  {
    if a.Hydrate? {
      LoadedFacts(s.ledger, a.facts);
    }
  }

  /** A run the step does not belong to keeps its standing. */
  lemma RunKept(s: State, a: Action, r: nat)
    requires Inv(s) && Enabled(s, a) && r in s.runs && r in Apply(s, a).runs && Apply(s, a).runs[r] == s.runs[r]
    requires Frozen(s.ledger, Apply(s, a).ledger)
    ensures RunOk(Apply(s, a).ledger, s.runs[r])
  {
    StepRecords(s, a);
    hide Consistent, HeirsOk, Lineage, LoadAll, Hydratable;
    var p := s.runs[r];
    if p.Launching? {
      if p.parent != "" {
        assert Known(s.ledger, p.parent) && FrozenAt(s.ledger, Apply(s, a).ledger, p.parent);
      }
    } else {
      assert !Touches(s, a, p.rec);
    }
  }

  lemma StepHeirs(s: State, a: Action)
    requires Inv(s) && Enabled(s, a) && Careful(s, a)
    ensures HeirsOk(Apply(s, a))
  {
    var t := Apply(s, a);
    forall h | h in t.heirs ensures HeirOk(t, h) {
      hide Inv, Enabled, Careful, HeirOk;
      if h in s.heirs {
        HeirKept(s, a, h);
      } else {
        NewHeir(s, a);
      }
    }
    if a.Succeed? {
      NewHeir(s, a);
    }
    hide Consistent, RunsOk, HeirOk, Lineage, LoadAll, Hydratable, SoundFacts;
  }

  lemma HeirKept(s: State, a: Action, h: nat)
    requires Inv(s) && Enabled(s, a) && h in s.heirs
    ensures h in Apply(s, a).heirs && Apply(s, a).heirs[h] == s.heirs[h] && HeirOk(Apply(s, a), h)
  {
    StepRecords(s, a);
    assert HeirOk(s, h) && !Touches(s, a, s.heirs[h]);
    hide Consistent, Lineage, LoadAll, Hydratable, SoundFacts, RunsOk, HeirsOk;
  }

  /** The lost record had no heir: a record with one is touched by no run. */
  lemma NewHeir(s: State, a: Action)
    requires Inv(s) && a.Succeed? && Enabled(s, a)
    ensures
      var t, h := Apply(s, a), |s.ledger.records|;
      && t.heirs == s.heirs[h := s.runs[a.run].rec] && HeirOk(t, h)
      && (forall g <- s.heirs :: s.heirs[g] != t.heirs[h])
  {
    hide Consistent, Lineage;
    forall g | g in s.heirs ensures s.heirs[g] != s.runs[a.run].rec {
      assert HeirOk(s, g);
    }
    assert RunOk(s.ledger, s.runs[a.run]);
  }

  // ----- Lineage is kept -----

  lemma LineageInsert(l: Ledger, s: Session)
    requires Consistent(l) && Lineage(l) && Reusable(l, s.id)
    requires s.supersedes != "" ==>
      Known(l, s.supersedes) && Look(l, s.supersedes).pid != "" && Look(l, s.supersedes).purpose == s.purpose
    ensures Lineage(Insert(l, s))
  {
    var rank :| Ranked(l, rank);
    var m, higher := Insert(l, s), rank[s.id := Rank(rank, s.supersedes) + 1];
    forall c | Known(m, c) && Look(m, c).supersedes != "" ensures Descends(m, higher, c) {
      if c != s.id {
        assert Descends(l, rank, c);
      }
    }
    assert Ranked(m, higher);
  }

  lemma LineageStatus(l: Ledger, i: nat, st: Status)
    requires Consistent(l) && Lineage(l) && i < |l.records|
    ensures Lineage(WithStatus(l, i, st))
  {
    var rank :| Ranked(l, rank);
    var m := WithStatus(l, i, st);
    forall c | Known(m, c) && Look(m, c).supersedes != "" ensures Descends(m, rank, c) {
      assert Descends(l, rank, c);
    }
    assert Ranked(m, rank);
  }

  /** Hydration keeps the lineage sound when the facts have a sound lineage of their own. */
  lemma LineageLoad(l: Ledger, facts: seq<Session>)
    requires Consistent(l) && Lineage(l) && Hydratable(l, facts) && SoundFacts(facts)
    ensures Lineage(LoadAll(l, facts))
  {
    var m := LoadAll(l, facts);
    LoadedFacts(l, facts);
    var rank :| Ranked(l, rank);
    var other :| RankedFacts(facts, other);
    var both := Joint(l, m, rank, other);
    forall c | Known(m, c) && Look(m, c).supersedes != "" ensures Descends(m, both, c) {
      hide LoadAll, Ranked, RankedFacts, Hydratable, Loaded, Consistent, Descends;
      if c in l.byCFlow {
        OldDescends(l, facts, m, rank, other, c);
      } else {
        var k := FactOf(l, facts, m, c);
        FactLooks(l, facts, m, k);
        var j := Predecessor(facts, other, k);
        FactLooks(l, facts, m, j);
        NewDescends(l, m, rank, other, facts[k], facts[j]);
      }
    }
    assert Ranked(m, both);
  }

  lemma Predecessor(facts: seq<Session>, rank: map<string, nat>, k: nat) returns (j: nat)
    requires RankedFacts(facts, rank) && k < |facts| && facts[k].supersedes != ""
    ensures j < |facts| && facts[j].id == facts[k].supersedes && facts[j].pid != ""
    ensures facts[j].purpose == facts[k].purpose && Rank(rank, facts[j].id) < Rank(rank, facts[k].id)
  {
    assert FactDescends(facts, rank, k);
    j :| 0 <= j < |facts| && facts[j].id == facts[k].supersedes && facts[j].pid != ""
      && facts[j].purpose == facts[k].purpose && Rank(rank, facts[j].id) < Rank(rank, facts[k].id);
  }

  lemma FactOf(l: Ledger, facts: seq<Session>, m: Ledger, c: string) returns (k: nat)
    requires Loaded(l, facts, m) && c in m.byCFlow && c !in l.byCFlow
    ensures k < |facts| && facts[k].id == c
  {
    assert Names(facts, c);
    k :| 0 <= k < |facts| && facts[k].id == c;
  }

  /** Known sessions keep their rank, hydrated ones bring theirs. */
  ghost function Joint(l: Ledger, m: Ledger, rank: map<string, nat>, other: map<string, nat>): map<string, nat> {
    map c | c in m.byCFlow :: if c in l.byCFlow then Rank(rank, c) else Rank(other, c)
  }

  lemma OldDescends(l: Ledger, facts: seq<Session>, m: Ledger, rank: map<string, nat>, other: map<string, nat>, c: string)
    requires Consistent(l) && Loaded(l, facts, m) && Ranked(l, rank) && c in l.byCFlow
    requires Known(m, c) && Look(m, c).supersedes != ""
    ensures Descends(m, Joint(l, m, rank, other), c)
  {
    assert Known(l, c) && Descends(l, rank, c);
  }

  lemma NewDescends(l: Ledger, m: Ledger, rank: map<string, nat>, other: map<string, nat>, s: Session, p: Session)
    requires Known(m, s.id) && Look(m, s.id) == s && s.id !in l.byCFlow
    requires Known(m, p.id) && Look(m, p.id) == p && p.id !in l.byCFlow
    requires s.supersedes == p.id && p.pid != "" && p.purpose == s.purpose && Rank(other, p.id) < Rank(other, s.id)
    ensures Descends(m, Joint(l, m, rank, other), s.id)
  {
  }

  lemma FactLooks(l: Ledger, facts: seq<Session>, m: Ledger, k: nat)
    requires Hydratable(l, facts) && Loaded(l, facts, m) && k < |facts|
    ensures Known(m, facts[k].id) && Look(m, facts[k].id) == facts[k] && facts[k].id !in l.byCFlow
  {
    assert Names(facts, facts[k].id) && Fresh(l, facts[k]);
  }

  lemma StepLineage(s: State, a: Action)
    requires Inv(s) && Enabled(s, a) && Careful(s, a)
    ensures Lineage(Apply(s, a).ledger)
  {
    hide Lineage, LoadAll, SoundFacts, HeirsOk;
    var l := s.ledger;
    match a
    case Hydrate(facts) => LineageLoad(l, facts);
    case Establish(run, id, claimed) =>
      var p := s.runs[run];
      LineageInsert(l, Session(id, claimed, p.purpose, Active, p.parent, p.provider));
    case Succeed(run, id, provider) =>
      var i := s.runs[run].rec;
      assert Reachable(l, i);
      LineageInsert(l, Session(id, "", l.records[i].purpose, Starting, l.records[i].id, provider));
    case Activate(run) => LineageStatus(l, s.runs[run].rec, Active);
    case Settle(run, status) => LineageStatus(l, s.runs[run].rec, status);
    case Lose(run) => LineageStatus(l, s.runs[run].rec, Lost);
    case _ =>
  }

  // ----- Whole runs -----

  ghost predicate CarefulRun(s: State, actions: seq<Action>)
    decreases |actions|
  {
    actions != [] ==>
      Enabled(s, actions[0]) && Careful(s, actions[0]) && CarefulRun(Apply(s, actions[0]), actions[1..])
  }

  ghost function After(s: State, actions: seq<Action>): State
    requires CarefulRun(s, actions)
    decreases |actions|
  {
    if actions == [] then s else After(Apply(s, actions[0]), actions[1..])
  }

  const Initial := State(Empty, map[], map[])

  lemma InitialInv()
    ensures Inv(Initial)
  {
    assert Ranked(Empty, map[]);
  }

  lemma StepInv(s: State, a: Action)
    requires Inv(s) && Enabled(s, a) && Careful(s, a)
    ensures Inv(Apply(s, a)) && Frozen(s.ledger, Apply(s, a).ledger)
  {
    StepConsistent(s, a);
    StepRuns(s, a);
    StepHeirs(s, a);
    StepLineage(s, a);
  }

  /** Whatever the interleaving: the invariant holds, and nothing bound or settled ever changes. */
  lemma {:induction false} EveryRun(s: State, actions: seq<Action>)
    requires Inv(s) && CarefulRun(s, actions)
    ensures Inv(After(s, actions)) && Frozen(s.ledger, After(s, actions).ledger)
    decreases |actions|
  {
    hide Inv, Frozen, Enabled, Careful;
    if actions == [] {
      FrozenReflexive(s.ledger);
    } else {
      var t := Apply(s, actions[0]);
      StepInv(s, actions[0]);
      EveryRun(t, actions[1..]);
      FrozenTransitive(s.ledger, t.ledger, After(s, actions).ledger);
    }
  }

  lemma FrozenReflexive(l: Ledger)
    ensures Frozen(l, l)
  {
  }

  /** At most one automatic successor for each lost session, with its purpose. */
  lemma OneSuccessor(actions: seq<Action>, g: nat, h: nat)
    requires CarefulRun(Initial, actions)
    requires g in After(Initial, actions).heirs && h in After(Initial, actions).heirs
    ensures
      var s := After(Initial, actions);
      && HeirOk(s, g) && HeirOk(s, h)
      && (s.ledger.records[g].supersedes == s.ledger.records[h].supersedes ==> g == h)
  {
    InitialInv();
    EveryRun(Initial, actions);
    var s := After(Initial, actions);
    assert HeirOk(s, g) && HeirOk(s, h);
    assert Reachable(s.ledger, s.heirs[g]) && Reachable(s.ledger, s.heirs[h]);
  }

  // ----- The caller's obligations are exact -----

  /** Nothing bound or settled changes, between any two moments of any careful run from `s`. */
  ghost predicate StaysFrozen(s: State) {
    forall now, later :: CarefulRun(s, now) && CarefulRun(After(s, now), later) ==>
      Frozen(After(s, now).ledger, After(After(s, now), later).ledger)
  }

  /**
  Two runs of one session may leave a settled status: the runtime checks the status once, when
  the Resume begins. Resuming is safe exactly when no other run works on the session.
  */
  lemma ResumeSafeIffAlone(s: State, a: Action)
    requires Inv(s) && a.BeginResume? && Enabled(s, a)
    ensures StaysFrozen(Apply(s, a)) <==> Alone(s, s.ledger.byProvider[a.pid])
  {
    var t := Apply(s, a);
    if Alone(s, s.ledger.byProvider[a.pid]) {
      StepInv(s, a);
      forall now, later | CarefulRun(t, now) && CarefulRun(After(t, now), later)
        ensures Frozen(After(t, now).ledger, After(After(t, now), later).ledger)
      {
        hide Inv;
        EveryRun(t, now);
        EveryRun(After(t, now), later);
      }
    } else {
      Reopened(s, a);
    }
  }

  lemma Reopened(s: State, a: Action)
    requires Inv(s) && a.BeginResume? && Enabled(s, a) && !Alone(s, s.ledger.byProvider[a.pid])
    ensures !StaysFrozen(Apply(s, a))
  {
    var i := s.ledger.byProvider[a.pid];
    var other :| other in s.runs && WorksOn(s.runs[other], i);
    assert RunOk(s.ledger, s.runs[other]) && Reachable(s.ledger, i);
    var t := Apply(s, a);
    hide Inv, CarefulRun, After, Frozen, StaysFrozen;
    if s.runs[other].Draining? {
      assert CarefulRun(t, []) && After(t, []) == t by { Nothing(t); }
      Revived(t, t, [], other, a.run);
    } else {
      One(t, Activate(other));
      Revived(t, Apply(t, Activate(other)), [Activate(other)], other, a.run);
    }
  }

  /** The first run settles the record, then the second re-activates it. */
  lemma Revived(t: State, u: State, start: seq<Action>, other: nat, run: nat)
    requires CarefulRun(t, start) && After(t, start) == u
    requires other in u.runs && run in u.runs && other != run && u.runs[other].Draining?
    requires u.runs[run] == Resuming(u.runs[other].rec) && u.runs[other].rec < |u.ledger.records|
    requires Reachable(u.ledger, u.runs[other].rec)
    ensures !StaysFrozen(t)
  {
    hide CarefulRun, After, Frozen;
    var settle, activate := Settle(other, Completed), Activate(run);
    var settled := Apply(u, settle);
    var reopened := Apply(settled, activate);
    Extend(t, start, settle);
    One(settled, activate);
    assert !Frozen(settled.ledger, reopened.ledger) by {
      var c := u.ledger.records[u.runs[other].rec].id;
      assert Known(settled.ledger, c) && !FrozenAt(settled.ledger, reopened.ledger, c);
      NotFrozen(settled.ledger, reopened.ledger, c);
    }
    var now, later := start + [settle], [activate];
    assert CarefulRun(t, now) && CarefulRun(After(t, now), later);
  }

  lemma NotFrozen(l: Ledger, m: Ledger, c: string)
    requires Known(l, c) && Known(m, c) && !FrozenAt(l, m, c)
    ensures !Frozen(l, m)
  {
  }

  lemma Nothing(s: State)
    ensures CarefulRun(s, []) && After(s, []) == s
  {
  }

  lemma One(s: State, a: Action)
    requires Enabled(s, a) && Careful(s, a)
    ensures CarefulRun(s, [a]) && After(s, [a]) == Apply(s, a)
  {
    assert [a][1..] == [];
    assert CarefulRun(Apply(s, a), [a][1..]);
  }

  lemma {:induction false} Extend(s: State, actions: seq<Action>, a: Action)
    requires CarefulRun(s, actions) && Enabled(After(s, actions), a) && Careful(After(s, actions), a)
    ensures CarefulRun(s, actions + [a]) && After(s, actions + [a]) == Apply(After(s, actions), a)
    decreases |actions|
  {
    if actions == [] {
      One(s, a);
      assert actions + [a] == [a];
    } else {
      Extend(Apply(s, actions[0]), actions[1..], a);
      assert (actions + [a])[1..] == actions[1..] + [a];
    }
  }

  /** Hydration checks no lineage: a session that supersedes itself is accepted. */
  lemma HydrateAcceptsCycle()
    ensures
      var fact := Session("s", "p", Review, Lost, "s", "codex");
      Hydratable(Empty, [fact]) && !Lineage(LoadAll(Empty, [fact]))
  {
    var fact := Session("s", "p", Review, Lost, "s", "codex");
    LoadedFacts(Empty, [fact]);
    var l := LoadAll(Empty, [fact]);
    assert [fact][0] == fact;
    FactLooks(Empty, [fact], l, 0);
    forall rank ensures !Ranked(l, rank) {
      assert !Descends(l, rank, "s");
    }
  }

  /** A fresh runtime has a sound lineage exactly when the stored facts have one. */
  lemma HydrateSoundIff(facts: seq<Session>)
    requires Hydratable(Empty, facts)
    ensures Lineage(LoadAll(Empty, facts)) <==> SoundFacts(facts)
  {
    var l := LoadAll(Empty, facts);
    LoadedFacts(Empty, facts);
    assert Ranked(Empty, map[]);
    if SoundFacts(facts) {
      LineageLoad(Empty, facts);
    }
    if Lineage(l) {
      var rank :| Ranked(l, rank);
      forall k | 0 <= k < |facts| && facts[k].supersedes != "" ensures FactDescends(facts, rank, k) {
        FactLooks(Empty, facts, l, k);
        assert Descends(l, rank, facts[k].id);
        assert Names(facts, facts[k].supersedes);
        var j :| 0 <= j < |facts| && facts[j].id == facts[k].supersedes;
        FactLooks(Empty, facts, l, j);
      }
      assert RankedFacts(facts, rank);
    }
  }

  // ----- Recovery: what the runtime reports can be hydrated again -----

  /** A listing of the ledger: every known id once, in any order. */
  ghost predicate Lists(l: Ledger, ids: seq<string>) {
    && (forall k :: 0 <= k < |ids| ==> Known(l, ids[k]))
    && (forall c :: Known(l, c) ==> c in ids)
    && (forall j, k :: 0 <= j < k < |ids| ==> ids[j] != ids[k])
  }

  ghost function Report(l: Ledger, ids: seq<string>): seq<Session>
    requires forall k :: 0 <= k < |ids| ==> Known(l, ids[k])
  {
    seq(|ids|, k requires 0 <= k < |ids| => Look(l, ids[k]))
  }

  /** A fresh runtime hydrated with the reported sessions knows the same sessions, soundly related. */
  lemma ReportRoundTrip(l: Ledger, ids: seq<string>)
    requires Consistent(l) && Lineage(l) && Lists(l, ids)
    requires forall i :: 0 <= i < |l.records| ==> Valid(l.records[i])
    ensures
      var facts := Report(l, ids);
      var m := LoadAll(Empty, facts);
      && Hydratable(Empty, facts) && Consistent(m) && Lineage(m)
      && (forall c :: Known(m, c) <==> Known(l, c))
      && (forall c :: Known(l, c) ==> Look(m, c) == Look(l, c))
      && m.byProvider.Keys == l.byProvider.Keys
  {
    var facts := Report(l, ids);
    var m := LoadAll(Empty, facts);
    ReportHydratable(l, ids);
    LoadedFacts(Empty, facts);
    ReportSound(l, ids);
    HydrateSoundIff(facts);
    hide LoadAll, Lineage, Consistent, Lists, Loaded, Hydratable;
    SameIds(l, ids, m);
    SamePids(l, ids, m);
  }

  lemma SameIds(l: Ledger, ids: seq<string>, m: Ledger)
    requires Lists(l, ids) && Consistent(l) && Hydratable(Empty, Report(l, ids)) && Loaded(Empty, Report(l, ids), m)
    ensures forall c :: Known(m, c) <==> Known(l, c)
    ensures forall c :: Known(l, c) ==> Look(m, c) == Look(l, c)
  {
    var facts := Report(l, ids);
    forall c ensures (Known(m, c) <==> Known(l, c)) && (Known(l, c) ==> Look(m, c) == Look(l, c)) {
      if Known(l, c) {
        var k :| 0 <= k < |ids| && ids[k] == c;
        FactLooks(Empty, facts, m, k);
      }
      assert Known(m, c) ==> Names(facts, c);
    }
  }

  lemma SamePids(l: Ledger, ids: seq<string>, m: Ledger)
    requires Lists(l, ids) && Consistent(l) && Loaded(Empty, Report(l, ids), m)
    ensures m.byProvider.Keys == l.byProvider.Keys
  {
    var facts := Report(l, ids);
    forall p ensures p in m.byProvider.Keys <==> p in l.byProvider.Keys {
      if p in l.byProvider {
        assert Reachable(l, l.byProvider[p]);
        var c := l.records[l.byProvider[p]].id;
        assert Known(l, c);
        var k :| 0 <= k < |ids| && ids[k] == c;
        assert facts[k].pid == p && Binds(facts, p);
      }
      if p in m.byProvider {
        assert Binds(facts, p);
        var k :| 0 <= k < |facts| && facts[k].pid == p;
        assert Reachable(l, l.byCFlow[ids[k]]);
      }
    }
  }

  lemma ReportHydratable(l: Ledger, ids: seq<string>)
    requires Consistent(l) && Lists(l, ids)
    requires forall i :: 0 <= i < |l.records| ==> Valid(l.records[i])
    ensures Hydratable(Empty, Report(l, ids))
  {
    var facts := Report(l, ids);
    forall j, k | 0 <= j < k < |facts| ensures Apart(facts[j], facts[k]) {
      assert facts[j].pid != "" ==> Reachable(l, l.byCFlow[ids[j]]);
      assert facts[k].pid != "" ==> Reachable(l, l.byCFlow[ids[k]]);
    }
  }

  lemma ReportSound(l: Ledger, ids: seq<string>)
    requires Consistent(l) && Lineage(l) && Lists(l, ids)
    ensures SoundFacts(Report(l, ids))
  {
    var facts := Report(l, ids);
    var rank :| Ranked(l, rank);
    forall k | 0 <= k < |facts| && facts[k].supersedes != "" ensures FactDescends(facts, rank, k) {
      assert Descends(l, rank, ids[k]);
      var j :| 0 <= j < |ids| && ids[j] == facts[k].supersedes;
      assert facts[j] == Look(l, ids[j]);
    }
    assert RankedFacts(facts, rank);
  }

  // ----- One call at a time -----

  ghost function Idle(l: Ledger): State {
    State(l, map[], map[])
  }

  /** Some careful run takes the ledger from `l` to `m`. */
  ghost predicate Carries(l: Ledger, m: Ledger) {
    exists actions :: CarefulRun(Idle(l), actions) && After(Idle(l), actions).ledger == m
  }

  lemma CarriesNothing(l: Ledger)
    ensures Carries(l, l)
  {
    Nothing(Idle(l));
    assert CarefulRun(Idle(l), []);
  }

  /** Whatever a careful run does is kept sound and frozen. */
  lemma CarriesSoundly(l: Ledger, m: Ledger)
    requires Inv(Idle(l)) && Carries(l, m)
    ensures Inv(Idle(m)) && Frozen(l, m)
  {
    var actions :| CarefulRun(Idle(l), actions) && After(Idle(l), actions).ledger == m;
    EveryRun(Idle(l), actions);
  }

  predicate DrainStatus(st: Status) {
    st == Active || st == Completed || st == Failed || st == Cancelled
  }

  /** From a claimed or resumed record the run activates it, and may settle it. */
  lemma SettleCarries(l: Ledger, start: seq<Action>, u: State, rec: nat, m: Ledger)
    requires CarefulRun(Idle(l), start) && After(Idle(l), start) == u
    requires 0 in u.runs && (u.runs[0] == Claimed(rec) || u.runs[0] == Resuming(rec)) && rec < |u.ledger.records|
    requires exists st :: m == WithStatus(u.ledger, rec, st) && DrainStatus(st)
    ensures Carries(l, m)
  {
    hide CarefulRun, After;
    var st :| m == WithStatus(u.ledger, rec, st) && DrainStatus(st);
    Extend(Idle(l), start, Activate(0));
    var v := Apply(u, Activate(0));
    if st != Active {
      Extend(Idle(l), start + [Activate(0)], Settle(0, st));
      assert WithStatus(v.ledger, rec, st) == m;
    }
  }
}
