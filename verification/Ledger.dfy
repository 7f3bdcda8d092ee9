/**
The session ledger of the agent runtime: session records reached through two indexes, one by
CFlow session id and one by provider session id. A record is shared by both indexes and by the
run that drains it, so records live in an arena (`records`) and the indexes hold positions.
*/
module Ledger {

  datatype Purpose =
    | Planning | PlanCheck | SpecGeneration | WorkflowOptimization | Implementation | Repair
    | Review | FinalVerification | Adoption | ApplyVerification
    | UnknownPurpose(name: string)

  datatype Status =
    | Starting | Active | Interrupted | Paused | InteractiveIdle | Completed | Failed | Cancelled | Lost
    | UnknownStatus(name: string)

  predicate Terminal(st: Status) {
    st == Completed || st == Failed || st == Cancelled || st == Lost
  }

  /** `supersedes` is the CFlow id of the predecessor, or empty. */
  datatype Session = Session(
    id: string,
    pid: string,
    purpose: Purpose,
    status: Status,
    supersedes: string,
    provider: string)

  datatype Ledger = Ledger(records: seq<Session>, byCFlow: map<string, nat>, byProvider: map<string, nat>)

  const Empty := Ledger([], map[], map[])

  /** Adds a record to the arena and to the indexes, replacing what its CFlow id named. */
  function Insert(l: Ledger, s: Session): Ledger {
    var i := |l.records|;
    Ledger(l.records + [s], l.byCFlow[s.id := i], if s.pid == "" then l.byProvider else l.byProvider[s.pid := i])
  }

  function WithStatus(l: Ledger, i: nat, st: Status): Ledger
    requires i < |l.records|
  {
    l.(records := l.records[i := l.records[i].(status := st)])
  }

  /** Each key matches its record, and each provider-bound record is reachable from both indexes. */
  ghost predicate Consistent(l: Ledger) {
    && (forall c <- l.byCFlow :: l.byCFlow[c] < |l.records| && l.records[l.byCFlow[c]].id == c)
    && (forall p <- l.byProvider :: p != "" && l.byProvider[p] < |l.records| && l.records[l.byProvider[p]].pid == p)
    && (forall i :: 0 <= i < |l.records| && l.records[i].pid != "" ==> Reachable(l, i))
  }

  predicate Reachable(l: Ledger, i: nat)
    requires i < |l.records|
  {
    var s := l.records[i];
    s.pid in l.byProvider && l.byProvider[s.pid] == i && s.id in l.byCFlow && l.byCFlow[s.id] == i
  }

  ghost predicate Known(l: Ledger, c: string) {
    c in l.byCFlow && l.byCFlow[c] < |l.records|
  }

  ghost function Look(l: Ledger, c: string): Session
    requires Known(l, c)
  {
    l.records[l.byCFlow[c]]
  }

  /** An id whose record, if any, was never bound to a provider session. */
  ghost predicate Unbound(l: Ledger, id: string) {
    Known(l, id) ==> Look(l, id).pid == ""
  }

  /** An id that may be given to a new record: it names nothing bound and nothing settled. */
  ghost predicate Reusable(l: Ledger, id: string) {
    Known(l, id) ==> Look(l, id).pid == "" && !Terminal(Look(l, id).status)
  }

  /**
  What a later ledger may never change: a known id stays known, a bound session keeps its
  record, provider session, purpose and predecessor, and a settled session keeps its status.
  */
  ghost predicate Frozen(before: Ledger, after: Ledger) {
    forall c :: Known(before, c) ==> Known(after, c) && FrozenAt(before, after, c)
  }

  ghost predicate FrozenAt(before: Ledger, after: Ledger, c: string)
    requires Known(before, c) && Known(after, c)
  {
    var s, t := Look(before, c), Look(after, c);
    && (s.pid != "" ==> after.byCFlow[c] == before.byCFlow[c] && t == s.(status := t.status))
    && (Terminal(s.status) ==> t.status == s.status)
  }

  lemma FrozenTransitive(a: Ledger, b: Ledger, c: Ledger)
    requires Frozen(a, b) && Frozen(b, c)
    ensures Frozen(a, c)
  {
    forall k | Known(a, k) ensures Known(c, k) && FrozenAt(a, c, k) {
      assert Known(b, k) && FrozenAt(a, b, k) && FrozenAt(b, c, k);
    }
  }

  lemma StatusKeepsConsistent(l: Ledger, i: nat, st: Status)
    requires Consistent(l) && i < |l.records|
    ensures Consistent(WithStatus(l, i, st))
  {
    var m := WithStatus(l, i, st);
    forall k | 0 <= k < |m.records| && m.records[k].pid != "" ensures Reachable(m, k) {
      assert Reachable(l, k);
    }
  }

  /**
  `establish` and the fallback successor overwrite what their CFlow id named without looking.
  The indexes stay consistent exactly when that record was never bound.
  */
  lemma InsertConsistentIffUnbound(l: Ledger, s: Session)
    requires Consistent(l) && s.pid !in l.byProvider
    ensures Consistent(Insert(l, s)) <==> Unbound(l, s.id)
  {
    var m := Insert(l, s);
    if Unbound(l, s.id) {
      forall k | 0 <= k < |m.records| && m.records[k].pid != "" ensures Reachable(m, k) {
        assert k < |l.records| ==> Reachable(l, k);
      }
    } else {
      assert !Reachable(m, l.byCFlow[s.id]);
    }
  }

  /** Together with settled statuses: a new record is harmless exactly when its id is reusable. */
  lemma InsertHarmlessIffReusable(l: Ledger, s: Session)
    requires Consistent(l) && s.pid !in l.byProvider && !Terminal(s.status)
    ensures Consistent(Insert(l, s)) && Frozen(l, Insert(l, s)) <==> Reusable(l, s.id)
  {
    InsertConsistentIffUnbound(l, s);
    var m := Insert(l, s);
    if Reusable(l, s.id) {
      forall c | Known(l, c) ensures Known(m, c) && FrozenAt(l, m, c) {
      }
    } else if Look(l, s.id).pid == "" {
      assert !FrozenAt(l, m, s.id);
    }
  }

  // ----- Hydration -----

  predicate Valid(s: Session) {
    !s.purpose.UnknownPurpose? && !s.status.UnknownStatus?
  }

  /** Facts that hydrate into `l`: valid, with ids and provider ids new to it and to each other. */
  ghost predicate Hydratable(l: Ledger, facts: seq<Session>) {
    && (forall k :: 0 <= k < |facts| ==> Valid(facts[k]) && Fresh(l, facts[k]))
    && (forall j, k :: 0 <= j < k < |facts| ==> Apart(facts[j], facts[k]))
  }

  predicate Fresh(l: Ledger, s: Session) {
    s.id !in l.byCFlow && (s.pid != "" ==> s.pid !in l.byProvider)
  }

  predicate Apart(s: Session, t: Session) {
    s.id != t.id && (s.pid != "" ==> s.pid != t.pid)
  }

  function LoadAll(l: Ledger, facts: seq<Session>): Ledger {
    if facts == [] then l else Insert(LoadAll(l, facts[..|facts| - 1]), facts[|facts| - 1])
  }

  /** What hydration leaves: the facts appended, each indexed, nothing else touched. */
  ghost predicate Loaded(l: Ledger, facts: seq<Session>, m: Ledger) {
    m.records == l.records + facts && LoadedIds(l, facts, m) && LoadedPids(l, facts, m)
  }

  ghost predicate LoadedIds(l: Ledger, facts: seq<Session>, m: Ledger) {
    && (forall c :: c in m.byCFlow <==> c in l.byCFlow || Names(facts, c))
    && (forall c <- l.byCFlow :: m.byCFlow[c] == l.byCFlow[c])
    && (forall k :: 0 <= k < |facts| ==> m.byCFlow[facts[k].id] == |l.records| + k)
  }

  ghost predicate LoadedPids(l: Ledger, facts: seq<Session>, m: Ledger) {
    && (forall p :: p in m.byProvider <==> p in l.byProvider || (p != "" && Binds(facts, p)))
    && (forall p <- l.byProvider :: m.byProvider[p] == l.byProvider[p])
    && (forall k :: 0 <= k < |facts| && facts[k].pid != "" ==> m.byProvider[facts[k].pid] == |l.records| + k)
  }

  ghost predicate Names(facts: seq<Session>, c: string) {
    exists k :: 0 <= k < |facts| && facts[k].id == c
  }

  ghost predicate Binds(facts: seq<Session>, p: string) {
    exists k :: 0 <= k < |facts| && facts[k].pid == p
  }

  lemma {:induction false} LoadedFacts(l: Ledger, facts: seq<Session>)
    requires Consistent(l) && Hydratable(l, facts)
    ensures Consistent(LoadAll(l, facts)) && Loaded(l, facts, LoadAll(l, facts))
  {
    if facts != [] {
      hide Consistent, Loaded;
      var n := |facts| - 1;
      var init, last := facts[..n], facts[n];
      assert facts == init + [last];
      LoadedFacts(l, init);
      LoadOne(l, init, LoadAll(l, init), last);
    }
  }

  lemma LoadOne(l: Ledger, init: seq<Session>, m: Ledger, last: Session)
    requires Consistent(m) && Loaded(l, init, m) && Hydratable(l, init + [last])
    ensures Fresh(m, last)
    ensures Consistent(Insert(m, last)) && Loaded(l, init + [last], Insert(m, last))
  {
    StillFresh(l, init, m, last);
    assert last.pid !in m.byProvider;
    InsertConsistentIffUnbound(m, last);
    LoadedGrows(l, init, m, last);
  }

  lemma StillFresh(l: Ledger, init: seq<Session>, m: Ledger, last: Session)
    requires Loaded(l, init, m) && Hydratable(l, init + [last])
    ensures Fresh(m, last)
  {
    var facts := init + [last];
    assert Fresh(l, facts[|init|]);
    forall k | 0 <= k < |init| ensures Apart(init[k], last) {
      assert Apart(facts[k], facts[|init|]);
    }
  }

  lemma LoadedGrows(l: Ledger, init: seq<Session>, m: Ledger, last: Session)
    requires Loaded(l, init, m) && Fresh(m, last)
    ensures Loaded(l, init + [last], Insert(m, last))
  {
    hide LoadedIds, LoadedPids;
    IdsGrow(l, init, m, last);
    PidsGrow(l, init, m, last);
  }

  lemma IdsGrow(l: Ledger, init: seq<Session>, m: Ledger, last: Session)
    requires |m.records| == |l.records| + |init| && LoadedIds(l, init, m) && last.id !in m.byCFlow
    ensures LoadedIds(l, init + [last], Insert(m, last))
  {
    var facts := init + [last];
    assert facts[|init|] == last && forall k :: 0 <= k < |init| ==> facts[k] == init[k];
    forall k | 0 <= k < |init| ensures init[k].id in m.byCFlow && Names(facts, init[k].id) {
      assert Names(init, init[k].id) && facts[k].id == init[k].id;
    }
  }

  lemma PidsGrow(l: Ledger, init: seq<Session>, m: Ledger, last: Session)
    requires |m.records| == |l.records| + |init| && LoadedPids(l, init, m) && (last.pid != "" ==> last.pid !in m.byProvider)
    ensures LoadedPids(l, init + [last], Insert(m, last))
  {
    var facts := init + [last];
    assert facts[|init|] == last && forall k :: 0 <= k < |init| ==> facts[k] == init[k];
    forall k | 0 <= k < |init| ensures Binds(facts, init[k].pid) && (init[k].pid != "" ==> init[k].pid in m.byProvider) {
      assert Binds(init, init[k].pid) && facts[k].pid == init[k].pid;
    }
  }

  /** A fact whose id was left out gets one from the id source, asked at that fact. */
  function Named(facts: seq<Session>, gen: nat -> string): (r: seq<Session>) {
    seq(|facts|, k requires 0 <= k < |facts| => if facts[k].id == "" then facts[k].(id := gen(k)) else facts[k])
  }

  lemma NothingLoaded(l: Ledger, named: seq<Session>)
    ensures Hydratable(l, named[..0]) && Loaded(l, named[..0], l)
  {
  }

  lemma RefusedFact(l: Ledger, named: seq<Session>, k: nat, m: Ledger)
    requires k < |named| && Loaded(l, named[..k], m)
    requires !Valid(named[k]) || !Fresh(m, named[k])
    ensures !Hydratable(l, named[..k + 1]) && !Hydratable(l, named)
  {
    var s := named[k];
    assert named[..k + 1][k] == s;
    if Valid(s) && Fresh(l, s) {
      var init := named[..k];
      if s.id in m.byCFlow {
        var j :| 0 <= j < |init| && init[j].id == s.id;
        assert !Apart(named[j], named[k]) && named[..k + 1][j] == named[j];
      } else {
        var j :| 0 <= j < |init| && init[j].pid == s.pid;
        assert !Apart(named[j], named[k]) && named[..k + 1][j] == named[j];
      }
    }
  }

  lemma AcceptedFact(l: Ledger, named: seq<Session>, k: nat, m: Ledger)
    requires k < |named| && Hydratable(l, named[..k]) && Loaded(l, named[..k], m)
    requires Valid(named[k]) && Fresh(m, named[k])
    requires Consistent(m)
    ensures Hydratable(l, named[..k + 1])
    ensures Consistent(Insert(m, named[k])) && Loaded(l, named[..k + 1], Insert(m, named[k]))
  {
    assert named[..k + 1] == named[..k] + [named[k]];
    HydratableGrows(l, named, k, m);
    LoadOne(l, named[..k], m, named[k]);
  }

  lemma HydratableGrows(l: Ledger, named: seq<Session>, k: nat, m: Ledger)
    requires k < |named| && Hydratable(l, named[..k]) && Loaded(l, named[..k], m)
    requires Valid(named[k]) && Fresh(m, named[k])
    ensures Hydratable(l, named[..k + 1])
  {
    var s, init, more := named[k], named[..k], named[..k + 1];
    assert forall j :: 0 <= j < k ==> more[j] == init[j];
    assert Fresh(l, s);
    forall i, j | 0 <= i < j < |more| ensures Apart(more[i], more[j]) {
      if j == k {
        assert Names(init, init[i].id) && init[i].id in m.byCFlow;
        assert Binds(init, init[i].pid);
      } else {
        assert Apart(init[i], init[j]);
      }
    }
  }
}
