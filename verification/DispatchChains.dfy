/**
The concurrent node chains of one dispatch pass. Every chain commits an intent, executes
it and commits its result; the commits of all chains share one mutex, and the executions
run in between in any interleaving. A chain interrupted by a cancelled pass runs a second,
settling loop of the same form.
*/
module DispatchChains {
  import opened Basics

  datatype Loop = Node | Settling

  /** One row of the effects table; its identifier is its position. */
  datatype Effect = Effect(owner: nat, loop: Loop, identity: string, settled: bool)

  datatype Outcome = Completed | Stopped | Errored

  datatype Phase = Ready | Locked | Viewed(version: nat) | Executing | Failed | Returned(how: Outcome)

  /**
  `feed` is the effect whose result the next transaction settles. `open` is the effect of
  the current loop whose result is not committed, `left` the one the interrupted loop left.
  */
  datatype Chain = Chain(
    loop: Loop,
    phase: Phase,
    feed: Option<nat>,
    executed: set<string>,
    iteration: nat,
    open: Option<nat>,
    left: Option<nat>)

  datatype Pass = Pass(
    mutex: Option<nat>,
    version: nat,
    ledger: seq<Effect>,
    log: seq<nat>,
    chains: seq<Chain>)

  /** What the kernel answers: an error, no further effect, or one effect intent. */
  datatype Verdict = Refuse | Quiet(again: bool) | Request(identity: string)

  datatype Action =
    | Lock
    | View(ok: bool)
    | Decide(verdict: Verdict)
    | Execute(ok: bool)
    | Interrupt(running: bool)
    | GiveUp

  const FRESH := Chain(Node, Ready, None, {}, 0, None, None)

  ghost predicate Start(p: Pass) {
    && p.mutex == None
    && p.ledger == []
    && p.log == []
    && forall c :: 0 <= c < |p.chains| ==> p.chains[c] == FRESH
  }

  predicate Enabled(p: Pass, budget: nat, c: nat, a: Action) {
    && c < |p.chains|
    && var ch := p.chains[c];
       match a
       case Lock => ch.phase.Ready? && ch.iteration < budget && p.mutex == None
       case View(_) => ch.phase.Locked?
       case Decide(v) => ch.phase.Viewed? && (v.Quiet? && v.again ==> ch.loop.Node?)
       case Execute(_) => ch.phase.Executing? && ch.open.Some?
       case Interrupt(_) => ch.phase.Failed? && ch.loop.Node?
       case GiveUp => ch.phase.Failed? || (ch.phase.Ready? && ch.iteration >= budget)
  }

  function Settle(ledger: seq<Effect>, feed: Option<nat>): seq<Effect> {
    if feed.Some? && feed.value < |ledger| then ledger[feed.value := ledger[feed.value].(settled := true)] else ledger
  }

  /** The transaction body: version check, kernel decision, new intent, settled result, version bump. */
  function Commit(p: Pass, c: nat, verdict: Verdict): Pass
    requires c < |p.chains| && p.chains[c].phase.Viewed?
  {
    var ch := p.chains[c];
    var failed := p.(mutex := None, chains := p.chains[c := ch.(phase := Failed, feed := None)]);
    if ch.phase.version != p.version || verdict.Refuse? then failed
    else if ch.feed.Some? && (ch.feed.value >= |p.ledger| || p.ledger[ch.feed.value].settled) then failed
    else
      var ledger := Settle(p.ledger, ch.feed);
      match verdict
      case Quiet(again) =>
        var phase := if again then Ready else Returned(if ch.loop.Node? then Completed else Stopped);
        p.(mutex := None, version := p.version + 1, ledger := ledger,
           chains := p.chains[c := ch.(phase := phase, feed := None, open := None, iteration := ch.iteration + 1)])
      case Request(id) =>
        var first := id !in ch.executed;
        var next := ch.(phase := if first then Executing else Failed, feed := None,
                        executed := ch.executed + {id}, open := Some(|ledger|));
        p.(mutex := None, version := p.version + 1,
           ledger := ledger + [Effect(c, ch.loop, id, false)], chains := p.chains[c := next])
      case Refuse => failed
  }

  function Next(p: Pass, budget: nat, c: nat, a: Action): Pass
    requires Enabled(p, budget, c, a)
  {
    var ch := p.chains[c];
    match a
    case Lock => p.(mutex := Some(c), chains := p.chains[c := ch.(phase := Locked)])
    case View(ok) =>
      if ok then p.(chains := p.chains[c := ch.(phase := Viewed(p.version))])
      else p.(mutex := None, chains := p.chains[c := ch.(phase := Failed, feed := None)])
    case Decide(v) => Commit(p, c, v)
    case Execute(ok) =>
      var next := if ok then ch.(phase := Ready, feed := ch.open, iteration := ch.iteration + 1)
                  else ch.(phase := Failed);
      p.(log := p.log + [ch.open.value], chains := p.chains[c := next])
    case Interrupt(running) =>
      var next := if running then Chain(Settling, Ready, None, {}, 0, None, ch.open)
                  else ch.(phase := Returned(Stopped));
      p.(chains := p.chains[c := next])
    case GiveUp => p.(chains := p.chains[c := ch.(phase := Returned(Errored))])
  }

  // ---------------------------------------------------------------------------
  // The invariant
  // ---------------------------------------------------------------------------

  predicate HoldsMutex(ch: Chain) {
    ch.phase.Locked? || ch.phase.Viewed?
  }

  /** The mutex belongs to the chain inside its transaction, whose view is the current version. */
  ghost predicate Serialized(p: Pass) {
    && (p.mutex.Some? ==> p.mutex.value < |p.chains| && HoldsMutex(p.chains[p.mutex.value]))
    && (forall c :: 0 <= c < |p.chains| && HoldsMutex(p.chains[c]) ==> p.mutex == Some(c))
    && (forall c :: 0 <= c < |p.chains| && p.chains[c].phase.Viewed? ==> p.chains[c].phase.version == p.version)
  }

  /** Effect `e` is an uncommitted result of chain `c`. */
  ghost predicate Unsettled(p: Pass, c: nat, e: nat) {
    e < |p.ledger| && p.ledger[e].owner == c && !p.ledger[e].settled
  }

  ghost predicate ChainOk(p: Pass, c: nat)
    requires c < |p.chains|
  {
    var ch := p.chains[c];
    && (ch.open.Some? ==> Unsettled(p, c, ch.open.value) && p.ledger[ch.open.value].loop == ch.loop)
    && (ch.left.Some? ==> ch.loop.Settling? && Unsettled(p, c, ch.left.value)
                          && p.ledger[ch.left.value].loop == Node)
    && (ch.phase.Ready? || HoldsMutex(ch) ==> ch.feed == ch.open && (ch.open.Some? ==> ch.open.value in p.log))
    && (ch.phase.Executing? ==> ch.open.Some? && ch.open.value !in p.log
                                && p.ledger[ch.open.value].identity in ch.executed)
    && (ch.phase == Returned(Completed) ==> ch.loop.Node? && ch.open == None)
  }

  /** The effect chain `c` is about to execute carries identity `id`. */
  ghost predicate Requested(p: Pass, c: nat, id: string)
    requires c < |p.chains|
  {
    var open := p.chains[c].open;
    open.Some? && open.value < |p.ledger| && p.ledger[open.value].identity == id
  }

  /** Every row belongs to a chain, and an unsettled one is that chain's open or left effect. */
  ghost predicate RowOk(p: Pass, e: nat)
    requires e < |p.ledger|
  {
    var row := p.ledger[e];
    && row.owner < |p.chains|
    && (!row.settled ==> Some(e) in {p.chains[row.owner].open, p.chains[row.owner].left})
    && (row.settled ==> e in p.log)
    && (e in p.log && row.loop == p.chains[row.owner].loop ==> row.identity in p.chains[row.owner].executed)
    && (row.loop.Settling? ==> p.chains[row.owner].loop.Settling?)
    && (p.chains[row.owner].phase.Executing? && e in p.log && row.loop == p.chains[row.owner].loop
        ==> !Requested(p, row.owner, row.identity))
  }

  /** Executions follow their commits, never repeat, and never repeat an identity within one loop. */
  ghost predicate LogOk(p: Pass) {
    && (forall i :: 0 <= i < |p.log| ==> p.log[i] < |p.ledger|)
    && (forall i, j :: 0 <= i < j < |p.log| ==> p.log[i] != p.log[j])
    && (forall d, e :: d in p.log && e in p.log && d != e && d < |p.ledger| && e < |p.ledger|
          && p.ledger[d].owner == p.ledger[e].owner && p.ledger[d].loop == p.ledger[e].loop
          ==> p.ledger[d].identity != p.ledger[e].identity)
  }

  ghost predicate Inv(p: Pass) {
    && Serialized(p)
    && (forall c :: 0 <= c < |p.chains| ==> ChainOk(p, c))
    && (forall e :: 0 <= e < |p.ledger| ==> RowOk(p, e))
    && LogOk(p)
  }

  lemma StartInv(p: Pass)
    requires Start(p)
    ensures Inv(p)
  {
  }

  lemma LockInv(p: Pass, budget: nat, c: nat, a: Action)
    requires Inv(p) && Enabled(p, budget, c, a) && (a.Lock? || a.View?)
    ensures Inv(Next(p, budget, c, a))
  {
    var q := Next(p, budget, c, a);
    forall d | 0 <= d < |q.chains| ensures ChainOk(q, d) {
      assert ChainOk(p, d);
    }
    forall e | 0 <= e < |q.ledger| ensures RowOk(q, e) {
      assert RowOk(p, e);
    }
  }

  lemma ExecuteInv(p: Pass, budget: nat, c: nat, a: Action)
    requires Inv(p) && Enabled(p, budget, c, a) && a.Execute?
    ensures Inv(Next(p, budget, c, a))
  {
    var q := Next(p, budget, c, a);
    var open := p.chains[c].open.value;
    assert ChainOk(p, c);
    forall d | 0 <= d < |q.chains| ensures ChainOk(q, d) {
      assert ChainOk(p, d);
    }
    forall e | 0 <= e < |q.ledger| ensures RowOk(q, e) {
      assert RowOk(p, e) && RowOk(p, open);
    }
    forall d | d in q.log && d < |q.ledger| ensures d in p.log || d == open {
    }
    assert LogOk(q) by {
      forall d | d in p.log && d < |p.ledger| && p.ledger[d].owner == c && p.ledger[d].loop == p.chains[c].loop
        ensures p.ledger[d].identity != p.ledger[open].identity
      {
        assert RowOk(p, d);
      }
    }
  }

  lemma LeaveInv(p: Pass, budget: nat, c: nat, a: Action)
    requires Inv(p) && Enabled(p, budget, c, a) && (a.Interrupt? || a.GiveUp?)
    ensures Inv(Next(p, budget, c, a))
  {
    var q := Next(p, budget, c, a);
    assert ChainOk(p, c);
    forall d | 0 <= d < |q.chains| ensures ChainOk(q, d) {
      assert ChainOk(p, d);
    }
    forall e | 0 <= e < |q.ledger| ensures RowOk(q, e) {
      assert RowOk(p, e);
    }
  }

  /** The transaction of a chain inside the mutex always commits against the version it viewed. */
  lemma NeverStale(p: Pass, c: nat)
    requires Inv(p) && c < |p.chains| && p.chains[c].phase.Viewed?
    ensures p.chains[c].phase.version == p.version
    ensures var feed := p.chains[c].feed; feed.Some? ==> Unsettled(p, c, feed.value)
  {
    assert ChainOk(p, c);
  }

  lemma RefuseInv(p: Pass, c: nat)
    requires Inv(p) && c < |p.chains| && p.chains[c].phase.Viewed?
    ensures Inv(Commit(p, c, Refuse))
  {
    var q := Commit(p, c, Refuse);
    assert ChainOk(p, c);
    forall d | 0 <= d < |q.chains| ensures ChainOk(q, d) {
      assert ChainOk(p, d);
    }
    forall e | 0 <= e < |q.ledger| ensures RowOk(q, e) {
      assert RowOk(p, e);
    }
  }

  lemma QuietInv(p: Pass, c: nat, again: bool)
    requires Inv(p) && c < |p.chains| && p.chains[c].phase.Viewed? && (again ==> p.chains[c].loop.Node?)
    ensures Inv(Commit(p, c, Quiet(again)))
  {
    var q := Commit(p, c, Quiet(again));
    NeverStale(p, c);
    assert ChainOk(p, c);
    forall d | 0 <= d < |q.chains| ensures ChainOk(q, d) {
      assert ChainOk(p, d);
    }
    forall e | 0 <= e < |q.ledger| ensures RowOk(q, e) {
      assert RowOk(p, e);
    }
  }

  /** What committing intent `id` of chain `c` changes. */
  lemma RequestEffect(p: Pass, c: nat, id: string)
    requires Inv(p) && c < |p.chains| && p.chains[c].phase.Viewed?
    ensures var q := Commit(p, c, Request(id));
            && |q.ledger| == |p.ledger| + 1 && q.log == p.log && |p.ledger| !in p.log
            && q.ledger[|p.ledger|] == Effect(c, p.chains[c].loop, id, false)
            && (forall e :: 0 <= e < |p.ledger| ==>
                  q.ledger[e] == (if p.chains[c].open == Some(e) then p.ledger[e].(settled := true) else p.ledger[e]))
            && q.chains == p.chains[c := q.chains[c]]
            && q.chains[c].open == Some(|p.ledger|)
            && (p.chains[c].open.Some? ==> p.chains[c].open.value in p.log)
  {
    NeverStale(p, c);
    assert ChainOk(p, c);
  }

  lemma RequestRow(p: Pass, c: nat, id: string, e: nat)
    requires Inv(p) && c < |p.chains| && p.chains[c].phase.Viewed? && e < |p.ledger|
    ensures RowOk(Commit(p, c, Request(id)), e)
  {
    RequestEffect(p, c, id);
    assert RowOk(p, e) && ChainOk(p, p.ledger[e].owner);
  }

  lemma RequestChain(p: Pass, c: nat, id: string, d: nat)
    requires Inv(p) && c < |p.chains| && p.chains[c].phase.Viewed? && d < |p.chains|
    ensures ChainOk(Commit(p, c, Request(id)), d)
  {
    RequestEffect(p, c, id);
    assert ChainOk(p, c) && ChainOk(p, d);
  }

  lemma RequestInv(p: Pass, c: nat, id: string)
    requires Inv(p) && c < |p.chains| && p.chains[c].phase.Viewed?
    ensures Inv(Commit(p, c, Request(id)))
  {
    var q := Commit(p, c, Request(id));
    RequestEffect(p, c, id);
    forall d | 0 <= d < |q.chains| ensures ChainOk(q, d) {
      RequestChain(p, c, id, d);
    }
    forall e | 0 <= e < |q.ledger| ensures RowOk(q, e) {
      if e < |p.ledger| {
        RequestRow(p, c, id, e);
      }
    }
  }

  lemma StepInv(p: Pass, budget: nat, c: nat, a: Action)
    requires Inv(p) && Enabled(p, budget, c, a)
    ensures Inv(Next(p, budget, c, a))
  {
    match a
    case Lock => LockInv(p, budget, c, a);
    case View(_) => LockInv(p, budget, c, a);
    case Decide(v) =>
      match v {
        case Refuse => RefuseInv(p, c);
        case Quiet(again) => QuietInv(p, c, again);
        case Request(id) => RequestInv(p, c, id);
      }
    case Execute(_) => ExecuteInv(p, budget, c, a);
    case Interrupt(_) => LeaveInv(p, budget, c, a);
    case GiveUp => LeaveInv(p, budget, c, a);
  }

  // ---------------------------------------------------------------------------
  // Whole runs
  // ---------------------------------------------------------------------------

  /** `run[i+1]` follows from `run[i]` by one action of one chain, in any interleaving. */
  ghost predicate Run(budget: nat, run: seq<Pass>) {
    && run != []
    && Start(run[0])
    && forall i :: 0 < i < |run| ==> Follows(budget, run[i-1], run[i])
  }

  ghost predicate Follows(budget: nat, p: Pass, q: Pass) {
    exists c: nat, a :: Enabled(p, budget, c, a) && q == Next(p, budget, c, a)
  }

  lemma {:induction false} RunInv(budget: nat, run: seq<Pass>, i: nat)
    requires Run(budget, run) && i < |run|
    ensures Inv(run[i]) && |run[i].chains| == |run[0].chains|
  {
    if i == 0 {
      StartInv(run[0]);
    } else {
      RunInv(budget, run, i - 1);
      assert Follows(budget, run[i-1], run[i]);
      var c: nat, a :| Enabled(run[i-1], budget, c, a) && run[i] == Next(run[i-1], budget, c, a);
      StepInv(run[i-1], budget, c, a);
    }
  }

  ghost function UnsettledOf(p: Pass, c: nat): set<nat> {
    set e: nat | e < |p.ledger| && Unsettled(p, c, e)
  }

  /** How many results a chain may owe: one, or two once it was interrupted. */
  ghost function Allowance(ch: Chain): nat {
    if ch.loop.Node? then 1 else 2
  }

  ghost function Allowances(chains: seq<Chain>): nat {
    if chains == [] then 0 else Allowances(chains[..|chains| - 1]) + Allowance(chains[|chains| - 1])
  }

  lemma UnsettledBound(p: Pass, c: nat)
    requires Inv(p) && c < |p.chains|
    ensures |UnsettledOf(p, c)| <= Allowance(p.chains[c])
    ensures p.chains[c].phase == Returned(Completed) ==> UnsettledOf(p, c) == {}
  {
    var ch := p.chains[c];
    assert ChainOk(p, c);
    var candidates := (if ch.open.Some? then {ch.open.value} else {}) + (if ch.left.Some? then {ch.left.value} else {});
    forall e | e in UnsettledOf(p, c) ensures e in candidates {
      assert RowOk(p, e);
    }
    SubsetSize(UnsettledOf(p, c), candidates);
  }

  ghost function UnsettledUpTo(p: Pass, n: nat): set<nat> {
    set e: nat | e < |p.ledger| && p.ledger[e].owner < n && !p.ledger[e].settled
  }

  lemma {:induction false} UnsettledTotal(p: Pass, n: nat)
    requires n <= |p.chains|
    requires forall c :: 0 <= c < n ==> |UnsettledOf(p, c)| <= Allowance(p.chains[c])
    ensures |UnsettledUpTo(p, n)| <= Allowances(p.chains[..n])
  {
    if n == 0 {
      assert UnsettledUpTo(p, 0) == {};
    } else {
      UnsettledTotal(p, n - 1);
      assert UnsettledUpTo(p, n) == UnsettledUpTo(p, n - 1) + UnsettledOf(p, n - 1);
      assert p.chains[..n][..n-1] == p.chains[..n-1];
    }
  }

  /**
  In every state of every interleaving: no transaction sees a stale version, no effect is
  executed before its intent is committed, twice, or twice under one identity in one loop,
  no result is committed before its execution, and the results still owed number at most
  one for each chain and two for each interrupted one.
  */
  lemma EveryInterleaving(budget: nat, run: seq<Pass>, i: nat)
    requires Run(budget, run) && i < |run|
    ensures var p := run[i];
            && (forall c :: 0 <= c < |p.chains| && p.chains[c].phase.Viewed? ==> p.chains[c].phase.version == p.version)
            && LogOk(p)
            && (forall e :: 0 <= e < |p.ledger| && p.ledger[e].settled ==> e in p.log)
            && (forall c :: 0 <= c < |p.chains| && p.chains[c].phase == Returned(Completed) ==> UnsettledOf(p, c) == {})
            && |UnsettledUpTo(p, |p.chains|)| <= Allowances(p.chains)
  {
    RunInv(budget, run, i);
    var p := run[i];
    forall e | 0 <= e < |p.ledger| && p.ledger[e].settled ensures e in p.log {
      assert RowOk(p, e);
    }
    forall c | 0 <= c < |p.chains|
      ensures |UnsettledOf(p, c)| <= Allowance(p.chains[c])
      ensures p.chains[c].phase == Returned(Completed) ==> UnsettledOf(p, c) == {}
    {
      UnsettledBound(p, c);
    }
    UnsettledTotal(p, |p.chains|);
    assert p.chains[..|p.chains|] == p.chains;
  }

  /** An effect is in the log only if an earlier state of the run already held its committed row. */
  lemma ExecutedAfterCommit(budget: nat, run: seq<Pass>, i: nat, e: nat)
    requires Run(budget, run) && 0 < i < |run|
    requires e in run[i].log && e !in run[i-1].log
    ensures e < |run[i-1].ledger| && !run[i-1].ledger[e].settled
  {
    RunInv(budget, run, i - 1);
    assert Follows(budget, run[i-1], run[i]);
    var c: nat, a :| Enabled(run[i-1], budget, c, a) && run[i] == Next(run[i-1], budget, c, a);
    assert ChainOk(run[i-1], c);
  }

  // ---------------------------------------------------------------------------
  // What decisions do, and that chains finish
  // ---------------------------------------------------------------------------

  /**
  A decision without an effect commits: the version rises, the open effect and nothing else is
  settled, the mutex is free, nothing stays open, and the loop goes on or returns.
  */
  lemma QuietEffect(p: Pass, c: nat, again: bool)
    requires Inv(p) && c < |p.chains| && p.chains[c].phase.Viewed? && (again ==> p.chains[c].loop.Node?)
    ensures
      var q, ch := Commit(p, c, Quiet(again)), p.chains[c];
      && q.version == p.version + 1 && q.mutex == None && q.log == p.log && |q.ledger| == |p.ledger|
      && (forall e :: 0 <= e < |p.ledger| ==>
          q.ledger[e] == (if ch.open == Some(e) then p.ledger[e].(settled := true) else p.ledger[e]))
      && |q.chains| == |p.chains| && (forall d :: 0 <= d < |p.chains| && d != c ==> q.chains[d] == p.chains[d])
      && q.chains[c].open == None && q.chains[c].feed == None && q.chains[c].left == ch.left
      && q.chains[c].phase == (if again then Ready else Returned(if ch.loop.Node? then Completed else Stopped))
  {
    NeverStale(p, c);
    assert ChainOk(p, c);
  }

  ghost predicate Path(budget: nat, path: seq<Pass>) {
    path != [] && forall i, j :: 0 <= i < |path| && 0 <= j < |path| && j == i + 1 ==> Follows(budget, path[i], path[j])
  }

  lemma JoinPaths(budget: nat, p: seq<Pass>, q: seq<Pass>)
    requires Path(budget, p) && Path(budget, q) && p[|p| - 1] == q[0]
    ensures Path(budget, p + q[1..]) && (p + q[1..])[0] == p[0] && (p + q[1..])[|p + q[1..]| - 1] == q[|q| - 1]
  {
    hide Follows;
    var both := p + q[1..];
    forall i, j | 0 <= i < |both| && 0 <= j < |both| && j == i + 1 ensures Follows(budget, both[i], both[j]) {
      if j >= |p| {
        assert both[j] == q[j - |p| + 1] && both[i] == q[i - |p| + 1];
      }
    }
  }

  lemma Takes(budget: nat, p: Pass, c: nat, a: Action)
    requires Enabled(p, budget, c, a)
    ensures Follows(budget, p, Next(p, budget, c, a))
  {
  }

  /** A chain of the node loop that waits for the mutex, its last result to be settled next. */
  predicate Waits(p: Pass, budget: nat, c: nat) {
    && c < |p.chains| && p.mutex == None
    && p.chains[c].phase.Ready? && p.chains[c].loop.Node? && p.chains[c].iteration < budget
    && p.chains[c].feed == p.chains[c].open
    && (p.chains[c].open.Some? ==> p.chains[c].open.value < |p.ledger| && !p.ledger[p.chains[c].open.value].settled)
  }

  /** One more effect of the chain: committed, executed, its result to be fed. */
  ghost function AfterEffect(p: Pass, c: nat, id: string): Pass
    requires c < |p.chains|
  {
    var ch, n := p.chains[c], |p.ledger|;
    p.(version := p.version + 1, ledger := Settle(p.ledger, ch.feed) + [Effect(c, Node, id, false)], log := p.log + [n],
       chains := p.chains[c := ch.(phase := Ready, feed := Some(n), executed := ch.executed + {id},
                                  iteration := ch.iteration + 1, open := Some(n))])
  }

  ghost function AfterLast(p: Pass, c: nat): Pass
    requires c < |p.chains|
  {
    var ch := p.chains[c];
    p.(version := p.version + 1, ledger := Settle(p.ledger, ch.feed),
       chains := p.chains[c := ch.(phase := Returned(Completed), feed := None, iteration := ch.iteration + 1, open := None)])
  }

  /** Mutex and view: two steps into the transaction. */
  lemma Enter(budget: nat, p: Pass, c: nat) returns (path: seq<Pass>)
    requires Waits(p, budget, c)
    ensures Path(budget, path) && path[0] == p
    ensures path[|path| - 1] == p.(mutex := Some(c), chains := p.chains[c := p.chains[c].(phase := Viewed(p.version))])
  {
    var q := Next(p, budget, c, Lock);
    var r := Next(q, budget, c, View(true));
    Takes(budget, p, c, Lock);
    Takes(budget, q, c, View(true));
    path := [p, q, r];
    assert r.chains == p.chains[c := p.chains[c].(phase := Viewed(p.version))];
  }

  lemma PerformEffect(budget: nat, p: Pass, c: nat, id: string) returns (path: seq<Pass>)
    requires Waits(p, budget, c) && id !in p.chains[c].executed
    ensures Path(budget, path) && path[0] == p && path[|path| - 1] == AfterEffect(p, c, id)
  {
    var inside := Enter(budget, p, c);
    var r := inside[|inside| - 1];
    var s := Next(r, budget, c, Decide(Request(id)));
    Takes(budget, r, c, Decide(Request(id)));
    assert s.chains[c].phase == Executing && s.chains[c].open == Some(|p.ledger|);
    var t := Next(s, budget, c, Execute(true));
    Takes(budget, s, c, Execute(true));
    assert t == AfterEffect(p, c, id) by {
      assert t.chains == AfterEffect(p, c, id).chains;
    }
    hide Follows;
    JoinPaths(budget, inside, [r, s, t]);
    path := inside + [r, s, t][1..];
  }

  lemma PerformLast(budget: nat, p: Pass, c: nat) returns (path: seq<Pass>)
    requires Waits(p, budget, c)
    ensures Path(budget, path) && path[0] == p && path[|path| - 1] == AfterLast(p, c)
  {
    var inside := Enter(budget, p, c);
    var r := inside[|inside| - 1];
    var s := Next(r, budget, c, Decide(Quiet(false)));
    Takes(budget, r, c, Decide(Quiet(false)));
    assert s == AfterLast(p, c) by {
      assert s.chains == AfterLast(p, c).chains;
    }
    hide Follows;
    JoinPaths(budget, inside, [r, s]);
    path := inside + [r, s][1..];
  }

  // ----- Every script can be carried out -----

  ghost predicate DistinctIds(script: seq<string>) {
    forall i, j :: 0 <= i < j < |script| ==> script[i] != script[j]
  }

  /** The rows of a script of chain c; `owed` says that the last result is not committed yet. */
  ghost function RowsOf(c: nat, script: seq<string>, owed: bool): seq<Effect> {
    seq(|script|, i requires 0 <= i < |script| => Effect(c, Node, script[i], !(owed && i == |script| - 1)))
  }

  ghost predicate LoggedInOrder(p: Pass) {
    |p.log| == |p.ledger| && forall i :: 0 <= i < |p.log| ==> p.log[i] == i
  }

  /** Chain c has carried out the first j effects of its script after the rows `done`. */
  ghost predicate Working(p: Pass, chains: seq<Chain>, c: nat, done: seq<Effect>, script: seq<string>, j: nat) {
    && c < |chains| && j <= |script| && p.mutex == None && LoggedInOrder(p)
    && p.ledger == done + RowsOf(c, script[..j], true)
    && p.chains == chains[c := Chain(Node, Ready, Last(p, j), Ids(script, j), j, Last(p, j), None)]
  }

  ghost function Last(p: Pass, j: nat): Option<nat> {
    if j == 0 || p.ledger == [] then None else Some(|p.ledger| - 1)
  }

  ghost function Ids(script: seq<string>, j: nat): set<string>
    requires j <= |script|
  {
    set i | 0 <= i < j :: script[i]
  }

  lemma {:induction false} CarryOut(budget: nat, p: Pass, chains: seq<Chain>, c: nat, done: seq<Effect>, script: seq<string>, j: nat)
    returns (path: seq<Pass>)
    requires Working(p, chains, c, done, script, 0) && DistinctIds(script) && |script| < budget && j <= |script|
    ensures Path(budget, path) && path[0] == p && Working(path[|path| - 1], chains, c, done, script, j)
  {
    if j == 0 {
      path := [p];
    } else {
      var front := CarryOut(budget, p, chains, c, done, script, j - 1);
      var q := front[|front| - 1];
      WorkingWaits(q, budget, chains, c, done, script, j - 1);
      var more := PerformEffect(budget, q, c, script[j - 1]);
      WorkingOn(q, chains, c, done, script, j);
      hide Path, Working, AfterEffect, Follows;
      JoinPaths(budget, front, more);
      path := front + more[1..];
    }
  }

  lemma WorkingWaits(p: Pass, budget: nat, chains: seq<Chain>, c: nat, done: seq<Effect>, script: seq<string>, j: nat)
    requires Working(p, chains, c, done, script, j) && |script| < budget && DistinctIds(script)
    ensures Waits(p, budget, c) && (j < |script| ==> script[j] !in p.chains[c].executed)
  {
    if j > 0 {
      assert p.ledger[|p.ledger| - 1] == RowsOf(c, script[..j], true)[j - 1];
    }
  }

  lemma WorkingOn(p: Pass, chains: seq<Chain>, c: nat, done: seq<Effect>, script: seq<string>, j: nat)
    requires 0 < j <= |script| && Working(p, chains, c, done, script, j - 1)
    ensures Working(AfterEffect(p, c, script[j - 1]), chains, c, done, script, j)
  {
    var q := AfterEffect(p, c, script[j - 1]);
    SettledRows(p.ledger, c, done, script, j - 1);
    var was, now := RowsOf(c, script[..j - 1], false), RowsOf(c, script[..j], true);
    assert now == was + [Effect(c, Node, script[j - 1], false)];
    assert q.ledger == done + now;
    assert Ids(script, j) == Ids(script, j - 1) + {script[j - 1]};
  }

  lemma SettledRows(ledger: seq<Effect>, c: nat, done: seq<Effect>, script: seq<string>, j: nat)
    requires j <= |script| && ledger == done + RowsOf(c, script[..j], true)
    ensures Settle(ledger, if j == 0 || ledger == [] then None else Some(|ledger| - 1)) == done + RowsOf(c, script[..j], false)
  {
    var all := done + RowsOf(c, script[..j], false);
    var feed := if j == 0 || ledger == [] then None else Some(|ledger| - 1);
    assert forall i :: 0 <= i < |all| ==> Settle(ledger, feed)[i] == all[i];
  }

  /** The rows of the first n chains, all settled. */
  ghost function AllRows(scripts: seq<seq<string>>, n: nat): seq<Effect>
    requires n <= |scripts|
  {
    if n == 0 then [] else AllRows(scripts, n - 1) + RowsOf(n - 1, scripts[n - 1], false)
  }

  /** The first n chains completed their scripts, the others have not begun. */
  ghost predicate Done(p: Pass, scripts: seq<seq<string>>, n: nat) {
    && n <= |scripts| == |p.chains| && p.mutex == None && LoggedInOrder(p)
    && p.ledger == AllRows(scripts, n)
    && (forall d :: 0 <= d < n ==> p.chains[d].phase == Returned(Completed))
    && (forall d :: n <= d < |p.chains| ==> p.chains[d] == FRESH)
  }

  lemma {:induction false} FinishChains(budget: nat, p: Pass, scripts: seq<seq<string>>, n: nat) returns (path: seq<Pass>)
    requires Done(p, scripts, 0) && n <= |scripts|
    requires forall c :: 0 <= c < |scripts| ==> DistinctIds(scripts[c]) && |scripts[c]| < budget
    ensures Path(budget, path) && path[0] == p && Done(path[|path| - 1], scripts, n)
  {
    if n == 0 {
      path := [p];
    } else {
      var front := FinishChains(budget, p, scripts, n - 1);
      var q := front[|front| - 1];
      var more := FinishOne(budget, q, scripts, n - 1);
      hide *;
      JoinPaths(budget, front, more);
      path := front + more[1..];
    }
  }

  lemma FinishOne(budget: nat, p: Pass, scripts: seq<seq<string>>, c: nat) returns (path: seq<Pass>)
    requires c < |scripts| && Done(p, scripts, c) && DistinctIds(scripts[c]) && |scripts[c]| < budget
    ensures Path(budget, path) && path[0] == p && Done(path[|path| - 1], scripts, c + 1)
  {
    var script, done := scripts[c], p.ledger;
    assert p.chains[c := Chain(Node, Ready, None, Ids(script, 0), 0, None, None)] == p.chains by {
      assert Ids(script, 0) == {} && p.chains[c] == FRESH;
    }
    assert RowsOf(c, script[..0], true) == [];
    assert Working(p, p.chains, c, done, script, 0);
    var front := CarryOut(budget, p, p.chains, c, done, script, |script|);
    var q := front[|front| - 1];
    WorkingWaits(q, budget, p.chains, c, done, script, |script|);
    var more := PerformLast(budget, q, c);
    ChainDone(p, q, scripts, c);
    hide *;
    JoinPaths(budget, front, more);
    path := front + more[1..];
  }

  lemma ChainDone(p: Pass, q: Pass, scripts: seq<seq<string>>, c: nat)
    requires c < |scripts| && Done(p, scripts, c) && Working(q, p.chains, c, p.ledger, scripts[c], |scripts[c]|)
    ensures Done(AfterLast(q, c), scripts, c + 1)
  {
    var script := scripts[c];
    SettledRows(q.ledger, c, p.ledger, script, |script|);
    assert script[..|script|] == script;
  }

  /**
  Chains finish: for any number of chains, each with any script of distinct effects shorter
  than the budget, some run from the start ends with every chain completed, every effect of
  every script committed, executed once and settled, and nothing else.
  */
  lemma EveryScriptFinishes(budget: nat, version: nat, scripts: seq<seq<string>>) returns (run: seq<Pass>)
    requires forall c :: 0 <= c < |scripts| ==> DistinctIds(scripts[c]) && |scripts[c]| < budget
    ensures Run(budget, run) && |run[0].chains| == |scripts|
    ensures
      var last := run[|run| - 1];
      && |last.chains| == |scripts| && (forall c :: 0 <= c < |scripts| ==> last.chains[c].phase == Returned(Completed))
      && last.ledger == AllRows(scripts, |scripts|) && LoggedInOrder(last)
  {
    var p := Pass(None, version, [], [], seq(|scripts|, _ => FRESH));
    run := FinishChains(budget, p, scripts, |scripts|);
    PathIsRun(budget, run);
  }

  // ----- Interruption -----

  /** One chain, its mutex free. */
  ghost function Single(version: nat, ledger: seq<Effect>, log: seq<nat>, ch: Chain): Pass {
    Pass(None, version, ledger, log, [ch])
  }

  /** The chain requests an effect, and its execution succeeds or fails. */
  lemma RequestAndRun(budget: nat, p: Pass, id: string, ok: bool) returns (path: seq<Pass>)
    requires |p.chains| == 1 && p.mutex == None && p.chains[0].phase.Ready? && p.chains[0].iteration < budget
    requires p.chains[0].feed == None && p.chains[0].open == None && id !in p.chains[0].executed
    ensures Path(budget, path) && path[0] == p
    ensures
      var ch, n := p.chains[0], |p.ledger|;
      var ran := ch.(executed := ch.executed + {id}, open := Some(n));
      path[|path| - 1] == Single(p.version + 1, p.ledger + [Effect(0, ch.loop, id, false)], p.log + [n],
                                 if ok then ran.(phase := Ready, feed := Some(n), iteration := ch.iteration + 1) else ran.(phase := Failed))
  {
    var q := Next(p, budget, 0, Lock);
    var r := Next(q, budget, 0, View(true));
    var s := Next(r, budget, 0, Decide(Request(id)));
    Takes(budget, p, 0, Lock);
    Takes(budget, q, 0, View(true));
    Takes(budget, r, 0, Decide(Request(id)));
    assert s.chains[0].phase == Executing && s.chains[0].open == Some(|p.ledger|);
    Takes(budget, s, 0, Execute(ok));
    path := [p, q, r, s, Next(s, budget, 0, Execute(ok))];
  }

  /** An execution fails, the pass is cancelled, and the settling loop begins, the effect left behind. */
  lemma CutShort(budget: nat, version: nat) returns (run: seq<Pass>)
    requires budget >= 1
    ensures Run(budget, run) && Path(budget, run)
    ensures run[|run| - 1] ==
      Single(version + 1, [Effect(0, Node, "work", false)], [0], Chain(Settling, Ready, None, {}, 0, None, Some(0)))
  {
    var p := Single(version, [], [], FRESH);
    var work := RequestAndRun(budget, p, "work", false);
    var q := work[|work| - 1];
    Takes(budget, q, 0, Interrupt(true));
    var r := Next(q, budget, 0, Interrupt(true));
    hide Follows;
    JoinPaths(budget, work, [q, r]);
    run := work + [q, r][1..];
    PathIsRun(budget, run);
  }

  lemma PathIsRun(budget: nat, path: seq<Pass>)
    requires Path(budget, path) && Start(path[0])
    ensures Run(budget, path)
  {
    hide Follows;
  }

  /** An interrupted chain settles in its own loop and stops, owing the effect that was cut short. */
  lemma InterruptedChainStops(budget: nat, version: nat) returns (run: seq<Pass>)
    requires budget >= 2
    ensures Run(budget, run)
    ensures
      var last := run[|run| - 1];
      && |last.chains| == 1 && last.chains[0].phase == Returned(Stopped)
      && last.ledger == [Effect(0, Node, "work", false), Effect(0, Settling, "stop", true)] && last.log == [0, 1]
  {
    var front := CutShort(budget, version);
    var p := front[|front| - 1];
    var stop := RequestAndRun(budget, p, "stop", true);
    var q := stop[|stop| - 1];
    var r := Next(q, budget, 0, Lock);
    var s := Next(r, budget, 0, View(true));
    var t := Next(s, budget, 0, Decide(Quiet(false)));
    Takes(budget, q, 0, Lock);
    Takes(budget, r, 0, View(true));
    Takes(budget, s, 0, Decide(Quiet(false)));
    assert q.ledger == [Effect(0, Node, "work", false), Effect(0, Settling, "stop", false)];
    assert t.ledger == [Effect(0, Node, "work", false), Effect(0, Settling, "stop", true)] && t.log == [0, 1];
    assert t.chains[0].phase == Returned(Stopped);
    hide Follows, Next, Single;
    JoinPaths(budget, front, stop);
    JoinPaths(budget, front + stop[1..], [q, r, s, t]);
    run := front + stop[1..] + [q, r, s, t][1..];
    PathIsRun(budget, run);
  }

  /** Two results owed by one interrupted chain: the bound is reached. */
  lemma TwoResultsOwed(budget: nat, version: nat) returns (run: seq<Pass>)
    requires budget >= 1
    ensures Run(budget, run) && |UnsettledOf(run[|run| - 1], 0)| == 2
  {
    var front := CutShort(budget, version);
    var p := front[|front| - 1];
    var stop := RequestAndRun(budget, p, "stop", false);
    var q := stop[|stop| - 1];
    assert q.ledger == [Effect(0, Node, "work", false), Effect(0, Settling, "stop", false)];
    assert UnsettledOf(q, 0) == {0, 1};
    hide Follows, Single;
    JoinPaths(budget, front, stop);
    run := front + stop[1..];
    PathIsRun(budget, run);
  }
}
