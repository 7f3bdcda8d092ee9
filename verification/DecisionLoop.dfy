/**
The decision/effect loop of one command: commit a decision with at most one effect intent,
execute the intent, feed its result into the next decision, until the kernel asks for no
effect. The kernel, the executor and the failures of the store are arbitrary.
*/
module DecisionLoop {
  import opened Basics

  /** A kernel answer: an error, or the next aggregate state with at most one effect intent. */
  datatype Verdict<S, I> = Refuse | Decision(next: S, effect: Option<I>)

  /** One row of the effects table; its identifier is its position. */
  datatype Row<I> = Row(intent: I, settled: bool)

  /** One committed decision: the state and input it was made from, and what it was. */
  datatype Turn<S, N, I> = Turn(state: S, input: N, verdict: Verdict<S, I>)

  /** The command chains that request effects of their own (the `cmd` switch of the budget). */
  datatype CommandChain = TwoEffects | ThreeEffects | NoChain {
    function Length(): nat {
      match this case TwoEffects => 2 case ThreeEffects => 3 case NoChain => 0
    }
  }

  datatype ApplyStatus = Staging | AwaitingConfirmation | ApplyRunning | ApplyEnded

  /** The entities of the aggregate that may request effects: running or not, terminal or not. */
  datatype Entities = Entities(
    processRunning: seq<bool>,
    attemptRunning: seq<bool>,
    applies: seq<ApplyStatus>,
    cleanupItemTerminal: seq<seq<bool>>,
    sessionTerminal: seq<bool>)

  function Count<T>(s: seq<T>, p: T -> bool): nat {
    if s == [] then 0 else Count(s[..|s| - 1], p) + (if p(s[|s| - 1]) then 1 else 0)
  }

  function CountItems(s: seq<seq<bool>>): nat {
    if s == [] then 0 else CountItems(s[..|s| - 1]) + Count(s[|s| - 1], Open)
  }

  predicate Open(terminal: bool) {
    !terminal
  }

  predicate Running(running: bool) {
    running
  }

  predicate InFlightApply(a: ApplyStatus) {
    !a.ApplyEnded?
  }

  /** Effects the aggregate justifies: one per entity at work, the command's chain, a chain per open session, the pending ones. */
  function Justified(st: Entities, pending: nat, chain: CommandChain): nat {
    Count(st.processRunning, Running) + Count(st.attemptRunning, Running)
    + Count(st.applies, InFlightApply) + CountItems(st.cleanupItemTerminal)
    + chain.Length() + 2 * Count(st.sessionTerminal, Open) + pending
  }

  /** Each entity at work justifies one more effect, an open session two, any other entity none. */
  lemma JustifiedGrows(st: Entities, pending: nat, chain: CommandChain, on: bool, apply: ApplyStatus)
    ensures
      var n := Justified(st, pending, chain);
      && Justified(st.(processRunning := st.processRunning + [on]), pending, chain) == n + (if on then 1 else 0)
      && Justified(st.(attemptRunning := st.attemptRunning + [on]), pending, chain) == n + (if on then 1 else 0)
      && Justified(st.(applies := st.applies + [apply]), pending, chain)
         == n + (if apply in {Staging, AwaitingConfirmation, ApplyRunning} then 1 else 0)
      && Justified(st.(cleanupItemTerminal := st.cleanupItemTerminal + [[on]]), pending, chain) == n + (if on then 0 else 1)
      && Justified(st.(sessionTerminal := st.sessionTerminal + [on]), pending, chain) == n + (if on then 0 else 2)
      && Justified(st, pending + 1, chain) == n + 1
    ensures Justified(Entities([], [], [], [], []), 0, chain) == (match chain case NoChain => 0 case TwoEffects => 2 case ThreeEffects => 3)
  {
    CountMore(st.processRunning, on, Running);
    CountMore(st.attemptRunning, on, Running);
    CountMore(st.applies, apply, InFlightApply);
    OneMoreItem(st.cleanupItemTerminal, on);
    CountMore(st.sessionTerminal, on, Open);
    NothingCounts();
    hide Count, CountItems;
  }

  lemma NothingCounts()
    ensures Count([], Running) == 0 && Count([], InFlightApply) == 0 && Count([], Open) == 0 && CountItems([]) == 0
  {
  }

  lemma CountMore<T>(s: seq<T>, x: T, p: T -> bool)
    ensures Count(s + [x], p) == Count(s, p) + (if p(x) then 1 else 0)
  {
    assert (s + [x])[..|s|] == s;
  }

  lemma OneMoreItem(items: seq<seq<bool>>, on: bool)
    ensures CountItems(items + [[on]]) == CountItems(items) + (if on then 0 else 1)
  {
    assert Count([on][..0], Open) == 0 && [on][..1] == [on];
    CountNext([on], 0, Open);
    assert (items + [[on]])[..|items|] == items;
  }

  lemma CountNext<T>(s: seq<T>, i: nat, p: T -> bool)
    requires i < |s|
    ensures Count(s[..i + 1], p) == Count(s[..i], p) + (if p(s[i]) then 1 else 0)
  {
    assert s[..i + 1][..i] == s[..i];
  }

  method CountIn<T>(s: seq<T>, p: T -> bool) returns (n: nat)
    ensures n == Count(s, p)
  {
    n := 0;
    for i := 0 to |s|
      invariant n == Count(s[..i], p)
    {
      CountNext(s, i, p);
      if p(s[i]) {
        n := n + 1;
      }
    }
    assert s[..|s|] == s;
  }

  /** Every justified effect, the first decision and the final one fit the budget, and nothing more does. */
  method EffectBudget(st: Entities, pending: nat, chain: CommandChain) returns (budget: nat)
    ensures budget == Justified(st, pending, chain) + 2
  {
    var processes := CountIn(st.processRunning, Running);
    var attempts := CountIn(st.attemptRunning, Running);
    var applies := CountIn(st.applies, InFlightApply);
    var items := 0;
    for i := 0 to |st.cleanupItemTerminal|
      invariant items == CountItems(st.cleanupItemTerminal[..i])
    {
      assert st.cleanupItemTerminal[..i + 1][..i] == st.cleanupItemTerminal[..i];
      var open := CountIn(st.cleanupItemTerminal[i], Open);
      items := items + open;
    }
    assert st.cleanupItemTerminal[..|st.cleanupItemTerminal|] == st.cleanupItemTerminal;
    var sessions := CountIn(st.sessionTerminal, Open);
    budget := 1 + processes + attempts + applies + items + chain.Length() + 2 * sessions + pending + 1;
  }

  class AggregateStore<S, I> {
    var version: nat
    var state: S
    var ledger: seq<Row<I>>

    constructor (version: nat, state: S, ledger: seq<Row<I>>)
      ensures this.version == version && this.state == state && this.ledger == ledger
    {
      this.version, this.state, this.ledger := version, state, ledger;
    }

    /**
    One compare-and-swap transaction. With `feed`, the result of that effect is settled in
    the same transaction, and the effect must still be pending.
    */
    method Transact<N>(expected: nat, feed: Option<nat>, input: N, decide: (S, N) -> Verdict<S, I>, broken: bool)
      returns (committed: Option<Verdict<S, I>>)
      modifies this
      ensures committed.None? ==> version == old(version) && state == old(state) && ledger == old(ledger)
      ensures committed.None? <==>
                broken || expected != old(version) || old(decide(state, input)).Refuse?
                || (feed.Some? && (feed.value >= |old(ledger)| || old(ledger)[feed.value].settled))
      ensures committed.Some? ==>
                && committed.value == decide(old(state), input) && committed.value.Decision?
                && version == expected + 1
                && state == committed.value.next
                && |ledger| == |old(ledger)| + (if committed.value.effect.Some? then 1 else 0)
                && (forall e :: 0 <= e < |old(ledger)| ==>
                      ledger[e] == (if feed == Some(e) then old(ledger)[e].(settled := true) else old(ledger)[e]))
                && (committed.value.effect.Some? ==>
                      ledger[|old(ledger)|] == Row(committed.value.effect.value, false))
    {
      if broken || version != expected {
        return None;
      }
      var verdict := decide(state, input);
      if verdict.Refuse? {
        return None;
      }
      if feed.Some? && (feed.value >= |ledger| || ledger[feed.value].settled) {
        return None;
      }
      state := verdict.next;
      if feed.Some? {
        ledger := ledger[feed.value := ledger[feed.value].(settled := true)];
      }
      if verdict.effect.Some? {
        ledger := ledger + [Row(verdict.effect.value, false)];
      }
      version := version + 1;
      return Some(verdict);
    }
  }

  /** Turn `b` continues turn `a`: its input is what executing `a`'s effect returned. */
  ghost predicate Linked<S, N, I>(exec: (nat, I) -> Option<N>, i: nat, a: Turn<S, N, I>, b: Turn<S, N, I>) {
    && a.verdict.Decision?
    && a.verdict.effect.Some?
    && b.state == a.verdict.next
    && exec(i, a.verdict.effect.value) == Some(b.input)
  }

  /**
  The turns of one loop: the first decision is made from the initial state and the command
  input, each later one from the previous decision's state and from the validated result of
  the previous decision's effect.
  */
  ghost predicate Alternates<S, N, I>(
      decide: (S, N) -> Verdict<S, I>, exec: (nat, I) -> Option<N>, state: S, input: N, turns: seq<Turn<S, N, I>>)
  {
    && (forall i :: 0 <= i < |turns| ==>
          turns[i].verdict == decide(turns[i].state, turns[i].input) && turns[i].verdict.Decision?)
    && (turns != [] ==> turns[0].state == state && turns[0].input == input)
    && (forall i :: 0 <= i < |turns| - 1 ==> Linked(exec, i, turns[i], turns[i+1]))
  }

  /** The intents the turns committed, in order; all but the last turn carry one. */
  ghost predicate Records<S, N, I>(turns: seq<Turn<S, N, I>>, rows: seq<Row<I>>) {
    && (|rows| == |turns| || |rows| + 1 == |turns|)
    && (forall i :: 0 <= i < |rows| ==> turns[i].verdict.Decision? && turns[i].verdict.effect == Some(rows[i].intent))
    && (|rows| < |turns| ==> turns[|rows|].verdict.Decision? && turns[|rows|].verdict.effect.None?)
  }

  /** No two of the first `n` recorded intents share an identity. */
  ghost predicate NoRepeat<I>(rows: seq<Row<I>>, n: nat) {
    forall i, j :: 0 <= i < j < n && j < |rows| ==> rows[i].intent != rows[j].intent
  }

  /** All recorded results are committed, except possibly that of the last intent. */
  ghost predicate OweAtMostLast<I>(rows: seq<Row<I>>) {
    forall i :: 0 <= i < |rows| - 1 ==> rows[i].settled
  }

  ghost function SettleLast<I>(rows: seq<Row<I>>): seq<Row<I>> {
    if rows == [] then [] else rows[|rows| - 1 := rows[|rows| - 1].(settled := true)]
  }

  /** Between two iterations: every turn asked for an effect, and only the last result is still owed. */
  ghost predicate InFlight<S, N, I>(
      decide: (S, N) -> Verdict<S, I>, exec: (nat, I) -> Option<N>, start: S, input: N,
      turns: seq<Turn<S, N, I>>, rows: seq<Row<I>>, state: S, current: N)
  {
    && Alternates(decide, exec, start, input, turns)
    && |rows| == |turns| && Records(turns, rows)
    && NoRepeat(rows, |rows|)
    && OweAtMostLast(rows)
    && if turns == [] then state == start && current == input
       else
         var last := turns[|turns| - 1].verdict;
         && last.Decision? && last.effect.Some? && state == last.next
         && exec(|turns| - 1, last.effect.value) == Some(current)
         && !rows[|rows| - 1].settled
  }

  /** A fresh intent whose execution returned `next` keeps the loop going. */
  lemma FeedResult<S, N, I>(
      decide: (S, N) -> Verdict<S, I>, exec: (nat, I) -> Option<N>, start: S, input: N,
      turns: seq<Turn<S, N, I>>, rows: seq<Row<I>>, next: N)
    requires turns != [] && |rows| == |turns| && !rows[|rows| - 1].settled
    requires Finished(decide, exec, start, input, turns, rows, |rows|, false)
    requires exec(|turns| - 1, rows[|rows| - 1].intent) == Some(next)
    ensures InFlight(decide, exec, start, input, turns, rows, turns[|turns| - 1].verdict.next, next)
  {
    assert turns[|turns| - 1].verdict.effect == Some(rows[|rows| - 1].intent);
  }

  /** Everything one loop guarantees when it returns. */
  ghost predicate Finished<S, N, I>(
      decide: (S, N) -> Verdict<S, I>, exec: (nat, I) -> Option<N>, start: S, input: N,
      turns: seq<Turn<S, N, I>>, rows: seq<Row<I>>, executed: nat, ok: bool)
  {
    && Alternates(decide, exec, start, input, turns)
    && Records(turns, rows)
    && NoRepeat(rows, executed)
    && executed <= |rows| <= executed + 1
    && OweAtMostLast(rows)
    && (ok <==> turns != [] && turns[|turns| - 1].verdict.Decision? && turns[|turns| - 1].verdict.effect.None?)
    && (ok ==> executed == |rows| && forall i :: 0 <= i < |rows| ==> rows[i].settled)
  }

  ghost function FinalState<S, N, I>(start: S, turns: seq<Turn<S, N, I>>): S {
    if turns != [] && turns[|turns| - 1].verdict.Decision? then turns[|turns| - 1].verdict.next else start
  }

  lemma Abandon<S, N, I>(
      decide: (S, N) -> Verdict<S, I>, exec: (nat, I) -> Option<N>, start: S, input: N,
      turns: seq<Turn<S, N, I>>, rows: seq<Row<I>>, state: S, current: N)
    requires InFlight(decide, exec, start, input, turns, rows, state, current)
    ensures Finished(decide, exec, start, input, turns, rows, |rows|, false)
    ensures state == FinalState(start, turns)
  {
  }

  /** One more committed decision settles the owed result and keeps the record straight. */
  lemma CommitTurn<S, N, I>(
      decide: (S, N) -> Verdict<S, I>, exec: (nat, I) -> Option<N>, start: S, input: N,
      turns: seq<Turn<S, N, I>>, rows: seq<Row<I>>, state: S, current: N, verdict: Verdict<S, I>)
    requires InFlight(decide, exec, start, input, turns, rows, state, current)
    requires verdict == decide(state, current) && verdict.Decision?
    ensures var turns' := turns + [Turn(state, current, verdict)];
            var rows' := SettleLast(rows) + (if verdict.effect.Some? then [Row(verdict.effect.value, false)] else []);
            && Finished(decide, exec, start, input, turns', rows', |rows|, verdict.effect.None?)
            && (verdict.effect.Some? && (forall i :: 0 <= i < |rows| ==> rows[i].intent != verdict.effect.value)
                ==> Finished(decide, exec, start, input, turns', rows', |rows'|, false))
  {
    var turns' := turns + [Turn(state, current, verdict)];
    forall i | 0 <= i < |turns'| - 1 ensures Linked(exec, i, turns'[i], turns'[i+1]) {
      assert i + 1 < |turns| ==> Linked(exec, i, turns[i], turns[i+1]);
    }
  }

  /**
  Why a loop may fail: an intent repeats an identity, an execution returns nothing usable, the
  budget is spent, the store breaks, or the kernel refuses the next decision.
  */
  ghost predicate Excused<S, N, I>(
      decide: (S, N) -> Verdict<S, I>, exec: (nat, I) -> Option<N>, broken: nat -> bool, start: S, input: N,
      turns: seq<Turn<S, N, I>>, rows: seq<Row<I>>, executed: nat, budget: nat)
  {
    var n := |turns|;
    || (executed < |rows| && exists i :: 0 <= i < |rows| - 1 && rows[i].intent == rows[|rows| - 1].intent)
    || n == budget
    || broken(n)
    || (n == 0 && decide(start, input).Refuse?)
    || (0 < n == |rows| && var result := exec(n - 1, rows[n - 1].intent);
        result.None? || decide(FinalState(start, turns), result.value).Refuse?)
  }

  lemma Excuse<S, N, I>(
      decide: (S, N) -> Verdict<S, I>, exec: (nat, I) -> Option<N>, broken: nat -> bool, start: S, input: N,
      turns: seq<Turn<S, N, I>>, rows: seq<Row<I>>, executed: nat, budget: nat)
    requires
      var n := |turns|;
      || (executed < |rows| && exists i :: 0 <= i < |rows| - 1 && rows[i].intent == rows[|rows| - 1].intent)
      || n == budget
      || broken(n)
      || (n == 0 && decide(start, input).Refuse?)
      || (0 < n == |rows| && var result := exec(n - 1, rows[n - 1].intent);
          result.None? || decide(FinalState(start, turns), result.value).Refuse?)
    ensures Excused(decide, exec, broken, start, input, turns, rows, executed, budget)
  {
  }

  lemma StartsInFlight<S, N, I>(decide: (S, N) -> Verdict<S, I>, exec: (nat, I) -> Option<N>, start: S, input: N)
    ensures InFlight(decide, exec, start, input, [], [], start, input)
    ensures FinalState<S, N, I>(start, []) == start
  {
  }

  /** Commits the next decision of a loop in flight, settling the result it is fed. */
  method CommitNext<S, N, I>(
      store: AggregateStore<S, I>, decide: (S, N) -> Verdict<S, I>, exec: (nat, I) -> Option<N>, broken: bool,
      current: N, base: nat, pending: Option<nat>, version: nat,
      ghost start: S, ghost input: N, ghost turns: seq<Turn<S, N, I>>, ghost rows: seq<Row<I>>)
    returns (committed: Option<Verdict<S, I>>, ghost turns': seq<Turn<S, N, I>>, ghost rows': seq<Row<I>>)
    requires base <= |store.ledger| && store.ledger[base..] == rows && version == store.version
    requires InFlight(decide, exec, start, input, turns, rows, store.state, current)
    requires pending == (if rows == [] then None else Some(|store.ledger| - 1))
    modifies store
    ensures |store.ledger| == base + |rows'| && store.ledger[..base] == old(store.ledger[..base]) && store.ledger[base..] == rows'
    ensures store.version == version + (if committed.Some? then 1 else 0)
    ensures |turns'| == |turns| + (if committed.Some? then 1 else 0)
    ensures store.state == FinalState(start, turns')
    ensures committed.None? ==> Finished(decide, exec, start, input, turns', rows', |rows|, false)
    ensures committed.None? ==> turns' == turns && rows' == rows && (broken || decide(store.state, current).Refuse?)
    ensures committed.Some? ==>
              && committed.value.Decision?
              && Finished(decide, exec, start, input, turns', rows', |rows|, committed.value.effect.None?)
    ensures committed.Some? && committed.value.effect.Some? ==>
              && |rows'| == |rows| + 1
              && rows'[|rows|] == Row(committed.value.effect.value, false)
              && (forall i :: 0 <= i < |rows| ==> rows'[i].intent == rows[i].intent)
              && ((forall i :: 0 <= i < |rows| ==> rows[i].intent != committed.value.effect.value)
                  ==> Finished(decide, exec, start, input, turns', rows', |rows'|, false))
  {
    hide Alternates, Records, NoRepeat, OweAtMostLast, Finished;
    committed := store.Transact(version, pending, current, decide, broken);
    turns', rows' := turns, rows;
    if committed.Some? {
      var verdict := committed.value;
      CommitTurn(decide, exec, start, input, turns, rows, old(store.state), current, verdict);
      turns' := turns + [Turn(old(store.state), current, verdict)];
      rows' := SettleLast(rows) + (if verdict.effect.Some? then [Row(verdict.effect.value, false)] else []);
      var tail := store.ledger[base..];
      assert |tail| == |rows'|;
      assert forall i :: 0 <= i < |tail| ==> tail[i] == rows'[i];
    } else {
      Abandon(decide, exec, start, input, turns, rows, store.state, current);
    }
  }

  /**
  `executed` counts the intents handed to the executor: exactly the first ones recorded,
  each once and in commit order.
  */
  method RunDecisionLoop<S, N, I(==)>(
      store: AggregateStore<S, I>, decide: (S, N) -> Verdict<S, I>, exec: (nat, I) -> Option<N>,
      broken: nat -> bool, input: N, budget: nat)
    returns (complete: bool, executed: nat, ghost turns: seq<Turn<S, N, I>>)
    modifies store
    ensures |turns| <= budget && store.version == old(store.version) + |turns|
    ensures store.state == FinalState(old(store.state), turns)
    ensures |old(store.ledger)| <= |store.ledger| && store.ledger[..|old(store.ledger)|] == old(store.ledger)
    ensures Finished(decide, exec, old(store.state), input, turns, store.ledger[|old(store.ledger)|..], executed, complete)
    ensures !complete ==>
      Excused(decide, exec, broken, old(store.state), input, turns, store.ledger[|old(store.ledger)|..], executed, budget)
  {
    hide InFlight, Finished, Excused;
    var base := |store.ledger|;
    ghost var start := store.state;
    ghost var rows: seq<Row<I>> := [];
    StartsInFlight<S, N, I>(decide, exec, start, input);
    var version := store.version;
    var seen: set<I> := {};
    var pending: Option<nat> := None;
    var current := input;
    complete, executed, turns := false, 0, [];
    var iter := 0;
    while iter < budget
      invariant 0 <= iter <= budget && |turns| == iter == executed
      invariant version == store.version == old(store.version) + iter
      invariant |store.ledger| == base + iter && store.ledger[..base] == old(store.ledger) && store.ledger[base..] == rows
      invariant InFlight(decide, exec, start, input, turns, rows, store.state, current)
      invariant pending == (if rows == [] then None else Some(|store.ledger| - 1))
      invariant forall i :: 0 <= i < |rows| ==> rows[i].intent in seen
      invariant forall x <- seen :: exists i :: 0 <= i < |rows| && rows[i].intent == x
      invariant iter == 0 ==> current == input && store.state == start
      invariant iter > 0 ==> exec(iter - 1, rows[iter - 1].intent) == Some(current)
    {
      ghost var rows0 := rows;
      var committed;
      committed, turns, rows := CommitNext(
        store, decide, exec, broken(iter), current, base, pending, version, start, input, turns, rows);
      if committed.None? {
        Excuse(decide, exec, broken, start, input, turns, rows, executed, budget);
        return;
      }
      version := version + 1;
      if committed.value.effect.None? {
        complete := true;
        return;
      }
      var intent := committed.value.effect.value;
      if intent in seen {
        Excuse(decide, exec, broken, start, input, turns, rows, executed, budget);
        return;
      }
      seen := seen + {intent};
      executed := executed + 1;
      var result := exec(iter, intent);
      if result.None? {
        Excuse(decide, exec, broken, start, input, turns, rows, executed, budget);
        return;
      }
      FeedResult(decide, exec, start, input, turns, rows, result.value);
      pending := Some(base + iter);
      current := result.value;
      iter := iter + 1;
    }
    Abandon(decide, exec, start, input, turns, rows, store.state, current);
    Excuse(decide, exec, broken, start, input, turns, rows, executed, budget);
  }

  /**
  A whole command: a first view of the aggregate fixes the budget, the loop runs, and a last
  view makes the outcome. It reports success exactly when both views succeed and the kernel
  was satisfied; a failing last view reports an error although everything is committed. The
  budget is what runs out only when the kernel asked for more effects than are justified.
  */
  method RunCommand<S, N, I(==)>(
      store: AggregateStore<S, I>, decide: (S, N) -> Verdict<S, I>, exec: (nat, I) -> Option<N>,
      broken: nat -> bool, input: N, st: Entities, pending: nat, chain: CommandChain, firstView: bool, lastView: bool)
    returns (ok: bool, complete: bool, executed: nat, ghost turns: seq<Turn<S, N, I>>)
    modifies store
    ensures ok <==> complete && lastView
    ensures !firstView ==> !complete && turns == [] && store.ledger == old(store.ledger) && store.version == old(store.version)
    ensures |turns| <= Justified(st, pending, chain) + 2 && store.version == old(store.version) + |turns|
    ensures |old(store.ledger)| <= |store.ledger| && store.ledger[..|old(store.ledger)|] == old(store.ledger)
    ensures firstView ==>
      && store.state == FinalState(old(store.state), turns)
      && Finished(decide, exec, old(store.state), input, turns, store.ledger[|old(store.ledger)|..], executed, complete)
    ensures firstView && !complete ==>
      || Excused(decide, exec, broken, old(store.state), input, turns, store.ledger[|old(store.ledger)|..], executed, |turns| + 1)
      || |store.ledger| - |old(store.ledger)| == Justified(st, pending, chain) + 2
  {
    if !firstView {
      return false, false, 0, [];
    }
    var budget := EffectBudget(st, pending, chain);
    complete, executed, turns := RunDecisionLoop(store, decide, exec, broken, input, budget);
    ghost var rows := store.ledger[|old(store.ledger)|..];
    if !complete && |turns| == budget {
      assert |rows| == |turns|;
    }
    ok := complete && lastView;
  }
}
