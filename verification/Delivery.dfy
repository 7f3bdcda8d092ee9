/**
The protected delivery: the user's working tree is fast-forwarded from the recorded target
head to the reviewed staging head. Anyone may move refs, switch branches or dirty the tree
between any two steps, and the process may stop at any step and retry.
*/
module Delivery {
  import opened Basics

  type Commit = string

  /** The shared repository: branch heads, and what the user's working tree is attached to. */
  datatype Git = Git(refs: map<string, Commit>, attached: string, detached: Commit, clean: bool)

  function RefOf(g: Git, branch: string): Commit {
    if branch in g.refs then g.refs[branch] else ""
  }

  /** Where the working tree is; a branch without commits has no head. */
  function Head(g: Git): Commit {
    if g.attached == "" then g.detached else RefOf(g, g.attached)
  }

  function Advance(g: Git, to: Commit): Git {
    if g.attached == "" then g.(detached := to) else g.(refs := g.refs[g.attached := to])
  }

  /** Branch names of one attempt and the heads it recorded; an empty staging head was never recorded. */
  datatype Attempt = Attempt(
    target: string,
    staging: string,
    integration: string,
    targetHead: Commit,
    stagingHead: Commit,
    integrationHead: Commit)

  /** `last` is the last step the process lives to take. */
  datatype Host = Host(evidenceHolds: bool, refuses: bool, last: nat)

  datatype Outcome = Succeeded(head: Commit) | Blocked | Unsettled

  /** A branch head the delivery itself moved. */
  datatype Update = Update(branch: string, from: Commit, to: Commit)

  /** Git's answer whether one commit is an ancestor of another. */
  type Ancestry = (Commit, Commit) -> bool

  /** Other people's changes: `env` before the final check, `hold` from the check to the last look. */
  datatype World = World(
    ancestor: Ancestry,
    env: (nat, Git) -> Git,
    hold: (nat, Git) -> Git)

  /** What the n-th step of a call sees, as long as the call itself changed nothing. */
  function Seen(w: World, clock: nat, g: Git, n: nat): Git {
    if n == 0 then g
    else if n <= 5 then w.env(clock + n - 1, Seen(w, clock, g, n - 1))
    else w.hold(clock + n - 1, Seen(w, clock, g, n - 1))
  }

  /** The state is one a call saw, changed by others only. */
  ghost predicate Glimpsed(w: World, c: nat, g: Git, now: Git) {
    exists n: nat | n <= 8 :: now == Seen(w, c, g, n)
  }

  lemma EveryGlimpse(w: World, c: nat, g: Git)
    ensures forall n: nat :: n <= 8 ==> Glimpsed(w, c, g, Seen(w, c, g, n))
  {
  }

  // ----- What a call checks, step by step -----

  predicate StagingMatches(att: Attempt, g: Git) {
    RefOf(g, att.staging) != "" && (att.stagingHead != "" ==> RefOf(g, att.staging) == att.stagingHead)
  }

  predicate Attached(att: Attempt, g: Git) {
    g.clean && g.attached == att.target && Head(g) == att.targetHead
  }

  /** The target was found at the staging head: an earlier call delivered it. */
  ghost predicate Recovers(w: World, c: nat, g: Git, att: Attempt, h: Host) {
    && h.last >= 2
    && StagingMatches(att, Seen(w, c, g, 1))
    && RefOf(Seen(w, c, g, 2), att.target) == RefOf(Seen(w, c, g, 1), att.staging)
  }

  /** The rechecks before the final one passed. */
  ghost predicate Rechecked(w: World, c: nat, g: Git, att: Attempt, h: Host) {
    && h.last >= 4 && h.evidenceHolds
    && StagingMatches(att, Seen(w, c, g, 1))
    && RefOf(Seen(w, c, g, 2), att.target) == att.targetHead != RefOf(Seen(w, c, g, 1), att.staging) && att.targetHead != ""
    && Attached(att, Seen(w, c, g, 3))
    && RefOf(Seen(w, c, g, 4), att.integration) == att.integrationHead != ""
  }

  /** The final check passed on the two states it looked at, and the merge command ran. */
  predicate Ready(w: World, att: Attempt, staged: Commit, h: Host, five: Git, six: Git) {
    && h.last >= 7 && !h.refuses && att.target != "" && att.targetHead != ""
    && five.clean && Head(five) == att.targetHead && six.attached == att.target
    && w.ancestor(att.targetHead, staged)
  }

  ghost predicate Proceeds(w: World, c: nat, g: Git, att: Attempt, h: Host) {
    && Rechecked(w, c, g, att, h)
    && Ready(w, att, RefOf(Seen(w, c, g, 1), att.staging), h, Seen(w, c, g, 5), Seen(w, c, g, 6))
  }

  /** `git merge --ff-only`: nothing to do, a fast-forward, or refused. */
  predicate UpToDate(anc: Ancestry, g: Git, to: Commit) {
    anc(to, Head(g))
  }

  predicate Forwards(anc: Ancestry, g: Git, to: Commit) {
    !UpToDate(anc, g, to) && anc(Head(g), to)
  }

  function Merged(anc: Ancestry, g: Git, to: Commit): Git {
    if Forwards(anc, g, to) then Advance(g, to) else g
  }

  /** The target was at the reviewed head and is no longer. */
  predicate TakenOff(att: Attempt, before: Git, after: Git) {
    RefOf(before, att.target) == att.stagingHead != RefOf(after, att.target)
  }

  /** The merge command ran and was not refused. */
  ghost predicate Ran(w: World, c: nat, g: Git, att: Attempt, h: Host) {
    var staged, at := RefOf(Seen(w, c, g, 1), att.staging), Seen(w, c, g, 7);
    Proceeds(w, c, g, att, h) && (UpToDate(w.ancestor, at, staged) || Forwards(w.ancestor, at, staged))
  }

  /** The update a call makes, when it makes one. */
  function UpdateOf(w: World, c: nat, g: Git, att: Attempt): Update {
    var at := Seen(w, c, g, 7);
    Update(at.attached, Head(at), RefOf(Seen(w, c, g, 1), att.staging))
  }

  ghost predicate Updates(w: World, c: nat, g: Git, att: Attempt, h: Host) {
    Ran(w, c, g, att, h) && Forwards(w.ancestor, Seen(w, c, g, 7), RefOf(Seen(w, c, g, 1), att.staging))
  }

  /** The call updates nothing, or the target from its recorded head to the reviewed one. */
  ghost predicate RecordedCall(w: World, c: nat, g: Git, att: Attempt, h: Host) {
    Updates(w, c, g, att, h) ==> UpdateOf(w, c, g, att) == Update(att.target, att.targetHead, att.stagingHead)
  }

  class Delivery {
    const w: World
    var git: Git
    var clock: nat
    ghost var updates: seq<Update>
    ghost var undone: nat

    /** Updates outnumber the times others took the target off the reviewed head by at most one. */
    ghost predicate Bounded(att: Attempt)
      reads this
    {
      |updates| <= undone + (if RefOf(git, att.target) == att.stagingHead then 1 else 0)
    }

    constructor (w: World, git: Git)
      ensures this.w == w && this.git == git && clock == 0 && updates == [] && undone == 0
    {
      this.w, this.git, clock, updates, undone := w, git, 0, [], 0;
    }

    method Look(ghost att: Attempt)
      modifies this
      ensures git == w.env(old(clock), old(git)) && clock == old(clock) + 1 && updates == old(updates)
      ensures undone == old(undone) + (if TakenOff(att, old(git), git) then 1 else 0)
    {
      undone := undone + (if TakenOff(att, git, w.env(clock, git)) then 1 else 0);
      git := w.env(clock, git);
      clock := clock + 1;
    }

    method LookAgain(ghost att: Attempt)
      modifies this
      ensures git == w.hold(old(clock), old(git)) && clock == old(clock) + 1 && updates == old(updates)
      ensures undone == old(undone) + (if TakenOff(att, old(git), git) then 1 else 0)
    {
      undone := undone + (if TakenOff(att, git, w.hold(clock, git)) then 1 else 0);
      git := w.hold(clock, git);
      clock := clock + 1;
    }

    /**
    One delivery call. It makes at most one update, the merge of the staged commit into
    whatever the working tree is on at that moment.
    */
    method ApplyFastForward(att: Attempt, h: Host) returns (out: Outcome)
      modifies this
      ensures
        var c, g := old(clock), old(git);
        var staged, at := RefOf(Seen(w, c, g, 1), att.staging), Seen(w, c, g, 7);
        && updates == old(updates) + (if Ran(w, c, g, att, h) && Forwards(w.ancestor, at, staged) then [Update(at.attached, Head(at), staged)] else [])
        && (out.Succeeded? <==>
            Recovers(w, c, g, att, h) || (Ran(w, c, g, att, h) && h.last >= 8 && Head(git) == staged && git.clean))
        && (out.Succeeded? ==> out.head == staged)
        && (out.Blocked? ==> updates == old(updates))
        && (Recovers(w, c, g, att, h) ==> git == Seen(w, c, g, 2))
        && (updates == old(updates) ==> Glimpsed(w, c, g, git))
        && (Ran(w, c, g, att, h) ==>
            git == if h.last >= 8 then w.hold(c + 7, Merged(w.ancestor, at, staged)) else Merged(w.ancestor, at, staged))
      ensures Steady(w, att.target) ==> undone == old(undone)
      ensures att.stagingHead != "" && old(Bounded(att)) && RecordedCall(w, old(clock), old(git), att, h) ==> Bounded(att)
    {
      hide Glimpsed, Recovers, Rechecked, Ready, UpToDate, Forwards, Advance, Steady, Bounded;
      ghost var c, g := clock, git;
      EveryGlimpse(w, c, g);
      var checked, staged := Recheck(att, h);
      if checked.Some? {
        return checked.value;
      }
      ghost var five, six, at, last := Seen(w, c, g, 5), Seen(w, c, g, 6), Seen(w, c, g, 7), Seen(w, c, g, 8);
      assert five == w.env(c + 4, git) && six == w.hold(c + 5, five) && at == w.hold(c + 6, six) && last == w.hold(c + 7, at);
      out := FastForwardWorkingTree(att, staged, h);
    }

    /** The observations and gates before the final one: an outcome, or none where all passed. */
    method Recheck(att: Attempt, h: Host) returns (done: Option<Outcome>, stagedHead: Commit)
      modifies this
      ensures updates == old(updates) && (old(Bounded(att)) ==> Bounded(att))
      ensures Steady(w, att.target) ==> undone == old(undone)
      ensures
        var c, g := old(clock), old(git);
        var staged := RefOf(Seen(w, c, g, 1), att.staging);
        && (done.None? <==> Rechecked(w, c, g, att, h))
        && (done.None? ==> git == Seen(w, c, g, 4) && clock == c + 4 && stagedHead == staged && !Recovers(w, c, g, att, h))
        && (done.Some? ==> Glimpsed(w, c, g, git) && (done.value.Succeeded? <==> Recovers(w, c, g, att, h)))
        && (done.Some? && done.value.Succeeded? ==> done.value.head == staged && git == Seen(w, c, g, 2))
        && (h.last >= 4 ==> done != Some(Unsettled))
        && (done.None? ==> att.targetHead != stagedHead && (att.stagingHead != "" ==> stagedHead == att.stagingHead))
    {
      hide Glimpsed;
      ghost var c, g := clock, git;
      var staged := "";
      assert git == Seen(w, c, g, 0);
      EveryGlimpse(w, c, g);
      if h.last < 1 {
        return Some(Unsettled), staged;
      }
      Look(att);
      assert git == Seen(w, c, g, 1);
      if !StagingMatches(att, git) {
        return Some(Blocked), staged;
      }
      staged := RefOf(git, att.staging);
      if h.last < 2 {
        return Some(Unsettled), staged;
      }
      Look(att);
      assert git == Seen(w, c, g, 2);
      if RefOf(git, att.target) == "" {
        return Some(Blocked), staged;
      }
      if RefOf(git, att.target) == staged {
        return Some(Succeeded(staged)), staged;
      }
      if RefOf(git, att.target) != att.targetHead {
        return Some(Blocked), staged;
      }
      if h.last < 3 {
        return Some(Unsettled), staged;
      }
      Look(att);
      assert git == Seen(w, c, g, 3);
      if !Attached(att, git) {
        return Some(Blocked), staged;
      }
      if h.last < 4 {
        return Some(Unsettled), staged;
      }
      Look(att);
      assert git == Seen(w, c, g, 4);
      if RefOf(git, att.integration) == "" || RefOf(git, att.integration) != att.integrationHead || !h.evidenceHolds {
        return Some(Blocked), staged;
      }
      return None, staged;
    }

    /** The final look at the working tree, the merge, and a last look at what it left. */
    method FastForwardWorkingTree(att: Attempt, staged: Commit, h: Host) returns (out: Outcome)
      modifies this
      ensures
        var c, g := old(clock), old(git);
        var five := w.env(c, g);
        var six := w.hold(c + 1, five);
        var at := w.hold(c + 2, six);
        var ran := Ready(w, att, staged, h, five, six) && (UpToDate(w.ancestor, at, staged) || Forwards(w.ancestor, at, staged));
        && updates == old(updates) + (if ran && Forwards(w.ancestor, at, staged) then [Update(at.attached, Head(at), staged)] else [])
        && (out.Succeeded? <==> ran && h.last >= 8 && Head(git) == staged && git.clean)
        && (out.Succeeded? ==> out.head == staged)
        && (ran ==> git == if h.last >= 8 then w.hold(c + 3, Merged(w.ancestor, at, staged)) else Merged(w.ancestor, at, staged))
        && (out.Blocked? ==> !ran)
        && (!ran ==> git == g || git == five || git == six || git == at)
      ensures Steady(w, att.target) ==> undone == old(undone)
      ensures
        var at := w.hold(old(clock) + 2, w.hold(old(clock) + 1, w.env(old(clock), old(git))));
        staged == att.stagingHead && old(Bounded(att)) ==>
          updates == old(updates) || (at.attached == att.target && Head(at) != staged) ==> Bounded(att)
    {
      if h.last < 5 || att.target == "" || att.targetHead == "" {
        return Unsettled;
      }
      Look(att);
      if Head(git) != att.targetHead || !git.clean {
        return if Head(git) != att.targetHead then Unsettled else Blocked;
      }
      if h.last < 6 {
        return Unsettled;
      }
      LookAgain(att);
      if git.attached != att.target {
        return Blocked;
      }
      if !w.ancestor(att.targetHead, staged) {
        return Blocked;
      }
      if h.last < 7 {
        return Unsettled;
      }
      LookAgain(att);
      if h.refuses || !(UpToDate(w.ancestor, git, staged) || Forwards(w.ancestor, git, staged)) {
        return Unsettled;
      }
      if Forwards(w.ancestor, git, staged) {
        updates := updates + [Update(git.attached, Head(git), staged)];
        git := Advance(git, staged);
      }
      if h.last < 8 {
        return Unsettled;
      }
      LookAgain(att);
      if Head(git) != staged || !git.clean {
        return Unsettled;
      }
      return Succeeded(staged);
    }

    /**
    Any number of calls, each cut short anywhere. In every world an update ends at the reviewed
    head and is a fast-forward. Where others only do what a steadfast interference lets them,
    every update is the recorded one, and updates exceed by at most one the times others took
    the target off the reviewed head; so there is at most one while nobody else moves the
    target. Where the interference is tethered, success means the target is at that head.
    */
    method Deliver(att: Attempt, hosts: seq<Host>, ghost may: Interference) returns (out: Outcome)
      requires updates == [] && undone == 0
      modifies this
      ensures att.stagingHead != "" ==> forall u <- updates :: u.to == att.stagingHead && w.ancestor(u.from, u.to)
      ensures att.stagingHead != "" && Obeys(w, w.ancestor, may) && Steadfast(w.ancestor, may) ==>
        && (forall u <- updates :: u == Update(att.target, att.targetHead, att.stagingHead))
        && |updates| <= undone + 1
        && (Steady(w, att.target) ==> |updates| <= 1)
      ensures att.stagingHead != "" && Obeys(w, w.ancestor, may) && Tethered(w.ancestor, may) && out.Succeeded? ==>
        RefOf(git, att.target) == att.stagingHead
    {
      hide Ran, Recovers, Steady, Seen, Forwards, Obeys, Steadfast, Tethered, ReportsIn;
      ghost var firm := att.stagingHead != "" && Obeys(w, w.ancestor, may) && Steadfast(w.ancestor, may);
      out := Unsettled;
      for i := 0 to |hosts|
        invariant !out.Succeeded?
        invariant att.stagingHead != "" ==> forall u <- updates :: u.to == att.stagingHead && w.ancestor(u.from, u.to)
        invariant firm ==> forall u <- updates :: u == Update(att.target, att.targetHead, att.stagingHead)
        invariant firm ==> Bounded(att)
        invariant Steady(w, att.target) ==> undone == 0
      {
        ghost var c, g := clock, git;
        out := ApplyFastForward(att, hosts[i]);
        CallUpdates(w, c, g, att, hosts[i]);
        if firm {
          CallRecorded(w, may, c, g, att, hosts[i]);
        }
        if out.Succeeded? {
          if att.stagingHead != "" && Obeys(w, w.ancestor, may) && Tethered(w.ancestor, may) {
            CallReports(w, c, g, att, hosts[i], git);
            CallDelivers(w, may, c, g, att, hosts[i], git);
          }
          return;
        }
      }
    }
  }

  // ----- Other people -----

  /** Nobody else moves the target branch. */
  ghost predicate Steady(w: World, target: string) {
    && (forall n, g :: RefOf(w.env(n, g), target) == RefOf(g, target))
    && (forall n, g :: RefOf(w.hold(n, g), target) == RefOf(g, target))
  }

  /** The staged commit is pinned to the reviewed one exactly when a reviewed head was recorded. */
  lemma PinnedIffRecorded(att: Attempt)
    ensures (forall g :: StagingMatches(att, g) ==> RefOf(g, att.staging) == att.stagingHead) <==> att.stagingHead != ""
  {
    if att.stagingHead == "" {
      var g := Git(map[att.staging := "tampered"], "", "", true);
      assert StagingMatches(att, g);
    }
  }

  /** In every world an update ends at the reviewed head and is a fast-forward. */
  lemma CallUpdates(w: World, c: nat, g: Git, att: Attempt, h: Host)
    ensures
      var staged, at := RefOf(Seen(w, c, g, 1), att.staging), Seen(w, c, g, 7);
      && (Ran(w, c, g, att, h) && Forwards(w.ancestor, at, staged) <==> Updates(w, c, g, att, h))
      && UpdateOf(w, c, g, att) == Update(at.attached, Head(at), staged)
      && (Updates(w, c, g, att, h) ==> w.ancestor(Head(at), staged) && (att.stagingHead != "" ==> staged == att.stagingHead))
  {
  }

  lemma CallRecorded(w: World, may: Interference, c: nat, g: Git, att: Attempt, h: Host)
    requires att.stagingHead != "" && Obeys(w, w.ancestor, may) && Steadfast(w.ancestor, may)
    ensures RecordedCall(w, c, g, att, h)
  {
    if Updates(w, c, g, att, h) {
      CallPasses(w, w.ancestor, may, c, g, att, h);
    }
  }

  lemma CallReports(w: World, c: nat, g: Git, att: Attempt, h: Host, last: Git)
    requires
      var staged, at := RefOf(Seen(w, c, g, 1), att.staging), Seen(w, c, g, 7);
      || (Recovers(w, c, g, att, h) && last == Seen(w, c, g, 2))
      || (Ran(w, c, g, att, h) && h.last >= 8 && Head(last) == staged && last.clean && last == w.hold(c + 7, Merged(w.ancestor, at, staged)))
    ensures ReportsIn(w, c, g, att, h, last)
  {
  }

  lemma CallDelivers(w: World, may: Interference, c: nat, g: Git, att: Attempt, h: Host, last: Git)
    requires att.stagingHead != "" && Obeys(w, w.ancestor, may) && Tethered(w.ancestor, may) && ReportsIn(w, c, g, att, h, last)
    ensures RefOf(last, att.target) == att.stagingHead
  {
    if !(Recovers(w, c, g, att, h) && last == Seen(w, c, g, 2)) {
      CallPasses(w, w.ancestor, may, c, g, att, h);
    }
  }

  type Interference = (Git, Git) -> bool

  /** Others may always do nothing. */
  ghost predicate Reflexive(may: Interference) {
    forall g :: may(g, g)
  }

  /** From the final check on, others only do what they may; before it they do anything. */
  ghost predicate Obeys(w: World, anc: Ancestry, may: Interference) {
    w.ancestor == anc && forall n, g :: may(g, w.hold(n, g))
  }

  /** States of the two looks of the final check that pass it, for the staged commit. */
  predicate Passes(anc: Ancestry, five: Git, six: Git, to: Commit) {
    && five.clean && Head(five) != "" && six.attached != ""
    && to != "" && to != Head(five) && anc(Head(five), to)
  }

  // ----- Every update is the recorded one -----

  ghost predicate OnlyRecordedUpdates(anc: Ancestry, may: Interference) {
    forall w, c: nat, g, att: Attempt, h :: Obeys(w, anc, may) && att.stagingHead != "" ==>
      RecordedCall(w, c, g, att, h)
  }

  /** Others may not bring the working tree anywhere else from where the staged commit is still a fast-forward. */
  ghost predicate Steadfast(anc: Ancestry, may: Interference) {
    forall five, six, at, to :: Passes(anc, five, six, to) && may(five, six) && may(six, at) && Forwards(anc, at, to) ==>
      at.attached == six.attached && Head(at) == Head(five)
  }

  lemma RecordedIffSteadfast(anc: Ancestry, may: Interference)
    requires Reflexive(may)
    ensures OnlyRecordedUpdates(anc, may) <==> Steadfast(anc, may)
  {
    if Steadfast(anc, may) {
      hide *;
      SteadfastRecords(anc, may);
    } else {
      var five, six, at, to :| Passes(anc, five, six, to) && may(five, six) && may(six, at) && Forwards(anc, at, to)
        && !(at.attached == six.attached && Head(at) == Head(five));
      hide *;
      OtherUpdate(anc, may, five, six, at, to);
    }
  }

  lemma SteadfastRecords(anc: Ancestry, may: Interference)
    requires Steadfast(anc, may)
    ensures OnlyRecordedUpdates(anc, may)
  {
    hide Steadfast, RecordedCall;
    forall w, c: nat, g, att: Attempt, h | Obeys(w, anc, may) && att.stagingHead != "" ensures RecordedCall(w, c, g, att, h) {
      CallRecorded(w, may, c, g, att, h);
    }
  }

  lemma OtherUpdate(anc: Ancestry, may: Interference, five: Git, six: Git, at: Git, to: Commit)
    requires Reflexive(may) && Passes(anc, five, six, to) && may(five, six) && may(six, at) && Forwards(anc, at, to)
    requires !(at.attached == six.attached && Head(at) == Head(five))
    ensures !OnlyRecordedUpdates(anc, may)
  {
    var last := Merged(anc, at, to);
    Staged(anc, may, five, six, at, last, to);
    var w, g := Staging(anc, five, six, at, last, to), Start(five, six, to);
    var att, h := AttemptOf(five, six, to), Host(true, false, 8);
    hide Seen, Ran, Obeys, Passes, Start, Forwards, Merged, Reflexive;
    assert !RecordedCall(w, 0, g, att, h);
    hide RecordedCall, Staging, AttemptOf;
    assert Obeys(w, anc, may) && att.stagingHead != "";
  }

  /** What a call that ran the merge saw. */
  lemma CallPasses(w: World, anc: Ancestry, may: Interference, c: nat, g: Git, att: Attempt, h: Host)
    requires Obeys(w, anc, may) && att.stagingHead != "" && Ran(w, c, g, att, h)
    ensures
      var five, six, at, to := Seen(w, c, g, 5), Seen(w, c, g, 6), Seen(w, c, g, 7), RefOf(Seen(w, c, g, 1), att.staging);
      && Passes(anc, five, six, to) && may(five, six) && may(six, at) && may(Merged(anc, at, to), w.hold(c + 7, Merged(anc, at, to)))
      && to == att.stagingHead && six.attached == att.target && Head(five) == att.targetHead
  {
    var five, six, at := Seen(w, c, g, 5), Seen(w, c, g, 6), Seen(w, c, g, 7);
    assert six == w.hold(c + 5, five) && at == w.hold(c + 6, six);
  }

  // ----- Success means delivered -----

  /** The state in which a call reports success. */
  ghost predicate ReportsIn(w: World, c: nat, g: Git, att: Attempt, h: Host, last: Git) {
    var at, to := Seen(w, c, g, 7), RefOf(Seen(w, c, g, 1), att.staging);
    || (Recovers(w, c, g, att, h) && last == Seen(w, c, g, 2))
    || (Ran(w, c, g, att, h) && h.last >= 8 && last == w.hold(c + 7, Merged(w.ancestor, at, to)) && Head(last) == to && last.clean)
  }

  ghost predicate SuccessDelivers(anc: Ancestry, may: Interference) {
    forall w, c: nat, g, att: Attempt, h, last :: Obeys(w, anc, may) && att.stagingHead != "" && ReportsIn(w, c, g, att, h, last) ==>
      RefOf(last, att.target) == att.stagingHead
  }

  /** Others may not leave a clean working tree at the staged commit while the checked branch is elsewhere. */
  ghost predicate Tethered(anc: Ancestry, may: Interference) {
    forall five, six, at, last, to ::
      Passes(anc, five, six, to) && may(five, six) && may(six, at) && (UpToDate(anc, at, to) || Forwards(anc, at, to))
      && may(Merged(anc, at, to), last) && Head(last) == to && last.clean ==>
        RefOf(last, six.attached) == to
  }

  lemma DeliveredIffTethered(anc: Ancestry, may: Interference)
    requires Reflexive(may)
    ensures SuccessDelivers(anc, may) <==> Tethered(anc, may)
  {
    if Tethered(anc, may) {
      forall w, c: nat, g, att: Attempt, h, last | Obeys(w, anc, may) && att.stagingHead != "" && ReportsIn(w, c, g, att, h, last)
        ensures RefOf(last, att.target) == att.stagingHead
      {
        CallDelivers(w, may, c, g, att, h, last);
      }
    } else {
      var five, six, at, last, to :| Passes(anc, five, six, to) && may(five, six) && may(six, at)
        && (UpToDate(anc, at, to) || Forwards(anc, at, to)) && may(Merged(anc, at, to), last) && Head(last) == to && last.clean
        && RefOf(last, six.attached) != to;
      Staged(anc, may, five, six, at, last, to);
      var w, g := Staging(anc, five, six, at, last, to), Start(five, six, to);
      var att, h := AttemptOf(five, six, to), Host(true, false, 8);
      assert ReportsIn(w, 0, g, att, h, last);
    }
  }

  // ----- A world made of the states of one violation -----

  function AttemptOf(five: Git, six: Git, to: Commit): Attempt {
    Attempt(six.attached, six.attached + "-apply", six.attached + "-ws", Head(five), to, "i")
  }

  /** What every recheck wants to see. */
  function Start(five: Git, six: Git, to: Commit): Git {
    var t := six.attached;
    Git(map[t + "-ws" := "i", t + "-apply" := to, t := Head(five)], t, "", true)
  }

  function Staging(anc: Ancestry, five: Git, six: Git, at: Git, last: Git, to: Commit): World {
    World(anc,
          (n, g) => if n == 4 then five else Start(five, six, to),
          (n, g) =>
            if n == 5 && g == five then six
            else if n == 6 && g == six then at
            else if n == 7 && g == Merged(anc, at, to) then last
            else g)
  }

  lemma Staged(anc: Ancestry, may: Interference, five: Git, six: Git, at: Git, last: Git, to: Commit)
    requires Reflexive(may) && Passes(anc, five, six, to) && may(five, six) && may(six, at) && may(Merged(anc, at, to), last)
    requires UpToDate(anc, at, to) || Forwards(anc, at, to)
    ensures
      var w, g, att := Staging(anc, five, six, at, last, to), Start(five, six, to), AttemptOf(five, six, to);
      && Obeys(w, anc, may) && Ran(w, 0, g, att, Host(true, false, 8))
      && Seen(w, 0, g, 7) == at && RefOf(Seen(w, 0, g, 1), att.staging) == to && w.hold(7, Merged(anc, at, to)) == last
  {
    var w, g, att := Staging(anc, five, six, at, last, to), Start(five, six, to), AttemptOf(five, six, to);
    assert Seen(w, 0, g, 0) == g && Seen(w, 0, g, 1) == g && Seen(w, 0, g, 2) == g && Seen(w, 0, g, 3) == g && Seen(w, 0, g, 4) == g;
    assert Seen(w, 0, g, 5) == five && Seen(w, 0, g, 6) == six && Seen(w, 0, g, 7) == at;
    var t := six.attached;
    assert |t + "-apply"| != |t| && |t + "-ws"| != |t| && |t + "-apply"| != |t + "-ws"|;
    assert RefOf(g, att.staging) == to && RefOf(g, att.target) == Head(five) && RefOf(g, att.integration) == "i";
    assert Rechecked(w, 0, g, att, Host(true, false, 8));
  }

  // ----- Two interferences -----

  /** Leaving attachment and head of the working tree alone is enough for both promises. */
  lemma QuietIsEnough(anc: Ancestry)
    ensures Reflexive(SameRoot) && OnlyRecordedUpdates(anc, SameRoot) && SuccessDelivers(anc, SameRoot)
  {
    assert Reflexive(SameRoot) && Steadfast(anc, SameRoot) && Tethered(anc, SameRoot);
    hide *;
    RecordedIffSteadfast(anc, SameRoot);
    DeliveredIffTethered(anc, SameRoot);
  }

  predicate SameRoot(g: Git, h: Git) {
    h.attached == g.attached && Head(h) == Head(g)
  }

  // ----- An undisturbed delivery -----

  /** An update is made only after every gate was seen open: staging, target, workspace, integration, evidence. */
  lemma UpdateOnlyAfterGates(w: World, c: nat, g: Git, att: Attempt, h: Host)
    requires Updates(w, c, g, att, h)
    ensures h.evidenceHolds && !h.refuses
    ensures att.stagingHead != "" ==> RefOf(Seen(w, c, g, 1), att.staging) == att.stagingHead
    ensures RefOf(Seen(w, c, g, 2), att.target) == att.targetHead != ""
    ensures
      var gate, check := Seen(w, c, g, 3), Seen(w, c, g, 5);
      && gate.clean && gate.attached == att.target && Head(gate) == att.targetHead
      && check.clean && Head(check) == att.targetHead && Seen(w, c, g, 6).attached == att.target
    ensures RefOf(Seen(w, c, g, 4), att.integration) == att.integrationHead != ""
    ensures w.ancestor(att.targetHead, RefOf(Seen(w, c, g, 1), att.staging))
  {
  }

  lemma {:induction false} SeenIdle(anc: Ancestry, c: nat, g: Git, n: nat)
    ensures Seen(World(anc, (n, g) => g, (n, g) => g), c, g, n) == g
  {
    if n > 0 {
      SeenIdle(anc, c, g, n - 1);
    }
  }

  /** Left alone, a delivery whose facts hold moves the target and nothing else, and a second call changes nothing. */
  method Undisturbed(anc: Ancestry, start: Git, att: Attempt) returns (out: Outcome, end: Git, again: Outcome, after: Git)
    requires att.target != "" && att.stagingHead != "" && att.targetHead != "" && att.integrationHead != ""
    requires start.clean && start.attached == att.target && RefOf(start, att.target) == att.targetHead != att.stagingHead
    requires RefOf(start, att.staging) == att.stagingHead && RefOf(start, att.integration) == att.integrationHead
    requires anc(att.targetHead, att.stagingHead) && !anc(att.stagingHead, att.targetHead)
    ensures out == Succeeded(att.stagingHead) && end == start.(refs := start.refs[att.target := att.stagingHead])
    ensures again == Succeeded(att.stagingHead) && after == end
  {
    var idle := World(anc, (n, g) => g, (n, g) => g);
    var h := Host(true, false, 8);
    var d := new Delivery(idle, start);
    forall n: nat ensures Seen(idle, 0, start, n) == start { SeenIdle(anc, 0, start, n); }
    assert Rechecked(idle, 0, start, att, h) && Ran(idle, 0, start, att, h);
    hide Seen, Rechecked;
    out := d.ApplyFastForward(att, h);
    end := d.git;
    ghost var c := d.clock;
    forall n: nat ensures Seen(idle, c, end, n) == end { SeenIdle(anc, c, end, n); }
    assert Recovers(idle, c, end, att, h);
    again := d.ApplyFastForward(att, h);
    after := d.git;
  }

  // ----- A disturbed delivery -----

  /**
  Between the check and the merge somebody switches the working tree to another branch at the
  same head: that branch is moved, and success is reported although the target stayed behind.
  */
  method DeliveredElsewhere() returns (out: Outcome, git: Git)
    ensures out == Succeeded("s") && git.refs == map["main" := "t", "apply" := "s", "ws" := "i", "other" := "s"]
  {
    var start := Git(map["main" := "t", "apply" := "s", "ws" := "i", "other" := "t"], "main", "", true);
    var w := World((a: Commit, b: Commit) => a == b || (a == "t" && b == "s"), (n, g) => g,
                   (n, g: Git) => if n == 6 then g.(attached := "other") else g);
    var d := new Delivery(w, start);
    var att := Attempt("main", "apply", "ws", "t", "s", "i");
    var h := Host(true, false, 8);
    assert forall n: nat :: n <= 5 ==> Seen(w, 0, start, n) == start by {
      assert Seen(w, 0, start, 0) == start && Seen(w, 0, start, 1) == start && Seen(w, 0, start, 2) == start;
      assert Seen(w, 0, start, 3) == start && Seen(w, 0, start, 4) == start && Seen(w, 0, start, 5) == start;
    }
    assert Seen(w, 0, start, 6) == start && Seen(w, 0, start, 7) == start.(attached := "other");
    out := d.ApplyFastForward(att, h);
    git := d.git;
  }
}
