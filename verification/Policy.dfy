/**
The commit-policy safety stop. Monitors arm it, one settle claims what was armed, and every
access is under one mutex, so an execution is some sequence of these calls. The settle then
compares the worktree heads fixed at the stop with the heads found afterwards.
*/
module Policy {
  import opened Basics

  /** A worktree as fixed when the stop was armed; `readable` is false where a fact was missing. */
  datatype Worktree = Worktree(head: string, branch: string, node: string, readable: bool)

  /** By worktree path. */
  type Snapshot = map<string, Worktree>

  datatype Event = Trigger(observed: Snapshot) | Take | Finish

  class SafetyStop {
    var drift: bool
    var settling: bool
    var preHeads: Snapshot
    ghost var armed: seq<Snapshot>
    ghost var claimed: seq<Snapshot>
    ghost var settles: nat

    /** Every armed snapshot but the pending one was claimed, once and in order, by settles that ran one at a time. */
    ghost predicate Valid()
      reads this
    {
      && armed == claimed + (if drift then [preHeads] else [])
      && !(drift && settling)
      && settles == (if settling then 1 else 0)
    }

    constructor ()
      ensures Valid() && armed == [] && claimed == [] && settles == 0
    {
      drift, settling, preHeads := false, false, map[];
      armed, claimed, settles := [], [], 0;
    }

    /** A monitor saw the policy change. Nothing is armed over a pending stop or a running settle. */
    method TriggerPolicyStop(observed: Snapshot) returns (cancels: bool)
      requires Valid()
      modifies this
      ensures Valid() && claimed == old(claimed) && settling == old(settling) && settles == old(settles)
      ensures cancels <==> !old(drift) && old(settles) == 0
      ensures armed == old(armed) + (if cancels then [observed] else [])
    {
      if drift || settling {
        return false;
      }
      drift := true;
      preHeads := observed;
      armed := armed + [observed];
      return true;
    }

    /** Claims the pending snapshot and starts a settle. */
    method TakePolicyDriftSnapshot() returns (heads: Option<Snapshot>)
      requires Valid()
      modifies this
      ensures Valid() && armed == old(armed)
      ensures heads.Some? <==> |old(armed)| > |old(claimed)|
      ensures heads.Some? ==> heads.value == old(armed)[|old(claimed)|] && claimed == old(claimed) + [heads.value]
      ensures heads.Some? ==> old(settles) == 0 && settles == 1
      ensures heads.None? ==> claimed == old(claimed) && settles == old(settles)
    {
      if !drift {
        return None;
      }
      heads := Some(preHeads);
      claimed := claimed + [preHeads];
      drift, preHeads, settling := false, map[], true;
      settles := settles + 1;
    }

    /** Called by the settle that claimed a snapshot, however it ends. */
    method FinishPolicySettle()
      requires Valid() && settles > 0
      modifies this
      ensures Valid() && armed == old(armed) && claimed == old(claimed) && settles == 0
    {
      settling := false;
      settles := settles - 1;
    }

    /** Any interleaving: what was claimed is exactly what was armed, in order, up to one pending stop. */
    method Interleave(events: seq<Event>)
      requires Valid()
      modifies this
      ensures Valid() && old(armed) <= armed && old(claimed) <= claimed <= armed && |armed| <= |claimed| + 1 && settles <= 1
    {
      for i := 0 to |events|
        invariant Valid() && old(armed) <= armed && old(claimed) <= claimed
      {
        match events[i]
        case Trigger(observed) => var _ := TriggerPolicyStop(observed);
        case Take => var _ := TakePolicyDriftSnapshot();
        case Finish => if settling { FinishPolicySettle(); }
      }
    }

    /** One settle: claim, judge, finish. The snapshot is gone whatever the verdict. */
    method Settle(list: Snapshot -> seq<string>, f: Found) returns (verdict: Option<Verdict>)
      requires Valid() && settles == 0 && forall s :: Lists(list(s), s)
      modifies this
      ensures Valid() && settles == 0 && armed == old(armed)
      ensures verdict.None? <==> |old(armed)| == |old(claimed)|
      ensures verdict.None? ==> claimed == old(claimed)
      ensures verdict.Some? ==>
        && claimed == old(claimed) + [old(armed)[|old(claimed)|]] && armed == claimed
        && Judged(old(armed)[|old(claimed)|], f, verdict.value)
    {
      var heads := TakePolicyDriftSnapshot();
      if heads.None? {
        return None;
      }
      assert Lists(list(heads.value), heads.value);
      var v, paths := SettlePolicyDrift(heads.value, list(heads.value), f);
      FinishPolicySettle();
      return Some(v);
    }

    /**
    Stops and settles in any order: each claimed snapshot is judged once, on the facts of its
    own settle, and a verdict is reached exactly when every one of those facts is readable.
    */
    method StopsAndSettles(list: Snapshot -> seq<string>, rounds: seq<Round>) returns (rulings: seq<Ruling>)
      requires Valid() && settles == 0 && claimed == [] && forall s :: Lists(list(s), s)
      modifies this
      ensures Valid() && |rulings| == |claimed| && claimed <= armed && |armed| <= |claimed| + 1
      ensures forall i :: 0 <= i < |rulings| ==> rulings[i].snapshot == claimed[i] && Judged(claimed[i], rulings[i].found, rulings[i].verdict)
      ensures forall i :: 0 <= i < |rulings| ==> (rulings[i].verdict.Undecided? <==> !AllReadable(claimed[i], rulings[i].found))
    {
      rulings := [];
      for i := 0 to |rounds|
        invariant Valid() && settles == 0 && |rulings| == |claimed|
        invariant forall k :: 0 <= k < |rulings| ==> rulings[k].snapshot == claimed[k] && Judged(claimed[k], rulings[k].found, rulings[k].verdict)
      {
        match rounds[i]
        case Stop(observed) => var _ := TriggerPolicyStop(observed);
        case SettleOn(f) =>
          var snapshot := preHeads;
          var verdict := Settle(list, f);
          if verdict.Some? {
            rulings := rulings + [Ruling(snapshot, f, verdict.value)];
          }
      }
    }
  }

  // ----- The settle -----

  datatype WindowCommit = WindowCommit(branch: string, from: string, to: string, node: string)

  datatype Verdict = Undecided | Quarantine(window: seq<WindowCommit>) | Confirm

  /** What is found after the stop: a worktree's head, and whether a commit range is non-empty. */
  datatype Found = Found(head: string -> Option<string>, range: (string, string) -> Option<bool>)

  /** Every fact the verdict needs about one worktree could be read. */
  predicate Readable(pre: Worktree, path: string, f: Found) {
    && pre.readable && f.head(path).Some? && f.head(path).value != ""
    && (f.head(path).value != pre.head ==> f.range(pre.head, f.head(path).value).Some?)
  }

  /** The worktree moved over a non-empty range of commits. */
  predicate Moved(pre: Worktree, path: string, f: Found)
    requires Readable(pre, path, f)
  {
    f.head(path).value != pre.head && f.range(pre.head, f.head(path).value).value
  }

  function Entry(pre: Worktree, path: string, f: Found): WindowCommit
    requires Readable(pre, path, f)
  {
    WindowCommit(pre.branch, pre.head, f.head(path).value, pre.node)
  }

  ghost predicate AllReadable(heads: Snapshot, f: Found) {
    forall p <- heads :: Readable(heads[p], p, f)
  }

  ghost function MovedPaths(heads: Snapshot, f: Found): set<string>
    requires AllReadable(heads, f)
  {
    set p | p in heads && Moved(heads[p], p, f)
  }

  /** The window lists the moved worktrees, each once. */
  ghost predicate Covers(heads: Snapshot, f: Found, window: seq<WindowCommit>, paths: seq<string>)
    requires AllReadable(heads, f)
  {
    && |paths| == |window|
    && (forall i, j :: 0 <= i < j < |paths| ==> paths[i] != paths[j])
    && (forall p :: p in paths <==> p in MovedPaths(heads, f))
    && (forall i :: 0 <= i < |paths| ==> paths[i] in heads && window[i] == Entry(heads[paths[i]], paths[i], f))
  }

  /**
  Whichever order the worktrees are visited in: nothing is decided when a fact is unreadable,
  otherwise exactly the moved worktrees are quarantined, and a confirmation is asked for when
  none moved.
  */
  method SettlePolicyDrift(heads: Snapshot, order: seq<string>, f: Found) returns (verdict: Verdict, ghost paths: seq<string>)
    requires Lists(order, heads)
    ensures verdict.Undecided? <==> !AllReadable(heads, f)
    ensures verdict.Confirm? <==> AllReadable(heads, f) && MovedPaths(heads, f) == {}
    ensures verdict.Quarantine? ==> Covers(heads, f, verdict.window, paths)
  {
    var window: seq<WindowCommit> := [];
    paths := [];
    for i := 0 to |order|
      invariant forall k :: 0 <= k < i ==> Readable(heads[order[k]], order[k], f)
      invariant |paths| == |window|
      invariant forall p :: p in paths <==> exists k :: 0 <= k < i && order[k] == p && Moved(heads[p], p, f)
      invariant forall j, k :: 0 <= j < k < |paths| ==> paths[j] != paths[k]
      invariant forall k :: 0 <= k < |paths| ==> paths[k] in heads && Readable(heads[paths[k]], paths[k], f)
      invariant forall k :: 0 <= k < |paths| ==> window[k] == Entry(heads[paths[k]], paths[k], f)
    {
      var path := order[i];
      var pre := heads[path];
      if !pre.readable {
        return Undecided, [];
      }
      var final := f.head(path);
      if final.None? || final.value == "" {
        return Undecided, [];
      }
      if final.value != pre.head {
        var hasCommits := f.range(pre.head, final.value);
        if hasCommits.None? {
          return Undecided, [];
        }
        if hasCommits.value {
          window := window + [WindowCommit(pre.branch, pre.head, final.value, pre.node)];
          paths := paths + [path];
        }
      }
    }
    assert AllReadable(heads, f);
    assert forall p :: p in paths <==> p in MovedPaths(heads, f);
    if |window| > 0 {
      assert paths[0] in MovedPaths(heads, f);
      return Quarantine(window), paths;
    }
    return Confirm, paths;
  }

  /** A quarantined window is one of a worktree whose head was fixed, found elsewhere, over a non-empty range. */
  lemma WindowMeans(heads: Snapshot, f: Found, window: seq<WindowCommit>, paths: seq<string>, i: nat)
    requires AllReadable(heads, f) && Covers(heads, f, window, paths) && i < |window|
    ensures
      var p, c := paths[i], window[i];
      && p in heads && heads[p].readable && f.head(p) == Some(c.to) && c.to != c.from && f.range(c.from, c.to) == Some(true)
      && c.from == heads[p].head && c.branch == heads[p].branch && c.node == heads[p].node
  {
    assert paths[i] in MovedPaths(heads, f);
  }

  /** What a settle makes of a snapshot. */
  ghost predicate Judged(heads: Snapshot, f: Found, verdict: Verdict) {
    && (verdict.Undecided? <==> !AllReadable(heads, f))
    && (verdict.Confirm? <==> AllReadable(heads, f) && MovedPaths(heads, f) == {})
    && (verdict.Quarantine? ==> AllReadable(heads, f) && exists paths :: Covers(heads, f, verdict.window, paths))
  }

  /** The paths of a snapshot, each once, in any order. */
  ghost predicate Lists(order: seq<string>, heads: Snapshot) {
    (forall p :: p in order <==> p in heads) && (forall i, j :: 0 <= i < j < |order| ==> order[i] != order[j])
  }

  datatype Round = Stop(observed: Snapshot) | SettleOn(found: Found)

  datatype Ruling = Ruling(snapshot: Snapshot, found: Found, verdict: Verdict)

  /**
  A commit that is never quarantined: the worktree moved from a to b in the window, its head
  could not be read at the settle, and the next stop fixes b.
  */
  method LostWindow(list: Snapshot -> seq<string>) returns (first: Option<Verdict>, second: Option<Verdict>, third: Option<Verdict>)
    requires forall s :: Lists(list(s), s)
    ensures first == Some(Undecided) && second == None && third == Some(Confirm)
  {
    var stop := new SafetyStop();
    var seen := (p: string) => Some("b");
    var moved := (a: string, b: string) => Some(true);
    var before, after := map["wt" := Worktree("a", "task", "n", true)], map["wt" := Worktree("b", "task", "n", true)];
    var _ := stop.TriggerPolicyStop(before);
    var blind := Found(p => None, moved);
    assert !Readable(before["wt"], "wt", blind);
    first := stop.Settle(list, blind);
    var clear := Found(seen, moved);
    second := stop.Settle(list, clear);
    var _ := stop.TriggerPolicyStop(after);
    assert AllReadable(after, clear) && MovedPaths(after, clear) == {};
    third := stop.Settle(list, clear);
  }

  /** The verdict does not depend on the order. */
  lemma CoverIsUnique(heads: Snapshot, f: Found, w1: seq<WindowCommit>, p1: seq<string>, w2: seq<WindowCommit>, p2: seq<string>)
    requires AllReadable(heads, f) && Covers(heads, f, w1, p1) && Covers(heads, f, w2, p2)
    ensures |w1| == |w2| && multiset(p1) == multiset(p2)
    ensures forall x :: x in w1 <==> x in w2
  {
    SameMultiset(p1, p2);
    assert |p1| == |multiset(p1)| && |p2| == |multiset(p2)|;
    forall x | x in w1 ensures x in w2 {
      var i :| 0 <= i < |w1| && w1[i] == x;
      assert p1[i] in p2;
      var j :| 0 <= j < |p2| && p2[j] == p1[i];
      assert w2[j] == x;
    }
    forall x | x in w2 ensures x in w1 {
      var i :| 0 <= i < |w2| && w2[i] == x;
      assert p2[i] in p1;
      var j :| 0 <= j < |p1| && p1[j] == p2[i];
      assert w1[j] == x;
    }
  }

  lemma {:induction false} Once(p: seq<string>, x: string)
    requires forall i, j :: 0 <= i < j < |p| ==> p[i] != p[j]
    ensures multiset(p)[x] == if x in p then 1 else 0
  {
    if p != [] {
      var n := |p| - 1;
      assert p == p[..n] + [p[n]];
      Once(p[..n], x);
    }
  }

  lemma SameMultiset(p1: seq<string>, p2: seq<string>)
    requires forall i, j :: 0 <= i < j < |p1| ==> p1[i] != p1[j]
    requires forall i, j :: 0 <= i < j < |p2| ==> p2[i] != p2[j]
    requires forall x :: x in p1 <==> x in p2
    ensures multiset(p1) == multiset(p2)
  {
    forall x ensures multiset(p1)[x] == multiset(p2)[x] {
      Once(p1, x);
      Once(p2, x);
    }
  }
}
