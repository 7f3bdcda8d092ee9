/**
Serial merges of verified task commits into the workspace, with rollback. Other processes may
add commits, move branches or touch the workspace between any two steps; commits themselves
are immutable. A call may be cut short at any step.
*/
module Merge {

  type Commit = string

  /** `head` is the workspace head; `merging` that a conflicted merge is in progress there. */
  datatype Repo = Repo(parents: map<Commit, seq<Commit>>, branches: map<string, Commit>, head: Commit, merging: bool, clean: bool)

  /** Merge `commit`, the verified head of `branch`, onto the recorded workspace head. */
  datatype Intent = Intent(branch: string, commit: Commit, expected: Commit)

  datatype MergeKind = Commits | Conflicts | Refuses

  /** What git and the host do in one call; `last` is the last step the process lives to take. */
  datatype Host = Host(
    preflight: bool,
    kind: MergeKind,
    id: Commit,          // the id git gives a new merge commit
    dirtied: bool,       // a commit hook or the merge itself leaves the workspace dirty
    identity: bool,      // the merge commit carries the preflight identity
    abortRefused: bool,
    resetRefused: bool,
    last: nat)

  /** Git's answer whether one commit is an ancestor of another. */
  type Ancestry = (Repo, Commit, Commit) -> bool

  /** `env` acts before the first look of a call, `hold` from then on. */
  datatype World = World(
    ancestor: Ancestry,
    env: (nat, Repo) -> Repo,
    hold: (nat, Repo) -> Repo)

  /** No commit is ever changed. */
  predicate Grows(r: Repo, s: Repo) {
    forall c <- r.parents :: c in s.parents && s.parents[c] == r.parents[c]
  }

  ghost predicate Immutable(w: World) {
    (forall n, r :: Grows(r, w.env(n, r))) && (forall n, r :: Grows(r, w.hold(n, r)))
  }

  function BranchOf(r: Repo, b: string): Commit {
    if b in r.branches then r.branches[b] else ""
  }

  /** `git merge --no-ff branch`: up to date, a new merge commit, or a conflict in progress. */
  function MergeBranch(anc: Ancestry, r: Repo, branch: string, h: Host): Repo {
    if h.kind.Refuses? || BranchOf(r, branch) == "" || h.id in r.parents then r
    else if anc(r, BranchOf(r, branch), r.head) then r
    else if h.kind.Conflicts? then r.(merging := true, clean := false)
    else r.(parents := r.parents[h.id := [r.head, BranchOf(r, branch)]], head := h.id, clean := r.clean && !h.dirtied)
  }

  predicate Completes(anc: Ancestry, r: Repo, branch: string, h: Host) {
    && !h.kind.Refuses? && BranchOf(r, branch) != "" && h.id !in r.parents
    && (anc(r, BranchOf(r, branch), r.head) || h.kind.Commits?)
  }

  datatype Outcome = Merged(head: Commit) | Failed | Cut

  // ----- What a merge call sees -----

  function Before(w: World, c: nat, r: Repo): Repo {
    w.env(c, r)
  }

  function AtLookup(w: World, c: nat, r: Repo): Repo {
    w.hold(c + 1, Before(w, c, r))
  }

  function AtMerge(w: World, c: nat, r: Repo): Repo {
    w.hold(c + 2, AtLookup(w, c, r))
  }

  function AtInspect(w: World, c: nat, r: Repo, branch: string, h: Host): Repo {
    w.hold(c + 3, MergeBranch(w.ancestor, AtMerge(w, c, r), branch, h))
  }

  /** Every check before and after the merge passed. */
  ghost predicate Reports(w: World, c: nat, r: Repo, intent: Intent, h: Host) {
    var back := AtInspect(w, c, r, intent.branch, h);
    && h.last >= 5 && h.preflight && h.identity
    && Before(w, c, r).head == intent.expected && Before(w, c, r).clean
    && BranchOf(AtLookup(w, c, r), intent.branch) == intent.commit != ""
    && Completes(w.ancestor, AtMerge(w, c, r), intent.branch, h)
    && back.head in back.parents && |back.parents[back.head]| >= 2
    && w.hold(c + 4, back).head == back.head && w.hold(c + 4, back).clean
  }

  /** Where a call that lives to its end leaves a repository it does not report merged: where it found its reason. */
  ghost predicate LeftAfter(w: World, c: nat, r: Repo, intent: Intent, h: Host, s: Repo) {
    var merged := MergeBranch(w.ancestor, AtMerge(w, c, r), intent.branch, h);
    var back := AtInspect(w, c, r, intent.branch, h);
    if Before(w, c, r).head != intent.expected || !Before(w, c, r).clean then s == Before(w, c, r)
    else if BranchOf(AtLookup(w, c, r), intent.branch) != intent.commit || intent.commit == "" || !h.preflight then s == AtLookup(w, c, r)
    else if !Completes(w.ancestor, AtMerge(w, c, r), intent.branch, h) then s == merged
    else s == back || s == w.hold(c + 4, back)
  }

  /** Git can restore the recorded head: nothing to do, a merge to abort, or a descendant to reset. */
  predicate Restorable(w: World, r: Repo, expected: Commit, h: Host) {
    if r.head == expected then r.clean || (r.merging && !h.abortRefused)
    else w.ancestor(r, expected, r.head) && !h.resetRefused
  }

  function Restored(r: Repo, expected: Commit): Repo {
    r.(head := expected, merging := false, clean := true)
  }

  class Workspace {
    const w: World
    var repo: Repo
    var clock: nat

    constructor (w: World, repo: Repo)
      ensures this.w == w && this.repo == repo && clock == 0
    {
      this.w, this.repo, clock := w, repo, 0;
    }

    method Look()
      modifies this
      ensures repo == w.env(old(clock), old(repo)) && clock == old(clock) + 1
    {
      repo := w.env(clock, repo);
      clock := clock + 1;
    }

    method LookAgain()
      modifies this
      ensures repo == w.hold(old(clock), old(repo)) && clock == old(clock) + 1
    {
      repo := w.hold(clock, repo);
      clock := clock + 1;
    }

    /** A merge that is reported carries the head read back after it, a commit with two parents. */
    method WorkspaceMerge(intent: Intent, h: Host) returns (out: Outcome)
      requires Immutable(w)
      modifies this
      ensures Grows(old(repo), repo)
      ensures out.Merged? <==> Reports(w, old(clock), old(repo), intent, h)
      ensures h.last >= 5 ==> !out.Cut?
      ensures !out.Merged? && h.last >= 5 ==> LeftAfter(w, old(clock), old(repo), intent, h, repo)
      ensures out.Merged? ==>
        var back := AtInspect(w, old(clock), old(repo), intent.branch, h);
        out.head == back.head && repo == w.hold(old(clock) + 4, back)
    {
      if h.last < 1 {
        return Cut;
      }
      Look();
      if repo.head != intent.expected || !repo.clean {
        return Failed;
      }
      if h.last < 2 {
        return Cut;
      }
      LookAgain();
      if BranchOf(repo, intent.branch) == "" || BranchOf(repo, intent.branch) != intent.commit || !h.preflight {
        return Failed;
      }
      if h.last < 3 {
        return Cut;
      }
      LookAgain();
      var completes := Completes(w.ancestor, repo, intent.branch, h);
      repo := MergeBranch(w.ancestor, repo, intent.branch, h);
      if h.last < 4 {
        return Cut;
      }
      if !completes {
        return Failed;
      }
      LookAgain();
      var head := repo.head;
      if head !in repo.parents || |repo.parents[head]| < 2 || !h.identity {
        return Failed;
      }
      if h.last < 5 {
        return Cut;
      }
      LookAgain();
      if repo.head != head || !repo.clean {
        return Failed;
      }
      return Merged(head);
    }

    /**
    Restores the recorded head, or refuses: a clean workspace is left alone, a conflicted
    merge is aborted, and only a head that descends from the recorded one is reset.
    */
    method RollbackMerge(expected: Commit, h: Host) returns (ok: bool)
      requires Immutable(w)
      modifies this
      ensures Grows(old(repo), repo)
      ensures
        var seen := w.env(old(clock), old(repo));
        && (ok ==> repo.head == expected && repo.clean)
        && (ok <==> h.last >= 1 && Restorable(w, seen, expected, h) && repo.head == expected && repo.clean)
        && repo == if h.last < 1 || !Restorable(w, seen, expected, h) || (seen.head == expected && seen.clean) then seen
                   else w.hold(old(clock) + 1, Restored(seen, expected))
    {
      if h.last < 1 {
        repo := w.env(clock, repo);
        return false;
      }
      Look();
      if repo.head == expected {
        if repo.clean {
          return true;
        }
        if h.abortRefused || !repo.merging {
          return false;
        }
        repo := repo.(merging := false, clean := true);
      } else {
        if !w.ancestor(repo, expected, repo.head) {
          return false;
        }
        if h.resetRefused {
          return false;
        }
        repo := repo.(head := expected, merging := false, clean := true);
      }
      LookAgain();
      return repo.head == expected && repo.clean;
    }

    /**
    A sequence of merges, each on the head settled before it, each followed by a rollback
    when it failed, cut short wherever. In every world a settled head is the previous one or a
    commit with two parents. Where others only do what an anchored interference lets them, the
    settled head is a chain of merges of exactly the verified commits on the first head.
    */
    method MergeAll(base: Commit, tasks: seq<(string, Commit)>, hosts: seq<(Host, Host)>, ghost may: Interference)
      returns (settled: Commit, heads: seq<Commit>)
      requires Immutable(w) && |hosts| == |tasks|
      modifies this
      ensures |heads| == |tasks| + 1 && heads[0] == base && heads[|tasks|] == settled
      ensures forall i :: 0 <= i < |tasks| ==> Joined(repo, heads[i], heads[i + 1])
      ensures Obeys(w, w.ancestor, may) && Anchored(w.ancestor, may) ==>
        && (forall i :: 0 <= i < |tasks| ==> Settles(repo, heads[i], tasks[i].1, heads[i + 1]))
        && OnlyVerified(repo, base, settled, tasks)
    {
      ghost var tame := Obeys(w, w.ancestor, may) && Anchored(w.ancestor, may);
      hide Obeys, Anchored;
      settled, heads := base, [base];
      for i := 0 to |tasks|
        invariant |heads| == i + 1 && heads[0] == base && heads[i] == settled
        invariant forall k :: 0 <= k < i ==> Joined(repo, heads[k], heads[k + 1])
        invariant tame ==> forall k :: 0 <= k < i ==> Settles(repo, heads[k], tasks[k].1, heads[k + 1])
      {
        ghost var r, c := repo, clock;
        var intent := Intent(tasks[i].0, tasks[i].1, settled);
        var out := WorkspaceMerge(intent, hosts[i].0);
        if tame && out.Merged? {
          ReportSettles(w, may, c, r, intent, hosts[i].0);
        }
        if out.Merged? {
          ReportJoined(w, c, r, intent, hosts[i].0);
          settled := out.head;
        } else if out.Failed? {
          var _ := RollbackMerge(settled, hosts[i].1);
        }
        heads := heads + [settled];
      }
      if tame {
        SettledHistory(repo, tasks, heads, |tasks|);
      }
    }
  }

  /** The next settled head is the previous one, or some merge commit. */
  predicate Joined(r: Repo, previous: Commit, next: Commit) {
    next == previous || (next in r.parents && |r.parents[next]| >= 2)
  }

  /** The next settled head is the previous one, or the merge of the verified commit onto it. */
  ghost predicate Settles(r: Repo, previous: Commit, verified: Commit, next: Commit) {
    next == previous || (next in r.parents && r.parents[next] == [previous, verified])
  }

  lemma ReportJoined(w: World, c: nat, r: Repo, intent: Intent, h: Host)
    requires Immutable(w) && Reports(w, c, r, intent, h)
    ensures
      var back := AtInspect(w, c, r, intent.branch, h);
      Joined(w.hold(c + 4, back), intent.expected, back.head)
  {
    var back := AtInspect(w, c, r, intent.branch, h);
    assert Grows(back, w.hold(c + 4, back));
  }

  /** From base to head, every step is a merge of a verified commit onto the step before. */
  ghost predicate OnlyVerified(r: Repo, base: Commit, head: Commit, tasks: seq<(string, Commit)>) {
    exists path :: MergePath(r, path, tasks) && path[0] == base && path[|path| - 1] == head
  }

  ghost predicate MergePath(r: Repo, path: seq<Commit>, tasks: seq<(string, Commit)>) {
    path != [] && forall i, j :: 0 <= i < |path| && 0 <= j < |path| && j == i + 1 ==> MergesOne(r, path[i], path[j], tasks)
  }

  ghost predicate MergesOne(r: Repo, from: Commit, to: Commit, tasks: seq<(string, Commit)>) {
    exists k :: 0 <= k < |tasks| && to in r.parents && r.parents[to] == [from, tasks[k].1]
  }

  lemma {:induction false} SettledHistory(r: Repo, tasks: seq<(string, Commit)>, heads: seq<Commit>, n: nat)
    requires |heads| == |tasks| + 1 && n <= |tasks|
    requires forall i :: 0 <= i < |tasks| ==> Settles(r, heads[i], tasks[i].1, heads[i + 1])
    ensures OnlyVerified(r, heads[0], heads[n], tasks)
  {
    if n == 0 {
      assert MergePath(r, [heads[0]], tasks);
    } else {
      SettledHistory(r, tasks, heads, n - 1);
      var path :| MergePath(r, path, tasks) && path[0] == heads[0] && path[|path| - 1] == heads[n - 1];
      assert Settles(r, heads[n - 1], tasks[n - 1].1, heads[n]);
      if heads[n] != heads[n - 1] {
        assert MergesOne(r, heads[n - 1], heads[n], tasks);
        var longer := path + [heads[n]];
        assert MergePath(r, longer, tasks);
        assert longer[0] == heads[0] && longer[|longer| - 1] == heads[n];
      }
    }
  }

  // ----- What others may do during a merge -----

  /** Which changes others may make between two looks. */
  type Interference = (Repo, Repo) -> bool

  /** Others may do nothing, and may never change a commit. */
  ghost predicate Lawful(may: Interference) {
    (forall r :: may(r, r)) && (forall r, s :: may(r, s) ==> Grows(r, s))
  }

  ghost predicate Obeys(w: World, anc: Ancestry, may: Interference) {
    w.ancestor == anc && Immutable(w) && forall n, r :: may(r, w.hold(n, r))
  }

  /** A merge command that makes a commit, after checks that passed. */
  predicate MakesCommit(anc: Ancestry, before: Repo, look: Repo, at: Repo, branch: string, h: Host) {
    before.clean && BranchOf(look, branch) != "" && Completes(anc, at, branch, h) && MergeBranch(anc, at, branch, h) != at
  }

  /** Whatever obeying others do, a merge commit joins the recorded head and the verified commit. */
  ghost predicate OnlyVerifiedMerges(anc: Ancestry, may: Interference) {
    forall w, c: nat, r, intent: Intent, h ::
      Obeys(w, anc, may) && Before(w, c, r).head == intent.expected && BranchOf(AtLookup(w, c, r), intent.branch) == intent.commit
      && MakesCommit(anc, Before(w, c, r), AtLookup(w, c, r), AtMerge(w, c, r), intent.branch, h) ==>
        ParentsAre(MergeBranch(anc, AtMerge(w, c, r), intent.branch, h), h.id, intent.expected, intent.commit)
  }

  predicate ParentsAre(r: Repo, id: Commit, first: Commit, second: Commit) {
    id in r.parents && r.parents[id] == [first, second]
  }

  /** Others may not move the head or the branch to where a merge would still make a commit. */
  ghost predicate Unmoved(anc: Ancestry, may: Interference) {
    forall before, look, at, branch, h ::
      may(before, look) && may(look, at) && MakesCommit(anc, before, look, at, branch, h) ==>
        at.head == before.head && BranchOf(at, branch) == BranchOf(look, branch)
  }

  lemma ParentsOf(anc: Ancestry, at: Repo, branch: string, h: Host, first: Commit, second: Commit)
    requires Completes(anc, at, branch, h) && MergeBranch(anc, at, branch, h) != at
    ensures ParentsAre(MergeBranch(anc, at, branch, h), h.id, first, second) <==> at.head == first && BranchOf(at, branch) == second
  {
    var pair, other := [at.head, BranchOf(at, branch)], [first, second];
    assert pair[0] == at.head && pair[1] == BranchOf(at, branch) && other[0] == first && other[1] == second;
  }

  /** The merge names the branch, not the verified commit: exactly when is that harmless. */
  lemma VerifiedIffUnmoved(anc: Ancestry, may: Interference)
    requires Lawful(may)
    ensures OnlyVerifiedMerges(anc, may) <==> Unmoved(anc, may)
  {
    hide MergeBranch, Completes;
    if Unmoved(anc, may) {
      forall w, c: nat, r, intent: Intent, h |
        Obeys(w, anc, may) && Before(w, c, r).head == intent.expected && BranchOf(AtLookup(w, c, r), intent.branch) == intent.commit
        && MakesCommit(anc, Before(w, c, r), AtLookup(w, c, r), AtMerge(w, c, r), intent.branch, h)
        ensures ParentsAre(MergeBranch(anc, AtMerge(w, c, r), intent.branch, h), h.id, intent.expected, intent.commit)
      {
        ParentsOf(anc, AtMerge(w, c, r), intent.branch, h, intent.expected, intent.commit);
      }
    } else {
      var before, look, at, branch, h :| may(before, look) && may(look, at) && MakesCommit(anc, before, look, at, branch, h)
        && !(at.head == before.head && BranchOf(at, branch) == BranchOf(look, branch));
      var merged := MergeBranch(anc, at, branch, h);
      Acted(anc, may, before, look, at, merged, merged, branch, h);
      var w, intent := Acting(anc, before, look, at, merged, merged, branch, h), Intent(branch, BranchOf(look, branch), before.head);
      ParentsOf(anc, at, branch, h, intent.expected, intent.commit);
      assert !ParentsAre(MergeBranch(anc, AtMerge(w, 0, before), intent.branch, h), h.id, intent.expected, intent.commit);
    }
  }

  /** Whatever obeying others do, a reported head is the recorded one or the merge of the verified commit onto it. */
  ghost predicate ReportsSettle(anc: Ancestry, may: Interference) {
    forall w, c: nat, r, intent: Intent, h :: Obeys(w, anc, may) && Reports(w, c, r, intent, h) ==>
      Settles(AtInspect(w, c, r, intent.branch, h), intent.expected, intent.commit, AtInspect(w, c, r, intent.branch, h).head)
  }

  /** A merge that ends well as the checks see it. */
  ghost predicate LooksGood(anc: Ancestry, may: Interference, before: Repo, look: Repo, at: Repo, back: Repo, last: Repo, branch: string, h: Host) {
    && before.clean && may(before, look) && BranchOf(look, branch) != "" && may(look, at) && Completes(anc, at, branch, h)
    && may(MergeBranch(anc, at, branch, h), back) && back.head in back.parents && |back.parents[back.head]| >= 2
    && may(back, last) && last.head == back.head && last.clean
  }

  /** What others may do never makes another head look good. */
  ghost predicate Anchored(anc: Ancestry, may: Interference) {
    forall before, look, at, back, last, branch, h :: LooksGood(anc, may, before, look, at, back, last, branch, h) ==>
      Settles(back, before.head, BranchOf(look, branch), back.head)
  }

  lemma SettleIffAnchored(anc: Ancestry, may: Interference)
    requires Lawful(may)
    ensures ReportsSettle(anc, may) <==> Anchored(anc, may)
  {
    hide MergeBranch, Completes, Settles;
    if Anchored(anc, may) {
      forall w, c: nat, r, intent: Intent, h | Obeys(w, anc, may) && Reports(w, c, r, intent, h)
        ensures Settles(AtInspect(w, c, r, intent.branch, h), intent.expected, intent.commit, AtInspect(w, c, r, intent.branch, h).head)
      {
        ReportLooksGood(w, may, c, r, intent, h);
      }
    } else {
      var before, look, at, back, last, branch, h :| LooksGood(anc, may, before, look, at, back, last, branch, h)
        && !Settles(back, before.head, BranchOf(look, branch), back.head);
      var host := h.(preflight := true, identity := true, last := 5);
      SameMerge(anc, at, branch, h, host);
      Acted(anc, may, before, look, at, back, last, branch, host);
      var w, intent := Acting(anc, before, look, at, back, last, branch, host), Intent(branch, BranchOf(look, branch), before.head);
      assert Reports(w, 0, before, intent, host);
    }
  }

  lemma SameMerge(anc: Ancestry, at: Repo, branch: string, h: Host, host: Host)
    requires host == h.(preflight := true, identity := true, last := 5)
    ensures MergeBranch(anc, at, branch, host) == MergeBranch(anc, at, branch, h)
    ensures Completes(anc, at, branch, host) <==> Completes(anc, at, branch, h)
  {
  }

  lemma ReportLooksGood(w: World, may: Interference, c: nat, r: Repo, intent: Intent, h: Host)
    requires Obeys(w, w.ancestor, may) && Reports(w, c, r, intent, h)
    ensures
      var back := AtInspect(w, c, r, intent.branch, h);
      LooksGood(w.ancestor, may, Before(w, c, r), AtLookup(w, c, r), AtMerge(w, c, r), back, w.hold(c + 4, back), intent.branch, h)
  {
  }

  lemma ReportSettles(w: World, may: Interference, c: nat, r: Repo, intent: Intent, h: Host)
    requires Obeys(w, w.ancestor, may) && Anchored(w.ancestor, may) && Reports(w, c, r, intent, h)
    ensures
      var back := AtInspect(w, c, r, intent.branch, h);
      Settles(w.hold(c + 4, back), intent.expected, intent.commit, back.head)
  {
    var back := AtInspect(w, c, r, intent.branch, h);
    ReportLooksGood(w, may, c, r, intent, h);
    assert Settles(back, intent.expected, intent.commit, back.head);
    assert Grows(back, w.hold(c + 4, back));
  }

  /** The world in which others do what the given states say. */
  function Acting(anc: Ancestry, before: Repo, look: Repo, at: Repo, back: Repo, last: Repo, branch: string, h: Host): World {
    World(anc, (n, r) => r,
          (n, r) =>
            if n == 1 && r == before then look
            else if n == 2 && r == look then at
            else if n == 3 && r == MergeBranch(anc, at, branch, h) then back
            else if n == 4 && r == back then last
            else r)
  }

  lemma Acted(anc: Ancestry, may: Interference, before: Repo, look: Repo, at: Repo, back: Repo, last: Repo, branch: string, h: Host)
    requires Lawful(may) && may(before, look) && may(look, at) && may(MergeBranch(anc, at, branch, h), back) && may(back, last)
    ensures
      var w := Acting(anc, before, look, at, back, last, branch, h);
      && Obeys(w, anc, may)
      && Before(w, 0, before) == before && AtLookup(w, 0, before) == look && AtMerge(w, 0, before) == at
      && AtInspect(w, 0, before, branch, h) == back && w.hold(4, back) == last
  {
  }

  /** Leaving the workspace head and the branches alone is enough. */
  lemma QuietIsAnchored(anc: Ancestry)
    ensures
      var quiet := (r: Repo, s: Repo) => Grows(r, s) && s.head == r.head && s.branches == r.branches;
      Lawful(quiet) && Unmoved(anc, quiet) && Anchored(anc, quiet)
  {
    var quiet := (r: Repo, s: Repo) => Grows(r, s) && s.head == r.head && s.branches == r.branches;
    forall before, look, at, back, last, branch, h | LooksGood(anc, quiet, before, look, at, back, last, branch, h)
      ensures Settles(back, before.head, BranchOf(look, branch), back.head)
    {
      assert Grows(MergeBranch(anc, at, branch, h), back);
    }
  }

  /** The branch moves after it was looked up: an unverified commit is merged and reported. */
  method MergedUnverified() returns (out: Outcome, repo: Repo)
    ensures out == Merged("m") && "m" in repo.parents && repo.parents["m"] == ["base", "unverified"]
  {
    var start := Repo(map["base" := ["a", "b"], "verified" := ["base"], "unverified" := ["base"]],
                      map["task" := "verified"], "base", false, true);
    var w := World((r, a, b) => a == b, (n, r) => r,
                   (n, r: Repo) => if n == 2 then r.(branches := r.branches["task" := "unverified"]) else r);
    var ws := new Workspace(w, start);
    out := ws.WorkspaceMerge(Intent("task", "verified", "base"), Host(true, Commits, "m", false, true, false, false, 5));
    repo := ws.repo;
  }

  /** Left alone, a verified commit is merged onto the recorded head; the merge commit joins the two. */
  method UndisturbedMerge(anc: Ancestry, start: Repo, intent: Intent, id: Commit) returns (out: Outcome, end: Repo)
    requires start.clean && start.head == intent.expected && BranchOf(start, intent.branch) == intent.commit != ""
    requires id !in start.parents && !anc(start, intent.commit, start.head)
    ensures out == Merged(id)
    ensures end == start.(parents := start.parents[id := [intent.expected, intent.commit]], head := id)
  {
    var ws := new Workspace(World(anc, (n, r) => r, (n, r) => r), start);
    out := ws.WorkspaceMerge(intent, Host(true, Commits, id, false, true, false, false, 5));
    end := ws.repo;
  }

  /** A text conflict is reported as a failure, and the rollback brings back the workspace as it was. */
  method ConflictRolledBack(anc: Ancestry, start: Repo, intent: Intent, id: Commit) returns (out: Outcome, during: Repo, ok: bool, end: Repo)
    requires start.clean && !start.merging && start.head == intent.expected && BranchOf(start, intent.branch) == intent.commit != ""
    requires id !in start.parents && !anc(start, intent.commit, start.head)
    ensures out == Failed && during == start.(merging := true, clean := false)
    ensures ok && end == start
  {
    var idle := World(anc, (n, r) => r, (n, r) => r);
    var h := Host(true, Conflicts, id, false, true, false, false, 5);
    var ws := new Workspace(idle, start);
    out := ws.WorkspaceMerge(intent, h);
    during := ws.repo;
    ok := ws.RollbackMerge(intent.expected, h);
    end := ws.repo;
  }

  /** A merge that committed but failed its checks is reset to the recorded head. */
  method FailedMergeReset(anc: Ancestry, start: Repo, intent: Intent, id: Commit) returns (out: Outcome, ok: bool, end: Repo)
    requires start.clean && !start.merging && start.head == intent.expected && BranchOf(start, intent.branch) == intent.commit != ""
    requires id !in start.parents && id != start.head && !anc(start, intent.commit, start.head)
    requires forall r: Repo :: r.head == id ==> anc(r, intent.expected, id)
    ensures out == Failed && ok && end.head == start.head && end.clean && end.branches == start.branches
  {
    var idle := World(anc, (n, r) => r, (n, r) => r);
    var h := Host(true, Commits, id, false, false, false, false, 5);
    var ws := new Workspace(idle, start);
    out := ws.WorkspaceMerge(intent, h);
    ok := ws.RollbackMerge(intent.expected, h);
    end := ws.repo;
  }
}
