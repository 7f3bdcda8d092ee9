/**
The Legacy Layout Migration: an ordered list of moves followed by one layout
transaction and one completion marker, re-executable after a crash anywhere.
Progress is never recorded; it is reconstructed from the observed paths.
*/
module Migration {
  import opened Basics

  /** A cleaned absolute path, one element per component. */
  type Path = seq<string>

  datatype MoveKind = Worktree | Artifact | Unknown

  datatype Move = Move(
    kind: MoveKind,
    source: Path,
    destination: Path,
    digest: string,
    branch: string,
    head: string)

  /** One Git worktree registry entry. */
  datatype Entry = Entry(branch: string, head: string, detached: bool)

  /**
  Everything the migration reads or writes. `trees` maps each present path to the
  digest of what lies there ("" when it cannot be digested). The migration row and
  its pending intent settle in one transaction, so `completed` stands for both.
  */
  datatype Host = Host(
    trees: map<Path, string>,
    registry: map<Path, Entry>,
    layout: int,
    completed: bool)

  /** The managed roots a move may leave and enter. */
  datatype Roots = Roots(legacyWorktrees: Path, legacyArtifacts: Path, workflowRoot: Path)

  predicate StrictlyInside(path: Path, root: Path) {
    root < path
  }

  predicate Managed(roots: Roots, mv: Move) {
    && StrictlyInside(mv.destination, roots.workflowRoot)
    && match mv.kind
       case Worktree => StrictlyInside(mv.source, roots.legacyWorktrees)
       case Artifact => StrictlyInside(mv.source, roots.legacyArtifacts)
       case Unknown => false
  }

  /** The identity check of one side of a move. */
  predicate Verified(h: Host, mv: Move, at: Path) {
    if mv.kind.Artifact? then
      at in h.trees && mv.digest != "" && h.trees[at] == mv.digest
    else
      && at in h.registry
      && h.registry[at].head == mv.head
      && h.registry[at].branch == mv.branch
      && (mv.branch == "" ==> h.registry[at].detached)
  }

  predicate Pending(h: Host, mv: Move) {
    mv.source in h.trees && mv.destination !in h.trees && Verified(h, mv, mv.source)
  }

  predicate Landed(h: Host, mv: Move) {
    mv.source !in h.trees && mv.destination in h.trees && Verified(h, mv, mv.destination)
  }

  /** A landed prefix of length `k` followed by a pending suffix. */
  ghost predicate Shape(h: Host, moves: seq<Move>, k: int) {
    && 0 <= k <= |moves|
    && (forall i :: 0 <= i < k ==> Landed(h, moves[i]))
    && (forall i :: k <= i < |moves| ==> Pending(h, moves[i]))
  }

  predicate Nested(p: Path, q: Path) {
    p <= q || q <= p
  }

  /** Neither move uses a path that equals or contains one of the other. */
  ghost predicate Apart(a: Move, b: Move) {
    && !Nested(a.source, b.source)
    && !Nested(a.destination, b.destination)
    && !Nested(a.source, b.destination)
    && !Nested(a.destination, b.source)
  }

  /** No path of the manifest equals or contains another one. */
  ghost predicate Separate(moves: seq<Move>) {
    && (forall i :: 0 <= i < |moves| ==> !Nested(moves[i].source, moves[i].destination))
    && (forall i, j {:trigger Apart(moves[i], moves[j])} ::
          0 <= i < |moves| && 0 <= j < |moves| && i != j ==> Apart(moves[i], moves[j]))
  }

  /** A new worktree may not lie at or below a registered one. */
  predicate Unclaimed(registry: map<Path, Entry>, path: Path) {
    forall p :: p in registry ==> !(p <= path)
  }

  /** The facts without which `git worktree move` or the no-replace rename refuses. */
  predicate CanMove(h: Host, mv: Move) {
    && mv.source in h.trees
    && mv.destination !in h.trees
    && (mv.kind.Worktree? ==> mv.source in h.registry && Unclaimed(h.registry, mv.destination))
    && !mv.kind.Unknown?
  }

  /** The tree, and the registry entry of a worktree, change place. */
  function Land(h: Host, mv: Move): Host {
    if !CanMove(h, mv) then h else h.(trees := (h.trees - {mv.source})[mv.destination := h.trees[mv.source]],
       registry := if mv.kind.Worktree?
         then (h.registry - {mv.source})[mv.destination := h.registry[mv.source]]
         else h.registry)
  }

  /** A `git worktree move` that died between moving the tree and moving its registry entry. */
  function Tear(h: Host, mv: Move): Host {
    if !CanMove(h, mv) then h else h.(trees := (h.trees - {mv.source})[mv.destination := h.trees[mv.source]])
  }

  /** Every state change an execution can cause. A crash stops between two of them. */
  ghost predicate Step(moves: seq<Move>, h: Host, h': Host) {
    && !h.completed
    && (|| (exists k :: Shape(h, moves, k) && k < |moves| && h.layout == 1 && CanMove(h, moves[k])
                        && (h' == Land(h, moves[k])
                            || (moves[k].kind.Worktree? && h' == Tear(h, moves[k]))))
        || (Shape(h, moves, |moves|) && h.layout == 1 && h' == h.(layout := 2))
        || (Shape(h, moves, |moves|) && h.layout == 2 && h' == h.(completed := true)))
  }

  ghost predicate StepPath(moves: seq<Move>, path: seq<Host>) {
    && path != []
    && forall i :: 0 < i < |path| ==> Step(moves, path[i-1], path[i])
  }

  /** What an execution demands of the facts before it touches anything. */
  ghost predicate Ready(h: Host, moves: seq<Move>, approved: bool) {
    && approved
    && !h.completed
    && (h.layout == 1 || h.layout == 2)
    && exists k :: Shape(h, moves, k) && (h.layout == 2 ==> k == |moves|)
  }

  /** The pending worktree moves may still be performed. */
  ghost predicate Resumable(h: Host, moves: seq<Move>) {
    exists k :: Shape(h, moves, k)
      && forall i :: k <= i < |moves| ==> CanMove(h, moves[i])
  }

  /** How the outside world answers one side effect. */
  datatype Fate = Done | Fails | DoneThenCrash | Torn

  datatype Report = Completed | Refused | Interrupted

  class MigrationHost {
    var trees: map<Path, string>
    var registry: map<Path, Entry>
    var layoutVersion: int
    var completed: bool

    constructor (h: Host)
      ensures Snapshot() == h
    {
      trees, registry, layoutVersion, completed := h.trees, h.registry, h.layout, h.completed;
    }

    function Snapshot(): Host
      reads this
    {
      Host(trees, registry, layoutVersion, completed)
    }

    /** Walks the whole manifest before the first side effect. */
    method Preflight(moves: seq<Move>, dbAdvanced: bool) returns (first: Option<nat>)
      ensures first.Some? <==> exists k :: Shape(Snapshot(), moves, k) && (dbAdvanced ==> k == |moves|)
      ensures first.Some? ==> Shape(Snapshot(), moves, first.value) && (dbAdvanced ==> first.value == |moves|)
    {
      var firstPending := |moves|;
      var pendingSeen := false;
      var i := 0;
      while i < |moves|
        invariant 0 <= i <= |moves|
        invariant !pendingSeen ==> firstPending == |moves|
        invariant pendingSeen ==> 0 <= firstPending < i && !dbAdvanced
        invariant forall j :: 0 <= j < i && j < firstPending ==> Landed(Snapshot(), moves[j])
        invariant forall j :: firstPending <= j < i ==> Pending(Snapshot(), moves[j])
      {
        var mv := moves[i];
        var src, dst := mv.source in trees, mv.destination in trees;
        if src && !dst {
          if dbAdvanced {
            return None;
          }
          pendingSeen := true;
          if firstPending == |moves| {
            firstPending := i;
          }
          if !Verified(Snapshot(), mv, mv.source) {
            return None;
          }
        } else if !src && dst {
          if pendingSeen {
            assert Pending(Snapshot(), moves[firstPending]) && !Pending(Snapshot(), moves[i]);
            return None;
          }
          if !Verified(Snapshot(), mv, mv.destination) {
            return None;
          }
        } else {
          return None;
        }
        i := i + 1;
      }
      assert Shape(Snapshot(), moves, firstPending);
      return Some(firstPending);
    }

    /** Performs one move; the world decides whether it succeeds, fails, or is cut short. */
    method PerformMove(mv: Move, roots: Roots, fate: Fate) returns (ok: bool)
      modifies this`trees, this`registry
      ensures old(CanMove(Snapshot(), mv)) && Managed(roots, mv) && fate.Done? ==> ok
      ensures Snapshot() != old(Snapshot()) || ok ==>
                && roots.workflowRoot < mv.destination && !mv.kind.Unknown?
                && (if mv.kind.Worktree? then roots.legacyWorktrees else roots.legacyArtifacts) < mv.source
      ensures ok && old(mv.source in trees) ==> old(CanMove(Snapshot(), mv)) && Snapshot() == old(Land(Snapshot(), mv))
      ensures Snapshot() != old(Snapshot()) ==>
                && old(CanMove(Snapshot(), mv))
                && (Snapshot() == old(Land(Snapshot(), mv))
                    || (mv.kind.Worktree? && fate.Torn? && Snapshot() == old(Tear(Snapshot(), mv))))
    {
      if !Managed(roots, mv) {
        return false;
      }
      match mv.kind
      case Worktree =>
        if !CanMove(Snapshot(), mv) || fate.Fails? {
          return false;
        }
        var tree, entry := trees[mv.source], registry[mv.source];
        trees := (trees - {mv.source})[mv.destination := tree];
        if fate.Torn? {
          return false;
        }
        registry := (registry - {mv.source})[mv.destination := entry];
        return fate.Done?;
      case Artifact =>
        if mv.source !in trees {
          return true;
        }
        if mv.destination in trees || fate.Fails? || fate.Torn? {
          return false;
        }
        var tree := trees[mv.source];
        trees := (trees - {mv.source})[mv.destination := tree];
        return fate.Done?;
    }

    /** Every answer the world gives from here on is a success, and no path guard or Git guard objects. */
    ghost predicate Smooth(moves: seq<Move>, roots: Roots, fate: nat -> Fate)
      reads this
    {
      && Resumable(Snapshot(), moves)
      && (forall j :: 0 <= j < |moves| ==> Managed(roots, moves[j]))
      && (forall j :: 0 <= j < |moves| + 2 ==> fate(j).Done?)
    }

    /** Performs move `i` and re-verifies it at its destination. */
    method LandOne(moves: seq<Move>, i: nat, roots: Roots, fate: Fate) returns (settled: bool)
      requires Separate(moves) && i < |moves| && Shape(Snapshot(), moves, i) && !completed && layoutVersion == 1
      modifies this`trees, this`registry
      ensures Snapshot() == old(Snapshot()) || Step(moves, old(Snapshot()), Snapshot())
      ensures settled ==> Snapshot() == Land(old(Snapshot()), moves[i]) && Shape(Snapshot(), moves, i + 1)
      ensures old(CanMove(Snapshot(), moves[i])) && Managed(roots, moves[i]) && fate.Done? ==> settled
    {
      var mv := moves[i];
      assert Pending(Snapshot(), mv);
      var ok := PerformMove(mv, roots, fate);
      if !ok {
        return false;
      }
      LandAdvances(old(Snapshot()), moves, i);
      assert Landed(Snapshot(), mv);
      return mv.destination in trees && mv.source !in trees && Verified(Snapshot(), mv, mv.destination);
    }

    /** Performs the pending moves in order, stopping at the first one that does not settle. */
    method LandPending(moves: seq<Move>, first: nat, roots: Roots, fate: nat -> Fate)
      returns (settled: bool, ghost visited: seq<Host>)
      requires Separate(moves) && Shape(Snapshot(), moves, first) && !completed
      requires layoutVersion == 1 || first == |moves|
      modifies this`trees, this`registry
      ensures StepPath(moves, visited) && visited[0] == old(Snapshot()) && visited[|visited| - 1] == Snapshot()
      ensures settled ==> Shape(Snapshot(), moves, |moves|)
      ensures old(Smooth(moves, roots, fate)) ==> settled
    {
      hide CanMove, Step, Land, Landed, Pending;
      visited := [Snapshot()];
      ghost var smooth := Smooth(moves, roots, fate);
      if smooth {
        ResumableFrom(Snapshot(), moves, first);
      }
      var i := first;
      while i < |moves|
        invariant first <= i <= |moves|
        invariant StepPath(moves, visited) && visited[0] == old(Snapshot()) && visited[|visited| - 1] == Snapshot()
        invariant Shape(Snapshot(), moves, i)
        invariant smooth ==> forall j :: i <= j < |moves| ==> CanMove(Snapshot(), moves[j])
      {
        ghost var before := Snapshot();
        settled := LandOne(moves, i, roots, fate(i));
        if Snapshot() != before {
          visited := visited + [Snapshot()];
        }
        if !settled {
          return;
        }
        if smooth {
          LandAdvances(before, moves, i);
        }
        i := i + 1;
      }
      settled := true;
    }

    /**
    One execution of the prepared migration. `visited` lists every state the host
    passes through, so a crash at any point leaves one of its elements behind.
    */
    method Execute(moves: seq<Move>, roots: Roots, approved: bool, fate: nat -> Fate)
      returns (report: Report, ghost visited: seq<Host>)
      requires Separate(moves)
      modifies this
      ensures StepPath(moves, visited) && visited[0] == old(Snapshot()) && visited[|visited| - 1] == Snapshot()
      ensures report.Refused? <==> !old(Ready(Snapshot(), moves, approved))
      ensures report.Refused? ==> Snapshot() == old(Snapshot())
      ensures report.Completed? ==> completed && layoutVersion == 2 && Shape(Snapshot(), moves, |moves|)
      ensures old(Ready(Snapshot(), moves, approved) && Smooth(moves, roots, fate)) ==> report.Completed?
    {
      if (layoutVersion != 1 && layoutVersion != 2) || completed || !approved {
        return Refused, [Snapshot()];
      }
      var advanced := layoutVersion == 2;
      var first := Preflight(moves, advanced);
      if first.None? {
        return Refused, [Snapshot()];
      }
      var settled;
      settled, visited := LandPending(moves, first.value, roots, fate);
      if !settled {
        return Interrupted, visited;
      }
      if !advanced {
        var answer := fate(|moves|);
        if answer.Fails? || answer.Torn? {
          return Interrupted, visited;
        }
        ghost var before := Snapshot();
        layoutVersion := 2;
        assert Step(moves, before, Snapshot());
        visited := visited + [Snapshot()];
        if !answer.Done? {
          return Interrupted, visited;
        }
      }
      var answer := fate(|moves| + 1);
      if answer.Fails? || answer.Torn? {
        return Interrupted, visited;
      }
      ghost var before := Snapshot();
      assert Shape(before, moves, |moves|);
      completed := true;
      assert Step(moves, before, Snapshot());
      visited := visited + [Snapshot()];
      report := if answer.Done? then Completed else Interrupted;
    }
  }

  /**
  What a preflight that found k landed moves has seen of each move: its tree at one side and not
  at the other, an artifact with its recorded digest, a worktree registered there with its
  recorded branch and head, detached if it has no branch.
  */
  lemma PreflightSaw(h: Host, moves: seq<Move>, k: int, i: nat)
    requires Shape(h, moves, k) && i < |moves|
    ensures
      var mv := moves[i];
      var at, other := if i < k then mv.destination else mv.source, if i < k then mv.source else mv.destination;
      && at in h.trees && other !in h.trees
      && (mv.kind.Artifact? ==> h.trees[at] == mv.digest != "")
      && (!mv.kind.Artifact? ==> at in h.registry && h.registry[at].branch == mv.branch && h.registry[at].head == mv.head)
      && (!mv.kind.Artifact? && mv.branch == "" ==> h.registry[at].detached)
  {
    assert i < k ==> Landed(h, moves[i]);
    assert i >= k ==> Pending(h, moves[i]);
  }

  /** And nothing else is asked: facts like these on every move are a shape. */
  lemma SeenIsShape(h: Host, moves: seq<Move>, k: nat)
    requires k <= |moves|
    requires forall i :: 0 <= i < |moves| ==> Seen(h, moves[i], i < k)
    ensures Shape(h, moves, k)
  {
  }

  predicate Seen(h: Host, mv: Move, landed: bool) {
    var at, other := if landed then mv.destination else mv.source, if landed then mv.source else mv.destination;
    && at in h.trees && other !in h.trees
    && if mv.kind.Artifact? then h.trees[at] == mv.digest != ""
       else at in h.registry && (h.registry[at] == Entry(mv.branch, mv.head, true) || (mv.branch != "" && h.registry[at] == Entry(mv.branch, mv.head, false)))
  }

  lemma ShapeUnique(h: Host, moves: seq<Move>, k: int, l: int)
    requires Shape(h, moves, k) && Shape(h, moves, l)
    ensures k == l
  {
    assert k < l ==> Landed(h, moves[k]) && !Pending(h, moves[k]);
    assert l < k ==> Landed(h, moves[l]) && !Pending(h, moves[l]);
  }

  lemma ResumableFrom(h: Host, moves: seq<Move>, k: int)
    requires Shape(h, moves, k) && Resumable(h, moves)
    ensures forall i :: k <= i < |moves| ==> CanMove(h, moves[i])
  {
    var l :| Shape(h, moves, l) && forall i :: l <= i < |moves| ==> CanMove(h, moves[i]);
    ShapeUnique(h, moves, k, l);
  }

  lemma LandKeepsOthers(h: Host, mv: Move, other: Move)
    requires CanMove(h, mv) && Apart(mv, other)
    ensures Landed(h, other) ==> Landed(Land(h, mv), other)
    ensures Pending(h, other) ==> Pending(Land(h, mv), other)
    ensures CanMove(h, other) ==> CanMove(Land(h, mv), other)
  {
    assert other.source != mv.source && other.source != mv.destination;
    assert other.destination != mv.source && other.destination != mv.destination;
  }

  /** Landing move `k` turns a prefix of length `k` into one of length `k + 1`, and frees no later move. */
  lemma LandAdvances(h: Host, moves: seq<Move>, k: nat)
    requires Separate(moves) && Shape(h, moves, k) && k < |moves| && CanMove(h, moves[k])
    ensures Shape(Land(h, moves[k]), moves, k + 1)
    ensures forall i :: k < i < |moves| && CanMove(h, moves[i]) ==> CanMove(Land(h, moves[k]), moves[i])
  {
    var h', mv := Land(h, moves[k]), moves[k];
    assert !Nested(mv.source, mv.destination) && Pending(h, mv);
    assert Landed(h', mv);
    forall i | 0 <= i < |moves| && i != k
      ensures Landed(h, moves[i]) ==> Landed(h', moves[i])
      ensures Pending(h, moves[i]) ==> Pending(h', moves[i])
      ensures CanMove(h, moves[i]) ==> CanMove(h', moves[i])
    {
      LandKeepsOthers(h, mv, moves[i]);
    }
  }

  // ---------------------------------------------------------------------------
  // Whole runs
  // ---------------------------------------------------------------------------

  /** The facts Prepare leaves behind: every move pending and performable, nothing advanced. */
  ghost predicate Prepared(h: Host, moves: seq<Move>) {
    && Separate(moves)
    && Shape(h, moves, 0)
    && (forall i :: 0 <= i < |moves| ==> CanMove(h, moves[i]))
    && h.layout == 1
    && !h.completed
  }

  /** `p` side effects after Prepare: the first `p` moves, then the layout, then the marker. */
  ghost function Checkpoint(h: Host, moves: seq<Move>, p: nat): Host {
    if p == 0 then h
    else if p <= |moves| then Land(Checkpoint(h, moves, p - 1), moves[p - 1])
    else if p == |moves| + 1 then Checkpoint(h, moves, p - 1).(layout := 2)
    else Checkpoint(h, moves, p - 1).(completed := true)
  }

  lemma DatabaseKeepsShape(c: Host, d: Host, moves: seq<Move>, k: int)
    requires Shape(c, moves, k) && d.trees == c.trees && d.registry == c.registry
    ensures Shape(d, moves, k)
  {
    assert forall mv :: Landed(c, mv) ==> Landed(d, mv);
    assert forall mv :: Pending(c, mv) ==> Pending(d, mv);
  }

  lemma {:induction false} CheckpointShape(h: Host, moves: seq<Move>, p: nat)
    requires Prepared(h, moves) && p <= |moves| + 2
    ensures var c := Checkpoint(h, moves, p);
            && Shape(c, moves, if p <= |moves| then p else |moves|)
            && (forall i :: p <= i < |moves| ==> CanMove(c, moves[i]))
            && c.layout == (if p <= |moves| then 1 else 2)
            && c.completed == (p == |moves| + 2)
  {
    if p > 0 {
      CheckpointShape(h, moves, p - 1);
      var c, d := Checkpoint(h, moves, p - 1), Checkpoint(h, moves, p);
      if p <= |moves| {
        hide Land, CanMove, Landed, Pending, Apart;
        LandAdvances(c, moves, p - 1);
        assert d == Land(c, moves[p - 1]);
      } else {
        assert d.trees == c.trees && d.registry == c.registry;
        DatabaseKeepsShape(c, d, moves, |moves|);
      }
    }
  }

  /** The torn state that a crash inside move `p` can leave. */
  ghost predicate TornAt(h: Host, moves: seq<Move>, p: nat, s: Host) {
    && p < |moves|
    && moves[p].kind.Worktree?
    && s == Tear(Checkpoint(h, moves, p), moves[p])
  }

  /** A torn worktree move matches no prefix shape, so every later execution refuses it. */
  lemma TornFailsClosed(h: Host, moves: seq<Move>, p: nat, s: Host, approved: bool)
    requires Prepared(h, moves) && TornAt(h, moves, p, s)
    ensures forall k :: !Shape(s, moves, k)
    ensures !Ready(s, moves, approved)
  {
    var c, mv := Checkpoint(h, moves, p), moves[p];
    CheckpointShape(h, moves, p);
    assert !Nested(mv.source, mv.destination);
    assert mv.destination !in s.registry by {
      assert mv.destination <= mv.destination;
    }
    assert !Landed(s, mv) && !Pending(s, mv);
  }

  /** `s` is what `p` side effects after Prepare can leave. */
  ghost predicate OnTrack(h: Host, moves: seq<Move>, p: nat, s: Host) {
    || (p <= |moves| + 2 && s == Checkpoint(h, moves, p))
    || (0 < p && TornAt(h, moves, p - 1, s))
  }

  /**
  Whatever crashes and retries happen, `j` side effects lead from checkpoint `p` to
  checkpoint `p + j`, or the run has ended in a torn move. So no move is ever performed twice.
  */
  lemma {:induction false} RunsFollowCheckpoints(h: Host, moves: seq<Move>, p: nat, path: seq<Host>, j: nat)
    requires Prepared(h, moves) && p <= |moves| + 2
    requires StepPath(moves, path) && path[0] == Checkpoint(h, moves, p) && j < |path|
    ensures OnTrack(h, moves, p + j, path[j])
  {
    if j > 0 {
      hide Step, Checkpoint, TornAt, Prepared;
      RunsFollowCheckpoints(h, moves, p, path, j - 1);
      NextOnTrack(h, moves, p + j - 1, path[j-1], path[j]);
    }
  }

  lemma NextOnTrack(h: Host, moves: seq<Move>, p: nat, s: Host, s': Host)
    requires Prepared(h, moves) && Step(moves, s, s') && OnTrack(h, moves, p, s)
    ensures OnTrack(h, moves, p + 1, s')
  {
    hide Shape, Land, Tear, Checkpoint;
    if 0 < p && TornAt(h, moves, p - 1, s) {
      TornFailsClosed(h, moves, p - 1, s, true);
    } else {
      StepFromCheckpoint(h, moves, p, s');
    }
  }

  lemma StepFromCheckpoint(h: Host, moves: seq<Move>, p: nat, s: Host)
    requires Prepared(h, moves) && p <= |moves| + 2 && Step(moves, Checkpoint(h, moves, p), s)
    ensures p < |moves| + 2
    ensures s == Checkpoint(h, moves, p + 1) || TornAt(h, moves, p, s)
  {
    var c := Checkpoint(h, moves, p);
    CheckpointShape(h, moves, p);
    if k :| Shape(c, moves, k) && k < |moves| && c.layout == 1 && CanMove(c, moves[k])
            && (s == Land(c, moves[k]) || (moves[k].kind.Worktree? && s == Tear(c, moves[k]))) {
      ShapeUnique(c, moves, k, p);
    } else if Shape(c, moves, |moves|) && c.layout == 1 {
      ShapeUnique(c, moves, |moves|, p);
    }
  }

  ghost function Landings(h: Host, moves: seq<Move>): (k: int)
    requires exists k :: Shape(h, moves, k)
    ensures Shape(h, moves, k)
  {
    var k :| Shape(h, moves, k);
    k
  }

  /** Pending moves, layout transaction and marker still to come. */
  ghost function Remaining(h: Host, moves: seq<Move>): int
    requires exists k :: Shape(h, moves, k)
  {
    |moves| - Landings(h, moves) + (if h.layout == 1 then 1 else 0) + (if h.completed then 0 else 1)
  }

  /** Every step of a run brings completion one closer, and the database never runs ahead of the moves. */
  lemma CheckpointProgress(h: Host, moves: seq<Move>, p: nat)
    requires Prepared(h, moves) && p <= |moves| + 2
    ensures var c := Checkpoint(h, moves, p);
            && (exists k :: Shape(c, moves, k))
            && Landings(c, moves) == (if p <= |moves| then p else |moves|)
            && Remaining(c, moves) == |moves| + 2 - p
            && (c.layout == 2 ==> Landings(c, moves) == |moves|)
            && (c.completed ==> c.layout == 2)
  {
    var c := Checkpoint(h, moves, p);
    CheckpointShape(h, moves, p);
    ShapeUnique(c, moves, Landings(c, moves), if p <= |moves| then p else |moves|);
  }

  /** The tree of `mv`, as it was in `h`, is at its destination in `c` when `moved`, else at its source. */
  ghost predicate Kept(h: Host, c: Host, mv: Move, moved: bool)
    requires mv.source in h.trees
  {
    var from, to := if moved then mv.destination else mv.source, if moved then mv.source else mv.destination;
    from in c.trees && to !in c.trees && c.trees[from] == h.trees[mv.source]
  }

  ghost predicate Foreign(moves: seq<Move>, q: Path) {
    forall i :: 0 <= i < |moves| ==> q != moves[i].source && q != moves[i].destination
  }

  lemma LandKeepsTrees(h: Host, c: Host, mv: Move, other: Move, moved: bool)
    requires mv.source in h.trees && other.source in h.trees && CanMove(c, mv)
    requires Apart(mv, other) && Kept(h, c, other, moved)
    ensures Kept(h, Land(c, mv), other, moved)
  {
    assert other.source != mv.source && other.source != mv.destination;
    assert other.destination != mv.source && other.destination != mv.destination;
  }

  /** Each moved tree is at exactly one of its two places, unchanged, and no other path is touched. */
  lemma {:induction false} CheckpointConserves(h: Host, moves: seq<Move>, p: nat)
    requires Prepared(h, moves) && p <= |moves| + 2
    ensures forall i :: 0 <= i < |moves| ==> Kept(h, Checkpoint(h, moves, p), moves[i], i < p)
    ensures forall q :: Foreign(moves, q) ==> SameAt(h, Checkpoint(h, moves, p), q)
  {
    if p > 0 {
      CheckpointConserves(h, moves, p - 1);
      CheckpointShape(h, moves, p - 1);
      if p <= |moves| {
        var c, mv := Checkpoint(h, moves, p - 1), moves[p - 1];
        forall i | 0 <= i < |moves| ensures Kept(h, Land(c, mv), moves[i], i < p) {
          assert Kept(h, c, moves[i], i < p - 1);
          if i != p - 1 {
            LandKeepsTrees(h, c, mv, moves[i], i < p);
          } else {
            assert !Nested(mv.source, mv.destination);
          }
        }
      }
    }
  }

  ghost predicate SameAt(h: Host, c: Host, q: Path) {
    (q in c.trees <==> q in h.trees) && (q in h.trees ==> c.trees[q] == h.trees[q])
  }

  /** From every state a crash can leave, short of a torn move, an uninterrupted execution is accepted. */
  lemma CrashLeavesReady(h: Host, moves: seq<Move>, p: nat)
    requires Prepared(h, moves) && p < |moves| + 2
    ensures Ready(Checkpoint(h, moves, p), moves, true)
    ensures Resumable(Checkpoint(h, moves, p), moves)
  {
    CheckpointShape(h, moves, p);
  }

  /** The states of a run of executions, each starting where the previous one stopped. */
  ghost predicate Chained(moves: seq<Move>, runs: seq<seq<Host>>) {
    && runs != []
    && (forall i :: 0 <= i < |runs| ==> StepPath(moves, runs[i]))
    && (forall i :: 0 < i < |runs| ==> runs[i][0] == runs[i-1][|runs[i-1]| - 1])
  }

  ghost function Joined(runs: seq<seq<Host>>): seq<Host>
    requires runs != [] && forall i :: 0 <= i < |runs| ==> runs[i] != []
  {
    if |runs| == 1 then runs[0]
    else Joined(runs[..|runs| - 1]) + runs[|runs| - 1][1..]
  }

  lemma {:induction false} JoinedIsPath(moves: seq<Move>, runs: seq<seq<Host>>)
    requires Chained(moves, runs)
    ensures var path := Joined(runs);
            && StepPath(moves, path)
            && path[0] == runs[0][0]
            && path[|path| - 1] == runs[|runs| - 1][|runs[|runs| - 1]| - 1]
  {
    if |runs| > 1 {
      var front, last := runs[..|runs| - 1], runs[|runs| - 1];
      JoinedIsPath(moves, front);
      var path := Joined(front);
      assert path[|path| - 1] == last[0];
      var whole := path + last[1..];
      forall i | 0 < i < |whole| ensures Step(moves, whole[i-1], whole[i]) {
        if i >= |path| {
          var j := i - |path| + 1;
          assert Step(moves, last[j-1], last[j]);
        }
      }
    }
  }

  /**
  Over every run of executions, crashed or not, the final host is a checkpoint or a
  torn one, at most `|moves| + 2` side effects ever happen, and a layout of version 2
  means that every move has landed.
  */
  lemma RunOfExecutions(h: Host, moves: seq<Move>, runs: seq<seq<Host>>) returns (p: nat)
    requires Prepared(h, moves) && Chained(moves, runs) && runs[0][0] == h
    ensures var path := Joined(runs);
            var final := runs[|runs| - 1][|runs[|runs| - 1]| - 1];
            && path != [] && p == |path| - 1 <= |moves| + 2
            && OnTrack(h, moves, p, final)
            && (final.layout == 2 ==> Shape(final, moves, |moves|))
            && (final.completed ==> final.layout == 2)
  {
    JoinedIsPath(moves, runs);
    var path := Joined(runs);
    p := |path| - 1;
    RunsFollowCheckpoints(h, moves, 0, path, p);
    if p <= |moves| + 2 && path[p] == Checkpoint(h, moves, p) {
      CheckpointShape(h, moves, p);
    } else {
      CheckpointShape(h, moves, p - 1);
    }
  }

  lemma FullShapeIsCheckpoint(h: Host, moves: seq<Move>, p: nat, s: Host)
    requires Prepared(h, moves) && OnTrack(h, moves, p, s) && Shape(s, moves, |moves|) && s.completed
    ensures s == Checkpoint(h, moves, |moves| + 2)
  {
    if 0 < p && TornAt(h, moves, p - 1, s) {
      TornFailsClosed(h, moves, p - 1, s, true);
    } else {
      CheckpointShape(h, moves, p);
    }
  }

  /**
  After any number of crashes, one execution in which nothing else goes wrong ends with
  every move landed, the layout at version 2 and the migration marked completed.
  */
  method Recover(h: Host, moves: seq<Move>, roots: Roots, ghost origin: Host, ghost p: nat)
    returns (final: Host)
    requires Prepared(origin, moves) && p < |moves| + 2 && h == Checkpoint(origin, moves, p)
    requires forall i :: 0 <= i < |moves| ==> Managed(roots, moves[i])
    ensures final == Checkpoint(origin, moves, |moves| + 2)
  {
    var host := new MigrationHost(h);
    CrashLeavesReady(origin, moves, p);
    var report, visited := host.Execute(moves, roots, true, (i: nat) => Done);
    final := host.Snapshot();
    RunsFollowCheckpoints(origin, moves, p, visited, |visited| - 1);
    FullShapeIsCheckpoint(origin, moves, p + |visited| - 1, final);
  }
}
