/**
Runs of dispatch passes under one plan: what holds of the RUNNING nodes over every sequence
of passes, commits, settlements, findings and crashes, and for which plans.
*/
module DispatchRuns {
  import opened Basics
  import opened Scopes
  import opened Dispatch

  /** The persisted state, and the selected nodes whose attempt is not committed yet. */
  datatype World = World(state: State, queued: set<NodeID>)

  datatype Event =
    | Begin(eligible: seq<NodeID>, gateOpen: bool)
    | Commit(id: NodeID)
    | Discard(id: NodeID)
    | Settle(id: NodeID, status: Status, successor: bool)
    | Report(findings: seq<Finding>)
    | Crash

  /** The legal moves of a node outside a dispatch; a settled node is never revived. */
  predicate Legal(from: Status, to: Status) {
    match from
    case Pending => to in {Ready, Cancelled, Skipped}
    case Ready => to in {Cancelled, Skipped}
    case Running => to in {Succeeded, Failed, Cancelled, Ready}
    case _ => false
  }

  /** The legal moves one by one; the four final statuses have none. */
  lemma LegalMoves(from: Status, to: Status)
    ensures Legal(from, to) <==> (from, to) in {
      (Pending, Ready), (Pending, Cancelled), (Pending, Skipped), (Ready, Cancelled), (Ready, Skipped),
      (Running, Succeeded), (Running, Failed), (Running, Cancelled), (Running, Ready)}
    ensures (forall next :: !Legal(from, next)) <==> from in {Succeeded, Failed, Cancelled, Skipped}
  {
    assert Legal(Pending, Ready) && Legal(Ready, Cancelled) && Legal(Running, Succeeded);
  }

  /** A commit revalidates the node's own status; a budgeted retry creates the successor attempt at once. */
  ghost predicate Enabled(plan: Plan, cap: nat, w: World, e: Event) {
    match e
    case Begin(eligible, gateOpen) => w.queued == {} && Offered(w.state, plan, gateOpen, cap, eligible)
    case Commit(id) => id in w.queued && id in w.state.nodes && w.state.nodes[id].status in {Pending, Ready}
    case Discard(id) => id in w.queued
    case Settle(id, status, successor) =>
      && id in w.state.nodes && Legal(w.state.nodes[id].status, status)
      && (successor ==> w.state.nodes[id].status == Running && status == Ready)
    case Report(_) => true
    case Crash => true
  }

  function WithStatus(state: State, id: NodeID, status: Status): State
    requires id in state.nodes
  {
    state.(nodes := state.nodes[id := state.nodes[id].(status := status)])
  }

  /** A checkpoint succeeds as it is committed; every other node becomes RUNNING with a new attempt. */
  function Started(state: State, id: NodeID): State
    requires id in state.nodes
  {
    if state.nodes[id].kind == Checkpoint then WithStatus(state, id, Succeeded)
    else WithStatus(state, id, Running).(attempts := state.attempts + 1)
  }

  ghost function Advance(plan: Plan, runBudget: nat, cap: nat, w: World, e: Event): World
    requires Enabled(plan, cap, w, e)
  {
    match e
    case Begin(eligible, _) =>
      var selected := Greedy(w.state, plan, runBudget, eligible).selected;
      w.(queued := set i | 0 <= i < |selected| :: selected[i])
    case Commit(id) => World(Started(w.state, id), w.queued - {id})
    case Discard(id) => w.(queued := w.queued - {id})
    case Settle(id, status, successor) =>
      var settled := WithStatus(w.state, id, status);
      w.(state := settled.(attempts := settled.attempts + (if successor then 1 else 0)))
    case Report(findings) => w.(state := w.state.(findings := findings))
    case Crash => w.(queued := {})
  }

  /** RUNNING nodes and nodes about to run. */
  function Active(w: World): set<NodeID> {
    RunningNodes(w.state) + w.queued
  }

  function SucceededNodes(state: State): set<NodeID> {
    set id | id in state.nodes && state.nodes[id].status == Succeeded
  }

  /** The installed graph is the plan's: same nodes, same kinds. */
  ghost predicate Installed(plan: Plan, state: State) {
    && state.nodes.Keys == plan.Keys
    && forall id :: id in plan ==> state.nodes[id].kind == plan[id].kind
  }

  // ---------------------------------------------------------------------------
  // Which nodes can meet
  // ---------------------------------------------------------------------------

  /** Nodes in an order in which they can run one after the other; a review node never runs. */
  ghost predicate Lineup(plan: Plan, line: seq<NodeID>) {
    && Distinct(line)
    && (forall i :: 0 <= i < |line| ==> line[i] in plan && plan[line[i]].kind != Review)
    && (forall i, d :: 0 <= i < |line| && d in plan[line[i]].deps ==> d in line[..i])
  }

  /** Everything both nodes wait for can have run before either starts. */
  ghost predicate Meeting(plan: Plan, line: seq<NodeID>, x: NodeID, y: NodeID)
    requires x in plan && y in plan
  {
    && Lineup(plan, line) && x !in line && y !in line
    && (forall d <- plan[x].deps :: d in line) && (forall d <- plan[y].deps :: d in line)
  }

  ghost predicate CanMeet(plan: Plan, x: NodeID, y: NodeID)
    requires x in plan && y in plan
  {
    exists line :: Meeting(plan, line, x, y)
  }

  /** Of two agent tasks that can meet and could write one path, each conflicts with the other placed before it. */
  ghost predicate Judicious(plan: Plan) {
    forall x, y | x in plan && y in plan && x != y && plan[x].kind == plan[y].kind == AgentTask ::
      CanMeet(plan, x, y) && Contested(plan[x].writeScope, plan[y].writeScope) ==> Conflict(plan[x], plan[y])
  }

  // ---------------------------------------------------------------------------
  // The invariant
  // ---------------------------------------------------------------------------

  /** Not two merges, and of two agent tasks one was found free of conflict with the other. */
  ghost predicate Compatible(plan: Plan, x: NodeID, y: NodeID) {
    && x in plan
    && y in plan
    && (plan[x].kind == plan[y].kind == AgentTask ==> !Conflict(plan[x], plan[y]) || !Conflict(plan[y], plan[x]))
    && !(plan[x].kind == plan[y].kind == Merge)
  }

  /** The node runs, or may: it is no review, and all it waits for has succeeded. */
  ghost predicate Grounded(plan: Plan, state: State, x: NodeID) {
    x in plan && plan[x].kind != Review && forall d <- plan[x].deps :: d in SucceededNodes(state)
  }

  /** The succeeded nodes, in an order in which they can have run. */
  ghost predicate Lists(plan: Plan, line: seq<NodeID>, state: State) {
    Lineup(plan, line) && forall id :: id in line <==> id in SucceededNodes(state)
  }

  ghost predicate InOrder(plan: Plan, state: State) {
    exists line :: Lists(plan, line, state)
  }

  ghost predicate Inv(plan: Plan, cap: nat, w: World) {
    && Installed(plan, w.state)
    && w.queued <= plan.Keys
    && (forall x, y :: x in Active(w) && y in Active(w) && x != y ==> Compatible(plan, x, y))
    && (cap > 0 ==> |Active(w)| <= cap)
    && (forall x :: x in Active(w) ==> Grounded(plan, w.state, x))
    && InOrder(plan, w.state)
  }

  lemma StillToRun(state: State, plan: Plan, gateOpen: bool, x: NodeID)
    requires Schedulable(state, plan, gateOpen, x)
    ensures x in state.nodes && state.nodes[x].status != Succeeded && state.nodes[x].status != Running
    ensures x in plan && plan[x].kind != Review ==> Grounded(plan, state, x)
  {
  }

  lemma BeginInv(plan: Plan, runBudget: nat, cap: nat, w: World, e: Event)
    requires Inv(plan, cap, w) && Enabled(plan, cap, w, e) && e.Begin?
    ensures Inv(plan, cap, Advance(plan, runBudget, cap, w, e))
  {
    hide Blocked, Conflict, Greedy, Schedulable, InOrder, Grounded;
    var w' := Advance(plan, runBudget, cap, w, e);
    var selected := Greedy(w.state, plan, runBudget, e.eligible).selected;
    BatchIsSafe(w.state, plan, runBudget, e.eligible);
    BatchFromOffer(w.state, plan, runBudget, e.eligible);
    forall x | x in Active(w') ensures Grounded(plan, w'.state, x) {
      if x in w'.queued {
        assert Schedulable(w.state, plan, e.gateOpen, x);
        StillToRun(w.state, plan, e.gateOpen, x);
      } else {
        assert x in Active(w);
      }
    }
    forall x, y | x in Active(w') && y in Active(w') && x != y ensures Compatible(plan, x, y) {
      BesideEachOther(plan, runBudget, cap, w, e, x, y);
    }
    QueuedCount(selected, w'.queued);
  }

  lemma BesideEachOther(plan: Plan, runBudget: nat, cap: nat, w: World, e: Event, x: NodeID, y: NodeID)
    requires Inv(plan, cap, w) && Enabled(plan, cap, w, e) && e.Begin? && x != y
    requires x in Active(Advance(plan, runBudget, cap, w, e)) && y in Active(Advance(plan, runBudget, cap, w, e))
    ensures Compatible(plan, x, y)
  {
    hide Blocked, Conflict, Greedy, Schedulable, InOrder, Grounded, Offered;
    var w' := Advance(plan, runBudget, cap, w, e);
    var selected := Greedy(w.state, plan, runBudget, e.eligible).selected;
    BatchIsSafe(w.state, plan, runBudget, e.eligible);
    if x in w'.queued && y in w'.queued {
      var i, j :| 0 <= i < |selected| && 0 <= j < |selected| && selected[i] == x && selected[j] == y;
      if i < j {
        assert plan[y].kind == AgentTask ==> !Conflict(plan[selected[i]], plan[selected[j]]);
      } else {
        assert plan[x].kind == AgentTask ==> !Conflict(plan[selected[j]], plan[selected[i]]);
      }
    } else if x in RunningNodes(w.state) && y in RunningNodes(w.state) {
      assert x in Active(w) && y in Active(w);
    } else {
      var r, q := if x in w'.queued then y else x, if x in w'.queued then x else y;
      assert plan[r].kind == AgentTask ==> w.state.nodes[r] == NodeState(AgentTask, Running);
      assert plan[q].kind == AgentTask ==> !ConflictsRunning(w.state, plan, plan[q]);
      assert plan[r].kind == Merge ==> MergeRunning(w.state);
    }
  }

  lemma {:induction false} QueuedCount(selected: seq<NodeID>, queued: set<NodeID>)
    requires queued == set i | 0 <= i < |selected| :: selected[i]
    ensures |queued| <= |selected|
  {
    if selected != [] {
      var n := |selected| - 1;
      var rest := set i | 0 <= i < n :: selected[i];
      assert rest == set i | 0 <= i < |selected[..n]| :: selected[..n][i];
      QueuedCount(selected[..n], rest);
      assert queued == rest + {selected[n]};
    }
  }

  /** A node that can run joins the line of succeeded ones at its end. */
  lemma JoinsLine(plan: Plan, state: State, state': State, x: NodeID)
    requires InOrder(plan, state) && Grounded(plan, state, x) && x !in SucceededNodes(state)
    requires SucceededNodes(state') == SucceededNodes(state) + {x}
    ensures InOrder(plan, state')
  {
    var line :| Lists(plan, line, state);
    var longer := line + [x];
    forall i, d | 0 <= i < |longer| && d in plan[longer[i]].deps ensures d in longer[..i] {
      assert longer[..i] == if i < |line| then line[..i] else line;
    }
    assert Lists(plan, longer, state');
  }

  lemma SameLine(plan: Plan, state: State, state': State)
    requires InOrder(plan, state) && SucceededNodes(state') == SucceededNodes(state)
    ensures InOrder(plan, state')
  {
    var line :| Lists(plan, line, state);
    assert Lists(plan, line, state');
  }

  /** Outside a new pass no node becomes active, and at most one active node succeeds. */
  lemma StepEffect(plan: Plan, runBudget: nat, cap: nat, w: World, e: Event)
    requires Inv(plan, cap, w) && Enabled(plan, cap, w, e) && !e.Begin?
    ensures
      var w' := Advance(plan, runBudget, cap, w, e);
      && Installed(plan, w'.state) && w'.queued <= w.queued && Active(w') <= Active(w)
      && SucceededNodes(w.state) <= SucceededNodes(w'.state)
      && (SucceededNodes(w'.state) == SucceededNodes(w.state)
          || exists x :: x in Active(w) && x !in SucceededNodes(w.state) && SucceededNodes(w'.state) == SucceededNodes(w.state) + {x})
  {
    hide Compatible, InOrder, Grounded;
    var w' := Advance(plan, runBudget, cap, w, e);
    if e.Commit? && w.state.nodes[e.id].kind == Checkpoint {
      assert SucceededNodes(w'.state) == SucceededNodes(w.state) + {e.id};
      assert e.id in Active(w);
    } else if e.Settle? && e.status == Succeeded {
      assert SucceededNodes(w'.state) == SucceededNodes(w.state) + {e.id};
      assert e.id in Active(w);
    } else {
      assert SucceededNodes(w'.state) == SucceededNodes(w.state);
    }
  }

  lemma StepInv(plan: Plan, runBudget: nat, cap: nat, w: World, e: Event)
    requires Inv(plan, cap, w) && Enabled(plan, cap, w, e)
    ensures Inv(plan, cap, Advance(plan, runBudget, cap, w, e))
  {
    if e.Begin? {
      BeginInv(plan, runBudget, cap, w, e);
    } else {
      var w' := Advance(plan, runBudget, cap, w, e);
      StepEffect(plan, runBudget, cap, w, e);
      hide Compatible, Installed, InOrder, Enabled, Advance, Grounded;
      if SucceededNodes(w'.state) == SucceededNodes(w.state) {
        SameLine(plan, w.state, w'.state);
      } else {
        var x :| x in Active(w) && x !in SucceededNodes(w.state) && SucceededNodes(w'.state) == SucceededNodes(w.state) + {x};
        JoinsLine(plan, w.state, w'.state, x);
      }
      SubsetSize(Active(w'), Active(w));
      forall x | x in Active(w') ensures Grounded(plan, w'.state, x) {
        StaysGrounded(plan, w.state, w'.state, x);
      }
    }
  }

  lemma StaysGrounded(plan: Plan, state: State, state': State, x: NodeID)
    requires Grounded(plan, state, x) && SucceededNodes(state) <= SucceededNodes(state')
    ensures Grounded(plan, state', x)
  {
  }

  // ---------------------------------------------------------------------------
  // Every run
  // ---------------------------------------------------------------------------

  /** Nothing runs, and what has succeeded can have run: a fresh graph, or one left between two runs. */
  ghost predicate Starts(plan: Plan, w: World) {
    Installed(plan, w.state) && Active(w) == {} && InOrder(plan, w.state)
  }

  ghost predicate Run(plan: Plan, runBudget: nat, cap: nat, worlds: seq<World>, events: seq<Event>) {
    Steps(plan, runBudget, cap, worlds, events) && Starts(plan, worlds[0])
  }

  ghost predicate Steps(plan: Plan, runBudget: nat, cap: nat, worlds: seq<World>, events: seq<Event>) {
    && |worlds| == |events| + 1
    && forall i :: 0 <= i < |events| ==> Follows(plan, runBudget, cap, worlds[i], events[i], worlds[i + 1])
  }

  ghost predicate Follows(plan: Plan, runBudget: nat, cap: nat, w: World, e: Event, w': World) {
    Enabled(plan, cap, w, e) && w' == Advance(plan, runBudget, cap, w, e)
  }

  lemma {:induction false} RunInv(plan: Plan, runBudget: nat, cap: nat, worlds: seq<World>, events: seq<Event>, i: nat)
    requires Run(plan, runBudget, cap, worlds, events) && i < |worlds|
    ensures Inv(plan, cap, worlds[i])
  {
    hide Follows;
    if i > 0 {
      RunInv(plan, runBudget, cap, worlds, events, i - 1);
      hide Inv;
      assert Follows(plan, runBudget, cap, worlds[i - 1], events[i - 1], worlds[i - 1 + 1]);
      FollowsInv(plan, runBudget, cap, worlds[i - 1], events[i - 1], worlds[i]);
    }
  }

  lemma FollowsInv(plan: Plan, runBudget: nat, cap: nat, w: World, e: Event, w': World)
    requires Inv(plan, cap, w) && Follows(plan, runBudget, cap, w, e, w')
    ensures Inv(plan, cap, w')
  {
    StepInv(plan, runBudget, cap, w, e);
  }

  lemma ContestedSymmetric(a: seq<string>, b: seq<string>)
    ensures Contested(a, b) ==> Contested(b, a)
  {
    if Contested(a, b) {
      var path :| Admits(a, path) && Admits(b, path);
      assert Admits(b, path) && Admits(a, path);
    }
  }

  /** Two nodes that are active at once can meet. */
  lemma ActiveNodesCanMeet(plan: Plan, cap: nat, w: World, x: NodeID, y: NodeID)
    requires Inv(plan, cap, w) && x in RunningNodes(w.state) && y in RunningNodes(w.state)
    ensures x in plan && y in plan && CanMeet(plan, x, y) && CanMeet(plan, y, x)
  {
    assert x in Active(w) && y in Active(w);
    assert Grounded(plan, w.state, x) && Grounded(plan, w.state, y);
    hide Compatible;
    var line :| Lists(plan, line, w.state);
    assert Meeting(plan, line, x, y) && Meeting(plan, line, y, x);
  }

  /**
  Over every run: RUNNING agent tasks never share a lock, at most one merge node is RUNNING,
  the RUNNING nodes stay within the cap, and under a judicious plan no path is writable by two
  RUNNING agent tasks.
  */
  lemma RunningTasksAreDisjoint(
      plan: Plan, runBudget: nat, cap: nat, worlds: seq<World>, events: seq<Event>, i: nat, x: NodeID, y: NodeID)
    requires Run(plan, runBudget, cap, worlds, events) && i < |worlds|
    requires x in RunningNodes(worlds[i].state) && y in RunningNodes(worlds[i].state) && x != y
    ensures x in plan && y in plan
    ensures !(plan[x].kind == Merge && plan[y].kind == Merge)
    ensures cap > 0 ==> |RunningNodes(worlds[i].state)| <= cap
    ensures plan[x].kind == AgentTask && plan[y].kind == AgentTask ==>
              && !SharesLock(plan[x], plan[y])
              && (Judicious(plan) ==> !Contested(plan[x].writeScope, plan[y].writeScope))
  {
    hide Overlap, Contested, Run;
    RunInv(plan, runBudget, cap, worlds, events, i);
    var w := worlds[i];
    ActiveNodesCanMeet(plan, cap, w, x, y);
    hide CanMeet, InOrder, Grounded, Installed;
    assert x in Active(w) && y in Active(w);
    assert Compatible(plan, x, y);
    SubsetSize(RunningNodes(w.state), Active(w));
    ContestedSymmetric(plan[x].writeScope, plan[y].writeScope);
  }

  /** In the whole run no path is writable by two RUNNING agent tasks. */
  ghost predicate NeverContested(plan: Plan, worlds: seq<World>) {
    forall i, x, y | 0 <= i < |worlds| && x in plan && y in plan && x != y
        && {x, y} <= RunningNodes(worlds[i].state) && plan[x].kind == plan[y].kind == AgentTask ::
      !Contested(plan[x].writeScope, plan[y].writeScope)
  }

  lemma SafePlan(plan: Plan, runBudget: nat, cap: nat, worlds: seq<World>, events: seq<Event>)
    requires (cap == 1 || Judicious(plan)) && Run(plan, runBudget, cap, worlds, events)
    ensures NeverContested(plan, worlds)
  {
    forall i, x, y | 0 <= i < |worlds| && x in plan && y in plan && x != y
        && {x, y} <= RunningNodes(worlds[i].state) && plan[x].kind == plan[y].kind == AgentTask
      ensures !Contested(plan[x].writeScope, plan[y].writeScope)
    {
      hide *;
      RunningTasksAreDisjoint(plan, runBudget, cap, worlds, events, i, x, y);
      SubsetSize({x, y}, RunningNodes(worlds[i].state));
    }
  }

  /** Scope entries that normalize in one step make the plan judicious. */
  lemma StablePlanIsJudicious(plan: Plan)
    requires forall x, i :: x in plan && 0 <= i < |plan[x].writeScope| ==> Stable(plan[x].writeScope[i])
    ensures Judicious(plan)
  {
    hide Stable, Slashless;
    forall x, y | x in plan && y in plan && Contested(plan[x].writeScope, plan[y].writeScope)
      ensures Conflict(plan[x], plan[y])
    {
      forall j | 0 <= j < |plan[y].writeScope| ensures Slashless(plan[y].writeScope[j]) {
        StableIsSlashless(plan[y].writeScope[j]);
      }
      ContestedMeansOverlap(plan[x].writeScope, plan[y].writeScope);
    }
  }

  // ---------------------------------------------------------------------------
  // A plan that is not judicious clashes
  // ---------------------------------------------------------------------------

  /** The graph with some nodes succeeded, some RUNNING and the others untouched. */
  function Staged(plan: Plan, done: set<NodeID>, running: set<NodeID>, attempts: nat): State {
    State(map id | id in plan ::
            NodeState(plan[id].kind, if id in done then Succeeded else if id in running then Running else Pending),
          attempts, [])
  }

  /** A node that can run and finds no opposition is selected alone. */
  lemma SelectsAlone(state: State, plan: Plan, runBudget: nat, x: NodeID)
    requires x in plan && plan[x].kind != Review && state.attempts < runBudget && state.findings == []
    requires plan[x].kind == Merge ==> !MergeRunning(state)
    requires plan[x].kind == AgentTask ==> !ConflictsRunning(state, plan, plan[x])
    ensures Greedy(state, plan, runBudget, [x]).selected == [x]
  {
    hide Conflict;
    assert [x][..0] == [];
    assert Greedy(state, plan, runBudget, []) == Batch([], false);
    assert !ConflictsSelected(plan, [], plan[x]);
  }

  /** The pass offers and runs one node: two events. */
  lemma Launch(plan: Plan, runBudget: nat, cap: nat, state: State, x: NodeID)
    requires x in plan && x in state.nodes && plan[x].kind != Review && state.attempts < runBudget && state.findings == []
    requires plan[x].kind == Merge ==> !MergeRunning(state)
    requires plan[x].kind == AgentTask ==> !ConflictsRunning(state, plan, plan[x])
    requires state.nodes[x].status == Pending && Grounded(plan, state, x)
    requires cap == 0 || |RunningNodes(state)| + 1 <= cap
    ensures Follows(plan, runBudget, cap, World(state, {}), Begin([x], true), World(state, {x}))
    ensures Follows(plan, runBudget, cap, World(state, {x}), Commit(x), World(Started(state, x), {}))
  {
    hide Conflict, Greedy, MergeRunning, ConflictsRunning;
    SelectsAlone(state, plan, runBudget, x);
    assert Schedulable(state, plan, true, x);
    assert Offered(state, plan, true, cap, [x]);
    assert (set i | 0 <= i < |[x]| :: [x][i]) == {x} by {
      assert [x][0] == x;
    }
    assert {x} - {x} == {};
  }

  lemma StagedFacts(plan: Plan, done: set<NodeID>, running: set<NodeID>, attempts: nat, x: NodeID)
    requires done + running <= plan.Keys && done !! running && x in plan && x !in done + running
    ensures
      var s := Staged(plan, done, running, attempts);
      && Installed(plan, s) && RunningNodes(s) == running && SucceededNodes(s) == done && s.attempts == attempts
      && s.findings == [] && s.nodes[x].status == Pending
      && (plan[x].kind == Checkpoint ==> Started(s, x) == Staged(plan, done + {x}, running, attempts))
      && (plan[x].kind != Checkpoint ==>
          && Started(s, x) == Staged(plan, done, running + {x}, attempts + 1)
          && WithStatus(Started(s, x), x, Succeeded) == Staged(plan, done + {x}, running, attempts + 1))
  {
  }

  lemma NothingOpposes(plan: Plan, state: State, x: NodeID)
    requires RunningNodes(state) == {} && x in plan
    ensures !MergeRunning(state) && !ConflictsRunning(state, plan, plan[x])
  {
    hide Conflict;
    assert forall id :: id in state.nodes && state.nodes[id].status == Running ==> id in RunningNodes(state);
  }

  lemma SucceedsNext(plan: Plan, runBudget: nat, cap: nat, state: State, x: NodeID)
    requires x in state.nodes && state.nodes[x].kind != Checkpoint
    ensures Follows(plan, runBudget, cap, World(Started(state, x), {}), Settle(x, Succeeded, false),
                    World(WithStatus(Started(state, x), x, Succeeded), {}))
  {
  }

  lemma LaunchIdle(plan: Plan, runBudget: nat, cap: nat, done: set<NodeID>, attempts: nat, x: NodeID)
    requires x in plan && done <= plan.Keys && x !in done && plan[x].kind != Review && attempts < runBudget
    requires forall d <- plan[x].deps :: d in done
    ensures
      var s := Staged(plan, done, {}, attempts);
      && x in s.nodes && s.nodes[x].kind == plan[x].kind
      && Follows(plan, runBudget, cap, World(s, {}), Begin([x], true), World(s, {x}))
      && Follows(plan, runBudget, cap, World(s, {x}), Commit(x), World(Started(s, x), {}))
  {
    var s := Staged(plan, done, {}, attempts);
    StagedFacts(plan, done, {}, attempts, x);
    NothingOpposes(plan, s, x);
    hide Staged, Follows, Conflict, MergeRunning, ConflictsRunning, Started;
    Launch(plan, runBudget, cap, s, x);
  }

  lemma TwoSteps(plan: Plan, runBudget: nat, cap: nat, worlds: seq<World>, events: seq<Event>)
    requires |worlds| == 3 && |events| == 2
    requires Follows(plan, runBudget, cap, worlds[0], events[0], worlds[1])
    requires Follows(plan, runBudget, cap, worlds[1], events[1], worlds[2])
    ensures Steps(plan, runBudget, cap, worlds, events)
  {
    hide Follows;
  }

  /** One more node of the line runs and succeeds. */
  lemma RunOne(plan: Plan, runBudget: nat, cap: nat, done: set<NodeID>, attempts: nat, x: NodeID)
    returns (worlds: seq<World>, events: seq<Event>)
    requires x in plan && done <= plan.Keys && x !in done && plan[x].kind != Review && attempts < runBudget
    requires forall d <- plan[x].deps :: d in done
    ensures |worlds| == |events| + 1
    ensures Steps(plan, runBudget, cap, worlds, events) && worlds[0] == World(Staged(plan, done, {}, attempts), {})
    ensures worlds[|events|] == World(Staged(plan, done + {x}, {}, attempts + (if plan[x].kind == Checkpoint then 0 else 1)), {})
  {
    var s := Staged(plan, done, {}, attempts);
    StagedFacts(plan, done, {}, attempts, x);
    LaunchIdle(plan, runBudget, cap, done, attempts, x);
    hide *;
    var t := Started(s, x);
    worlds, events := [World(s, {}), World(s, {x}), World(t, {})], [Begin([x], true), Commit(x)];
    TwoSteps(plan, runBudget, cap, worlds, events);
    if plan[x].kind != Checkpoint {
      SucceedsNext(plan, runBudget, cap, s, x);
      var u := WithStatus(t, x, Succeeded);
      OneStep(plan, runBudget, cap, [World(t, {}), World(u, {})], [Settle(x, Succeeded, false)]);
      JoinSteps(plan, runBudget, cap, worlds, events, [World(t, {}), World(u, {})], [Settle(x, Succeeded, false)]);
      worlds, events := worlds + [World(t, {}), World(u, {})][1..], events + [Settle(x, Succeeded, false)];
    }
  }

  lemma OneStep(plan: Plan, runBudget: nat, cap: nat, worlds: seq<World>, events: seq<Event>)
    requires |worlds| == 2 && |events| == 1 && Follows(plan, runBudget, cap, worlds[0], events[0], worlds[1])
    ensures Steps(plan, runBudget, cap, worlds, events)
  {
    hide Follows;
  }

  lemma JoinSteps(plan: Plan, runBudget: nat, cap: nat, ws: seq<World>, es: seq<Event>, vs: seq<World>, fs: seq<Event>)
    requires Steps(plan, runBudget, cap, ws, es) && Steps(plan, runBudget, cap, vs, fs) && ws[|es|] == vs[0]
    ensures
      var worlds, events := ws + vs[1..], es + fs;
      Steps(plan, runBudget, cap, worlds, events) && worlds[0] == ws[0] && worlds[|events|] == vs[|fs|]
  {
    hide Follows;
    var worlds, events := ws + vs[1..], es + fs;
    forall i | 0 <= i < |events| ensures Follows(plan, runBudget, cap, worlds[i], events[i], worlds[i + 1]) {
      if i >= |es| {
        var j := i - |es|;
        assert Follows(plan, runBudget, cap, vs[j], fs[j], vs[j + 1]);
        assert worlds[i] == vs[j] && worlds[i + 1] == vs[j + 1] && events[i] == fs[j];
      } else {
        assert Follows(plan, runBudget, cap, ws[i], es[i], ws[i + 1]);
      }
    }
  }

  ghost function Firsts(line: seq<NodeID>, k: nat): set<NodeID>
    requires k <= |line|
  {
    set i | 0 <= i < k :: line[i]
  }

  /** The charged nodes among those done, each of which took one attempt. */
  ghost function Spent(plan: Plan, done: set<NodeID>): nat {
    |Charged(plan) * done|
  }

  /** The whole line runs, one node after the other. */
  lemma {:induction false} RunLine(plan: Plan, runBudget: nat, cap: nat, line: seq<NodeID>, k: nat)
    returns (worlds: seq<World>, events: seq<Event>)
    requires Lineup(plan, line) && k <= |line|
    requires Spent(plan, Firsts(line, |line|)) < runBudget
    ensures |worlds| == |events| + 1
    ensures Steps(plan, runBudget, cap, worlds, events) && worlds[0] == World(Staged(plan, {}, {}, 0), {})
    ensures worlds[|events|] == World(Staged(plan, Firsts(line, k), {}, Spent(plan, Firsts(line, k))), {})
  {
    hide *;
    if k == 0 {
      BeforeLine(plan, line);
      worlds, events := [World(Staged(plan, {}, {}, 0), {})], [];
      NoStep(plan, runBudget, cap, worlds[0]);
    } else {
      worlds, events := RunLine(plan, runBudget, cap, line, k - 1);
      var x, done := line[k - 1], Firsts(line, k - 1);
      NextInLine(plan, line, k);
      SpentGrows(plan, line, k - 1);
      var vs, fs := RunOne(plan, runBudget, cap, done, Spent(plan, done), x);
      JoinSteps(plan, runBudget, cap, worlds, events, vs, fs);
      worlds, events := worlds + vs[1..], events + fs;
    }
  }

  lemma BeforeLine(plan: Plan, line: seq<NodeID>)
    ensures Firsts(line, 0) == {} && Spent(plan, {}) == 0
  {
    assert Charged(plan) * {} == {};
  }

  lemma NoStep(plan: Plan, runBudget: nat, cap: nat, w: World)
    ensures Steps(plan, runBudget, cap, [w], [])
  {
  }

  lemma NextInLine(plan: Plan, line: seq<NodeID>, k: nat)
    requires Lineup(plan, line) && 0 < k <= |line|
    ensures
      var x, done := line[k - 1], Firsts(line, k - 1);
      && x in plan && plan[x].kind != Review && x !in done && done <= plan.Keys
      && (forall d <- plan[x].deps :: d in done)
      && Firsts(line, k) == done + {x}
      && Spent(plan, Firsts(line, k)) == Spent(plan, done) + (if plan[x].kind == Checkpoint then 0 else 1)
  {
    var x, done := line[k - 1], Firsts(line, k - 1);
    forall d | d in plan[x].deps ensures d in done {
      assert d in line[..k - 1];
    }
    assert Charged(plan) * Firsts(line, k) == if plan[x].kind == Checkpoint then Charged(plan) * done else Charged(plan) * done + {x};
  }

  lemma SpentGrows(plan: Plan, line: seq<NodeID>, k: nat)
    requires k <= |line|
    ensures Spent(plan, Firsts(line, k)) <= Spent(plan, Firsts(line, |line|))
  {
    SubsetSize(Charged(plan) * Firsts(line, k), Charged(plan) * Firsts(line, |line|));
  }

  /** What both wait for runs, then the first starts, then the second beside it. */
  lemma PlacedBeside(plan: Plan, runBudget: nat, cap: nat, line: seq<NodeID>, x: NodeID, y: NodeID)
    returns (worlds: seq<World>, events: seq<Event>)
    requires |Charged(plan)| <= runBudget && cap != 1
    requires x in plan && y in plan && x != y && plan[x].kind == plan[y].kind == AgentTask
    requires Meeting(plan, line, x, y) && !Conflict(plan[x], plan[y])
    ensures Run(plan, runBudget, cap, worlds, events) && {x, y} <= RunningNodes(worlds[|events|].state)
  {
    var done := Firsts(line, |line|);
    var spent := Spent(plan, done);
    assert spent + 2 <= |Charged(plan)| by {
      SubsetSize(Charged(plan) * done + {x, y}, Charged(plan));
    }
    var s := Staged(plan, done, {}, spent);
    var t, u := Staged(plan, done, {x}, spent + 1), Staged(plan, done, {x, y}, spent + 2);
    LineHolds(plan, line, x, y);
    LaunchBoth(plan, runBudget, cap, done, spent, x, y);
    FreshStart(plan);
    BothRun(plan, done, x, y, spent + 2);
    worlds, events := RunLine(plan, runBudget, cap, line, |line|);
    hide Staged, Follows, Conflict, RunningNodes, Started, WithStatus, Charged, Lineup, Starts, Meeting;
    var ws := [World(s, {}), World(s, {x}), World(t, {})];
    var vs := [World(t, {}), World(t, {y}), World(u, {})];
    TwoSteps(plan, runBudget, cap, ws, [Begin([x], true), Commit(x)]);
    TwoSteps(plan, runBudget, cap, vs, [Begin([y], true), Commit(y)]);
    JoinSteps(plan, runBudget, cap, worlds, events, ws, [Begin([x], true), Commit(x)]);
    worlds, events := worlds + ws[1..], events + [Begin([x], true), Commit(x)];
    JoinSteps(plan, runBudget, cap, worlds, events, vs, [Begin([y], true), Commit(y)]);
    worlds, events := worlds + vs[1..], events + [Begin([y], true), Commit(y)];
  }

  lemma LineHolds(plan: Plan, line: seq<NodeID>, x: NodeID, y: NodeID)
    requires x in plan && y in plan && Meeting(plan, line, x, y)
    ensures
      var done := Firsts(line, |line|);
      && done <= plan.Keys && x !in done && y !in done
      && (forall d <- plan[x].deps :: d in done) && (forall d <- plan[y].deps :: d in done)
  {
  }

  lemma LaunchBoth(plan: Plan, runBudget: nat, cap: nat, done: set<NodeID>, spent: nat, x: NodeID, y: NodeID)
    requires x in plan && y in plan && x != y && plan[x].kind == plan[y].kind == AgentTask && !Conflict(plan[x], plan[y])
    requires done <= plan.Keys && x !in done && y !in done && spent + 2 <= runBudget && cap != 1
    requires (forall d <- plan[x].deps :: d in done) && (forall d <- plan[y].deps :: d in done)
    ensures
      var s, t, u := Staged(plan, done, {}, spent), Staged(plan, done, {x}, spent + 1), Staged(plan, done, {x, y}, spent + 2);
      && Follows(plan, runBudget, cap, World(s, {}), Begin([x], true), World(s, {x}))
      && Follows(plan, runBudget, cap, World(s, {x}), Commit(x), World(t, {}))
      && Follows(plan, runBudget, cap, World(t, {}), Begin([y], true), World(t, {y}))
      && Follows(plan, runBudget, cap, World(t, {y}), Commit(y), World(u, {}))
  {
    hide *;
    LaunchIdle(plan, runBudget, cap, done, spent, x);
    assert Started(Staged(plan, done, {}, spent), x) == Staged(plan, done, {x}, spent + 1) by {
      StagedFacts(plan, done, {}, spent, x);
      assert {} + {x} == {x};
    }
    LaunchBeside(plan, runBudget, cap, done, spent + 1, x, y);
  }

  lemma LaunchBeside(plan: Plan, runBudget: nat, cap: nat, done: set<NodeID>, attempts: nat, x: NodeID, y: NodeID)
    requires x in plan && y in plan && x != y && plan[y].kind == AgentTask && !Conflict(plan[x], plan[y])
    requires done <= plan.Keys && x !in done && y !in done && attempts < runBudget && cap != 1
    requires forall d <- plan[y].deps :: d in done
    ensures
      var t, u := Staged(plan, done, {x}, attempts), Staged(plan, done, {x, y}, attempts + 1);
      && Follows(plan, runBudget, cap, World(t, {}), Begin([y], true), World(t, {y}))
      && Follows(plan, runBudget, cap, World(t, {y}), Commit(y), World(u, {}))
  {
    var t := Staged(plan, done, {x}, attempts);
    StagedFacts(plan, done, {x}, attempts, y);
    assert {x} + {y} == {x, y};
    OnlyOneOpposes(plan, t, x, y);
    assert Grounded(plan, t, y);
    hide Staged, Follows, Conflict, MergeRunning, ConflictsRunning, Started, WithStatus, Installed, Grounded, SucceededNodes;
    Launch(plan, runBudget, cap, t, y);
  }

  lemma BothRun(plan: Plan, done: set<NodeID>, x: NodeID, y: NodeID, attempts: nat)
    requires x in plan && y in plan && x !in done && y !in done
    ensures {x, y} <= RunningNodes(Staged(plan, done, {x, y}, attempts))
  {
  }

  lemma FreshStart(plan: Plan)
    ensures Starts(plan, World(Staged(plan, {}, {}, 0), {}))
  {
    assert Lists(plan, [], Staged(plan, {}, {}, 0));
  }

  lemma OnlyOneOpposes(plan: Plan, state: State, x: NodeID, y: NodeID)
    requires RunningNodes(state) == {x} && x in plan && y in plan && !Conflict(plan[x], plan[y])
    ensures !ConflictsRunning(state, plan, plan[y])
  {
    hide Conflict;
    assert forall id :: id in state.nodes && state.nodes[id].status == Running ==> id in RunningNodes(state);
  }

  ghost predicate EveryRunIsSafe(plan: Plan, runBudget: nat, cap: nat) {
    forall worlds, events :: Run(plan, runBudget, cap, worlds, events) ==> NeverContested(plan, worlds)
  }

  /**
  Exactly the judicious plans, and passes that run one node at a time, keep RUNNING agent tasks
  apart in every run. The budget is at least what `RunBudget` computes of the plan.
  */
  lemma SafeIffJudicious(plan: Plan, runBudget: nat, cap: nat)
    requires |Charged(plan)| <= runBudget
    ensures EveryRunIsSafe(plan, runBudget, cap) <==> cap == 1 || Judicious(plan)
  {
    hide Run, NeverContested, Judicious;
    if cap == 1 || Judicious(plan) {
      forall worlds, events | Run(plan, runBudget, cap, worlds, events) ensures NeverContested(plan, worlds) {
        SafePlan(plan, runBudget, cap, worlds, events);
      }
    } else {
      var worlds, events := Clash(plan, runBudget, cap);
    }
  }

  lemma Clash(plan: Plan, runBudget: nat, cap: nat) returns (worlds: seq<World>, events: seq<Event>)
    requires |Charged(plan)| <= runBudget && cap != 1 && !Judicious(plan)
    ensures Run(plan, runBudget, cap, worlds, events) && !NeverContested(plan, worlds)
  {
    hide Contested, Conflict, Meeting, Run, Charged;
    var x, y :| x in plan && y in plan && x != y && plan[x].kind == plan[y].kind == AgentTask
      && CanMeet(plan, x, y) && Contested(plan[x].writeScope, plan[y].writeScope) && !Conflict(plan[x], plan[y]);
    var line :| Meeting(plan, line, x, y);
    worlds, events := PlacedBeside(plan, runBudget, cap, line, x, y);
    assert |worlds| == |events| + 1 by { RunLength(plan, runBudget, cap, worlds, events); }
    assert {x, y} <= RunningNodes(worlds[|events|].state);
  }

  lemma RunLength(plan: Plan, runBudget: nat, cap: nat, worlds: seq<World>, events: seq<Event>)
    requires Run(plan, runBudget, cap, worlds, events)
    ensures |worlds| == |events| + 1
  {
  }

  // ---------------------------------------------------------------------------
  // Meeting is being unordered
  // ---------------------------------------------------------------------------

  /** From a node down its dependencies. */
  ghost predicate DepPath(plan: Plan, path: seq<NodeID>) {
    && path != [] && (forall n <- path :: n in plan)
    && forall i, j :: 0 <= i < |path| && 0 <= j < |path| && j == i + 1 ==> path[j] in plan[path[i]].deps
  }

  ghost predicate Reaches(plan: Plan, from: NodeID, to: NodeID) {
    exists path :: DepPath(plan, path) && |path| >= 2 && path[0] == from && path[|path| - 1] == to
  }

  /** A compiled graph: every dependency is a node, ranked below what waits for it. */
  ghost predicate Graded(plan: Plan, rank: map<NodeID, nat>) {
    forall n, d :: n in plan && d in plan[n].deps ==> d in plan && n in rank && d in rank && rank[d] < rank[n]
  }

  /** What a node of a line reaches stands in the line. */
  lemma {:induction false} LineIsClosed(plan: Plan, line: seq<NodeID>, path: seq<NodeID>, k: nat)
    requires Lineup(plan, line) && DepPath(plan, path) && k < |path| && path[0] in line
    ensures path[k] in line
  {
    if k > 0 {
      LineIsClosed(plan, line, path, k - 1);
      var i :| 0 <= i < |line| && line[i] == path[k - 1];
      assert path[k] in plan[line[i]].deps;
      assert path[k] in line[..i];
    }
  }

  lemma MeetingReaches(plan: Plan, line: seq<NodeID>, x: NodeID, y: NodeID, n: NodeID)
    requires x in plan && y in plan && Meeting(plan, line, x, y) && Reaches(plan, x, n)
    ensures n in line
  {
    var path :| DepPath(plan, path) && |path| >= 2 && path[0] == x && path[|path| - 1] == n;
    var rest := path[1..];
    assert rest[0] in plan[path[0]].deps;
    LineIsClosed(plan, line, rest, |rest| - 1);
  }

  lemma OneEdge(plan: Plan, rank: map<NodeID, nat>, n: NodeID, d: NodeID)
    requires Graded(plan, rank) && n in plan && d in plan[n].deps
    ensures d in plan && n in rank && d in rank && rank[d] < rank[n]
  {
  }

  lemma {:induction false} RankFalls(plan: Plan, rank: map<NodeID, nat>, path: seq<NodeID>, k: nat)
    requires Graded(plan, rank) && DepPath(plan, path) && 0 < k < |path|
    ensures path[0] in rank && path[k] in rank && rank[path[k]] < rank[path[0]]
  {
    OneEdge(plan, rank, path[k - 1], path[k]);
    if k > 1 {
      RankFalls(plan, rank, path, k - 1);
    }
  }

  lemma NeverReachesItself(plan: Plan, rank: map<NodeID, nat>, x: NodeID)
    requires Graded(plan, rank)
    ensures !Reaches(plan, x, x)
  {
    if path :| DepPath(plan, path) && |path| >= 2 && path[0] == x && path[|path| - 1] == x {
      RankFalls(plan, rank, path, |path| - 1);
    }
  }

  lemma ReachesOn(plan: Plan, x: NodeID, n: NodeID, d: NodeID)
    requires n in plan && d in plan && d in plan[n].deps && (n == x || Reaches(plan, x, n))
    ensures Reaches(plan, x, d)
  {
    var path := [x];
    if n != x {
      path :| DepPath(plan, path) && |path| >= 2 && path[0] == x && path[|path| - 1] == n;
    }
    var longer := path + [d];
    assert DepPath(plan, longer);
    assert longer[0] == x && longer[|longer| - 1] == d;
  }

  /** A set of runnable nodes that holds all it waits for can be lined up. */
  lemma {:induction false} LineOf(plan: Plan, rank: map<NodeID, nat>, nodes: set<NodeID>) returns (line: seq<NodeID>)
    requires Graded(plan, rank) && nodes <= plan.Keys
    requires forall n <- nodes :: plan[n].kind != Review && forall d <- plan[n].deps :: d in nodes
    ensures Lineup(plan, line) && forall n :: n in line <==> n in nodes
    decreases |nodes|
  {
    if nodes == {} {
      line := [];
    } else {
      var last := Highest(rank, nodes);
      forall n, d | n in nodes - {last} && d in plan[n].deps ensures d in nodes - {last} {
        OneEdge(plan, rank, n, d);
      }
      var rest := LineOf(plan, rank, nodes - {last});
      line := rest + [last];
      forall i, d | 0 <= i < |line| && d in plan[line[i]].deps ensures d in line[..i] {
        if i < |rest| {
          assert d in rest[..i] && line[..i] == rest[..i];
        } else {
          assert d in nodes && d != last && line[..i] == rest;
        }
      }
    }
  }

  function RankOf(rank: map<NodeID, nat>, n: NodeID): nat {
    if n in rank then rank[n] else 0
  }

  lemma {:induction false} Highest(rank: map<NodeID, nat>, nodes: set<NodeID>) returns (top: NodeID)
    requires nodes != {}
    ensures top in nodes && forall n <- nodes :: RankOf(rank, n) <= RankOf(rank, top)
    decreases |nodes|
  {
    var first :| first in nodes;
    top := first;
    var rest := nodes - {first};
    assert forall n <- nodes :: n == first || n in rest;
    if rest != {} {
      var other := Highest(rank, rest);
      if RankOf(rank, other) > RankOf(rank, first) {
        top := other;
      }
    }
  }

  /** No review node is among what the node waits for. */
  ghost predicate Unreviewed(plan: Plan, x: NodeID) {
    forall n :: n in plan && Reaches(plan, x, n) ==> plan[n].kind != Review
  }

  /**
  In a compiled graph two nodes can meet exactly when neither reaches the other through
  dependencies and neither waits for a review node, which is never dispatched.
  */
  lemma MeetIffUnordered(plan: Plan, rank: map<NodeID, nat>, x: NodeID, y: NodeID)
    requires Graded(plan, rank) && x in plan && y in plan && x != y
    ensures CanMeet(plan, x, y) <==>
      !Reaches(plan, x, y) && !Reaches(plan, y, x) && Unreviewed(plan, x) && Unreviewed(plan, y)
  {
    hide Reaches;
    if line :| Meeting(plan, line, x, y) {
      assert Meeting(plan, line, y, x);
      forall n | n in plan && (Reaches(plan, x, n) || Reaches(plan, y, n)) ensures n in line && plan[n].kind != Review {
        if Reaches(plan, x, n) { MeetingReaches(plan, line, x, y, n); } else { MeetingReaches(plan, line, y, x, n); }
      }
    }
    if !Reaches(plan, x, y) && !Reaches(plan, y, x) && Unreviewed(plan, x) && Unreviewed(plan, y) {
      MeetUnordered(plan, rank, x, y);
    }
  }

  lemma MeetUnordered(plan: Plan, rank: map<NodeID, nat>, x: NodeID, y: NodeID)
    requires Graded(plan, rank) && x in plan && y in plan
    requires !Reaches(plan, x, y) && !Reaches(plan, y, x) && Unreviewed(plan, x) && Unreviewed(plan, y)
    ensures CanMeet(plan, x, y)
  {
    hide Reaches;
    var nodes := set n | n in plan && (Reaches(plan, x, n) || Reaches(plan, y, n));
    forall n, d | n in nodes && d in plan[n].deps ensures d in nodes {
      if Reaches(plan, x, n) { ReachesOn(plan, x, n, d); } else { ReachesOn(plan, y, n, d); }
    }
    NeverReachesItself(plan, rank, x);
    NeverReachesItself(plan, rank, y);
    forall d | d in plan[x].deps ensures d in nodes { ReachesOn(plan, x, x, d); }
    forall d | d in plan[y].deps ensures d in nodes { ReachesOn(plan, y, y, d); }
    var line := LineOf(plan, rank, nodes);
    assert Meeting(plan, line, x, y);
  }
}
