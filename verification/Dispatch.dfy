/**
One dispatch pass: which nodes the scheduler offers, and which of them the pass selects.
*/
module Dispatch {
  import opened Basics
  import opened Scopes

  type NodeID = string

  datatype Kind = AgentTask | Verify | Review | Merge | Checkpoint | FinalVerify

  datatype Status = Pending | Ready | Running | Succeeded | Failed | Cancelled | Skipped

  datatype FindingScope = WorkflowWide | RunWide | OneNode | OneAttempt | Elsewhere

  datatype Finding = Finding(blocking: bool, scope: FindingScope, subject: string)

  datatype PlanNode = PlanNode(kind: Kind, deps: seq<NodeID>, locks: seq<string>, writeScope: seq<string>, retry: nat)

  type Plan = map<NodeID, PlanNode>

  datatype NodeState = NodeState(kind: Kind, status: Status)

  datatype State = State(nodes: map<NodeID, NodeState>, attempts: nat, findings: seq<Finding>)

  // ---------------------------------------------------------------------------
  // The scheduler
  // ---------------------------------------------------------------------------

  function RunningNodes(state: State): set<NodeID> {
    set id | id in state.nodes && state.nodes[id].status == Running
  }

  /** Pending or ready, with every dependency succeeded, while the dispatch gate is open. */
  predicate Schedulable(state: State, plan: Plan, gateOpen: bool, id: NodeID) {
    && gateOpen
    && id in state.nodes
    && state.nodes[id].status in {Pending, Ready}
    && (id in plan ==> forall d :: d in plan[id].deps ==> d in state.nodes && state.nodes[d].status == Succeeded)
  }

  ghost predicate Distinct(s: seq<NodeID>) {
    forall i, j :: 0 <= i < j < |s| ==> s[i] != s[j]
  }

  /** What the scheduler promises of its answer; a cap of zero means no cap. */
  ghost predicate Offered(state: State, plan: Plan, gateOpen: bool, cap: nat, eligible: seq<NodeID>) {
    && Distinct(eligible)
    && (forall i :: 0 <= i < |eligible| ==> Schedulable(state, plan, gateOpen, eligible[i]))
    && (cap > 0 && eligible != [] ==> |RunningNodes(state)| + |eligible| <= cap)
  }

  ghost function RunningOf(state: State, kind: Kind): set<NodeID> {
    set id | id in RunningNodes(state) && state.nodes[id].kind == kind
  }

  ghost function OfKind(state: State, ids: seq<NodeID>, kind: Kind): nat {
    if ids == [] then 0
    else
      var n := |ids| - 1;
      OfKind(state, ids[..n], kind) + (if ids[n] in state.nodes && state.nodes[ids[n]].kind == kind then 1 else 0)
  }

  /** The budget of the kind is spent by RUNNING nodes and the offer; a budget of zero is none. */
  ghost predicate KindFull(state: State, budgets: map<Kind, nat>, eligible: seq<NodeID>, kind: Kind) {
    kind in budgets && budgets[kind] > 0 && |RunningOf(state, kind)| + OfKind(state, eligible, kind) >= budgets[kind]
  }

  /** No offered node takes its kind over the budget. */
  ghost predicate WithinKinds(state: State, budgets: map<Kind, nat>, eligible: seq<NodeID>) {
    forall kind <- budgets :: budgets[kind] > 0 && OfKind(state, eligible, kind) > 0 ==>
      |RunningOf(state, kind)| + OfKind(state, eligible, kind) <= budgets[kind]
  }

  /**
  `order` is the canonical order of the node identifiers. A schedulable node is left out only
  when the cap or the budget of its kind is reached. The dispatch pass sets no kind budgets.
  */
  method Next(state: State, plan: Plan, gateOpen: bool, cap: nat, budgets: map<Kind, nat>, order: seq<NodeID>)
    returns (eligible: seq<NodeID>)
    requires Distinct(order) && forall id :: id in order <==> id in state.nodes
    ensures Offered(state, plan, gateOpen, cap, eligible) && WithinKinds(state, budgets, eligible)
    ensures forall id :: id in state.nodes && Schedulable(state, plan, gateOpen, id) && id !in eligible ==>
              || (cap > 0 && |RunningNodes(state)| + |eligible| >= cap)
              || KindFull(state, budgets, eligible, state.nodes[id].kind)
    ensures !gateOpen ==> eligible == []
    ensures forall id <- eligible :: id in state.nodes && state.nodes[id].status in {Pending, Ready}
    ensures forall id <- eligible :: id in plan ==> forall d <- plan[id].deps :: d in state.nodes && state.nodes[d].status == Succeeded
    ensures forall id | id in state.nodes && id in plan && id !in eligible && gateOpen
              && (state.nodes[id].status == Pending || state.nodes[id].status == Ready)
              && (forall d <- plan[id].deps :: d in state.nodes && state.nodes[d].status == Succeeded) ::
              || (cap > 0 && |RunningNodes(state)| + |eligible| >= cap)
              || KindFull(state, budgets, eligible, state.nodes[id].kind)
  {
    hide Schedulable, OfKind, RunningNodes;
    var running := |RunningNodes(state)|;
    eligible := [];
    NoneOfKind(state);
    var taken: map<Kind, nat> := map[];
    var i := 0;
    while i < |order|
      invariant 0 <= i <= |order|
      invariant Offered(state, plan, gateOpen, cap, eligible) && WithinKinds(state, budgets, eligible)
      invariant forall id :: id in eligible ==> id in order[..i]
      invariant forall kind :: Tally(taken, kind) == OfKind(state, eligible, kind)
      invariant forall j :: 0 <= j < i && Schedulable(state, plan, gateOpen, order[j]) && order[j] !in eligible ==>
                  (cap > 0 && running + |eligible| >= cap) || KindFull(state, budgets, eligible, state.nodes[order[j]].kind)
    {
      var id := order[i];
      var kind := state.nodes[id].kind;
      assert id !in order[..i];
      var busy := set r | r in state.nodes && state.nodes[r].status == Running && state.nodes[r].kind == kind;
      BusyOfKind(state, kind, busy);
      var full := kind in budgets && budgets[kind] > 0 && |busy| + Tally(taken, kind) >= budgets[kind];
      assert full == KindFull(state, budgets, eligible, kind);
      if Schedulable(state, plan, gateOpen, id) && !(cap > 0 && running + |eligible| >= cap) && !full {
        OfKindGrows(state, eligible, id);
        eligible := eligible + [id];
        taken := taken[kind := Tally(taken, kind) + 1];
      }
      i := i + 1;
    }
    SchedulableMeans(state, plan, gateOpen);
    assert eligible != [] ==> Schedulable(state, plan, gateOpen, eligible[0]);
  }

  lemma SchedulableMeans(state: State, plan: Plan, gateOpen: bool)
    ensures forall id :: Schedulable(state, plan, gateOpen, id) ==>
      && gateOpen && id in state.nodes && state.nodes[id].status in {Pending, Ready}
      && (id in plan ==> forall d <- plan[id].deps :: d in state.nodes && state.nodes[d].status == Succeeded)
    ensures forall id | id in state.nodes && id in plan && gateOpen
              && (state.nodes[id].status == Pending || state.nodes[id].status == Ready)
              && (forall d <- plan[id].deps :: d in state.nodes && state.nodes[d].status == Succeeded) ::
              Schedulable(state, plan, gateOpen, id)
  {
  }

  function Tally(counts: map<Kind, nat>, kind: Kind): nat {
    if kind in counts then counts[kind] else 0
  }

  lemma NoneOfKind(state: State)
    ensures forall kind :: OfKind(state, [], kind) == 0
  {
  }

  lemma BusyOfKind(state: State, kind: Kind, busy: set<NodeID>)
    requires busy == set r | r in state.nodes && state.nodes[r].status == Running && state.nodes[r].kind == kind
    ensures busy == RunningOf(state, kind)
  {
  }

  lemma OfKindGrows(state: State, ids: seq<NodeID>, id: NodeID)
    requires id in state.nodes
    ensures forall kind :: OfKind(state, ids + [id], kind) == OfKind(state, ids, kind) + (if state.nodes[id].kind == kind then 1 else 0)
  {
    assert (ids + [id])[..|ids|] == ids;
  }

  // ---------------------------------------------------------------------------
  // The run budget
  // ---------------------------------------------------------------------------

  /** The nodes whose attempts the run budget counts. */
  function Charged(plan: Plan): set<NodeID> {
    set id | id in plan && plan[id].kind in {AgentTask, Verify, Merge, FinalVerify}
  }

  /** One more node raises the run budget by its attempts; checkpoints and reviews cost nothing. */
  lemma BudgetOfNode(plan: Plan, id: NodeID)
    requires id in plan
    ensures id in Charged(plan) <==> match plan[id].kind
      case AgentTask => true
      case Verify => true
      case Merge => true
      case FinalVerify => true
      case Review => false
      case Checkpoint => false
    ensures Retries(plan, [id]) == if plan[id].kind == AgentTask then plan[id].retry else 0
  {
    assert [id][..0] == [];
    assert Retries(plan, []) == 0;
  }

  ghost function Retries(plan: Plan, order: seq<NodeID>): nat {
    if order == [] then 0
    else
      var n := |order| - 1;
      Retries(plan, order[..n]) + (if order[n] in plan && plan[order[n]].kind == AgentTask then plan[order[n]].retry else 0)
  }

  /** One attempt for every charged node and one for every budgeted retry of an agent task. */
  method RunBudget(plan: Plan, order: seq<NodeID>) returns (total: nat)
    requires Distinct(order) && forall id :: id in order <==> id in plan
    ensures total == |Charged(plan)| + Retries(plan, order)
  {
    total := 0;
    for i := 0 to |order|
      invariant total == Charges(plan, order[..i]) + Retries(plan, order[..i])
    {
      assert order[..i + 1][..i] == order[..i];
      var node := plan[order[i]];
      if node.kind in {AgentTask, Verify, Merge, FinalVerify} {
        total := total + 1 + (if node.kind == AgentTask then node.retry else 0);
      }
    }
    assert order[..|order|] == order;
    ChargesCount(plan, order);
    assert (set id | id in order && id in Charged(plan)) == Charged(plan);
  }

  ghost function Charges(plan: Plan, order: seq<NodeID>): nat {
    if order == [] then 0
    else
      var n := |order| - 1;
      Charges(plan, order[..n]) + (if order[n] in Charged(plan) then 1 else 0)
  }

  lemma {:induction false} ChargesCount(plan: Plan, order: seq<NodeID>)
    requires Distinct(order)
    ensures Charges(plan, order) == |set id | id in order && id in Charged(plan)|
  {
    if order != [] {
      var n := |order| - 1;
      ChargesCount(plan, order[..n]);
      var rest := set id | id in order[..n] && id in Charged(plan);
      assert order == order[..n] + [order[n]];
      assert (set id | id in order && id in Charged(plan)) == if order[n] in Charged(plan) then rest + {order[n]} else rest;
    }
  }

  // ---------------------------------------------------------------------------
  // The parallel-safety judgment
  // ---------------------------------------------------------------------------

  ghost predicate SharesLock(x: PlanNode, y: PlanNode) {
    exists lock :: lock in x.locks && lock in y.locks
  }

  ghost predicate Conflict(x: PlanNode, y: PlanNode) {
    SharesLock(x, y) || Overlap(x.writeScope, y.writeScope)
  }

  method TasksConflict(x: PlanNode, y: PlanNode) returns (conflict: bool)
    ensures conflict <==> Conflict(x, y)
  {
    var i := 0;
    while i < |x.locks|
      invariant 0 <= i <= |x.locks|
      invariant forall k :: 0 <= k < i ==> x.locks[k] !in y.locks
    {
      var j := 0;
      while j < |y.locks|
        invariant 0 <= j <= |y.locks|
        invariant forall l :: 0 <= l < j ==> x.locks[i] != y.locks[l]
      {
        if x.locks[i] == y.locks[j] {
          assert x.locks[i] in x.locks && x.locks[i] in y.locks;
          return true;
        }
        j := j + 1;
      }
      i := i + 1;
    }
    assert !SharesLock(x, y);
    conflict := ScopesOverlap(x.writeScope, y.writeScope);
  }

  /** A blocking finding on the workflow, the run, or the node itself. */
  ghost predicate Blocked(findings: seq<Finding>, id: NodeID) {
    exists i :: 0 <= i < |findings| && findings[i].blocking
      && (findings[i].scope in {WorkflowWide, RunWide}
          || (findings[i].scope in {OneNode, OneAttempt} && findings[i].subject == id))
  }

  /** One more finding blocks what its scope covers: everything, or its own subject. */
  lemma BlockedByOneMore(findings: seq<Finding>, f: Finding, id: NodeID)
    ensures Blocked(findings + [f], id) <==> Blocked(findings, id) || (f.blocking && match f.scope
      case WorkflowWide => true
      case RunWide => true
      case OneNode => f.subject == id
      case OneAttempt => f.subject == id
      case Elsewhere => false)
  {
    var more := findings + [f];
    assert more[|findings|] == f && forall i :: 0 <= i < |findings| ==> more[i] == findings[i];
  }

  method BlockingFinding(findings: seq<Finding>, id: NodeID) returns (blocked: bool)
    ensures blocked <==> Blocked(findings, id)
  {
    var i := 0;
    while i < |findings|
      invariant 0 <= i <= |findings|
      invariant !Blocked(findings[..i], id)
    {
      var f := findings[i];
      assert findings[..i+1] == findings[..i] + [f];
      if f.blocking {
        match f.scope
        case WorkflowWide => return true;
        case RunWide => return true;
        case OneNode => if f.subject == id { return true; }
        case OneAttempt => if f.subject == id { return true; }
        case Elsewhere =>
      }
      i := i + 1;
    }
    assert findings[..i] == findings;
    return false;
  }

  ghost predicate MergeRunning(state: State) {
    exists id :: id in state.nodes && state.nodes[id].kind == Merge && state.nodes[id].status == Running
  }

  ghost predicate ConflictsRunning(state: State, plan: Plan, node: PlanNode) {
    exists id :: id in state.nodes && state.nodes[id] == NodeState(AgentTask, Running)
      && id in plan && Conflict(plan[id], node)
  }

  ghost predicate ConflictsSelected(plan: Plan, selected: seq<NodeID>, node: PlanNode) {
    exists i :: 0 <= i < |selected| && selected[i] in plan && Conflict(plan[selected[i]], node)
  }

  datatype Batch = Batch(selected: seq<NodeID>, mergeTaken: bool)

  /** How one offered node changes the batch. The merge slot is taken before the node is judged. */
  ghost function Consider(state: State, plan: Plan, runBudget: nat, b: Batch, id: NodeID): Batch {
    if id !in plan || plan[id].kind == Review then b
    else if plan[id].kind == Merge && (MergeRunning(state) || b.mergeTaken) then b
    else
      var b' := b.(mergeTaken := b.mergeTaken || plan[id].kind == Merge);
      if Blocked(state.findings, id) || state.attempts >= runBudget then b'
      else if plan[id].kind == AgentTask
              && (ConflictsSelected(plan, b.selected, plan[id]) || ConflictsRunning(state, plan, plan[id])) then b'
      else b'.(selected := b.selected + [id])
  }

  ghost function Greedy(state: State, plan: Plan, runBudget: nat, eligible: seq<NodeID>): Batch {
    if eligible == [] then Batch([], false)
    else
      var n := |eligible| - 1;
      Consider(state, plan, runBudget, Greedy(state, plan, runBudget, eligible[..n]), eligible[n])
  }

  method ScanRunning(state: State, plan: Plan, node: PlanNode) returns (conflict: bool)
    ensures conflict <==> ConflictsRunning(state, plan, node)
  {
    var rest := state.nodes.Keys;
    while rest != {}
      invariant rest <= state.nodes.Keys
      invariant forall id | id in state.nodes && id !in rest && id in plan ::
                  state.nodes[id] == NodeState(AgentTask, Running) ==> !Conflict(plan[id], node)
      decreases |rest|
    {
      var id :| id in rest;
      rest := rest - {id};
      if state.nodes[id].status == Running && state.nodes[id].kind == AgentTask && id in plan {
        conflict := TasksConflict(plan[id], node);
        if conflict {
          return;
        }
      }
    }
    return false;
  }

  method ScanSelected(plan: Plan, selected: seq<NodeID>, node: PlanNode) returns (conflict: bool)
    requires forall i :: 0 <= i < |selected| ==> selected[i] in plan
    ensures conflict <==> ConflictsSelected(plan, selected, node)
  {
    var i := 0;
    while i < |selected|
      invariant 0 <= i <= |selected|
      invariant forall k :: 0 <= k < i ==> !Conflict(plan[selected[k]], node)
    {
      conflict := TasksConflict(plan[selected[i]], node);
      if conflict {
        return;
      }
      i := i + 1;
    }
    return false;
  }

  method SelectBatch(state: State, plan: Plan, runBudget: nat, eligible: seq<NodeID>) returns (selected: seq<NodeID>)
    ensures selected == Greedy(state, plan, runBudget, eligible).selected
  {
    selected := [];
    var mergeSelected := false;
    var mergeRunning := exists id :: id in state.nodes && state.nodes[id].kind == Merge && state.nodes[id].status == Running;
    assert mergeRunning == MergeRunning(state);
    var i := 0;
    while i < |eligible|
      invariant 0 <= i <= |eligible|
      invariant Greedy(state, plan, runBudget, eligible[..i]) == Batch(selected, mergeSelected)
      invariant forall k :: 0 <= k < |selected| ==> selected[k] in plan
    {
      hide Blocked, Conflict, MergeRunning;
      var id := eligible[i];
      assert eligible[..i+1][..i] == eligible[..i];
      i := i + 1;
      if id !in plan || plan[id].kind == Review {
        continue;
      }
      var node := plan[id];
      if node.kind == Merge {
        if mergeRunning || mergeSelected {
          continue;
        }
        mergeSelected := true;
      }
      var blocked := BlockingFinding(state.findings, id);
      if blocked || state.attempts >= runBudget {
        continue;
      }
      if node.kind == AgentTask {
        var conflict := ScanSelected(plan, selected, node);
        if !conflict {
          conflict := ScanRunning(state, plan, node);
        }
        if conflict {
          continue;
        }
      }
      selected := selected + [id];
    }
    assert eligible[..i] == eligible;
  }

  // ---------------------------------------------------------------------------
  // What one batch guarantees
  // ---------------------------------------------------------------------------

  /** No agent task of the batch conflicts with an earlier member or with a RUNNING agent task. */
  ghost predicate Harmonious(state: State, plan: Plan, selected: seq<NodeID>) {
    && (forall i :: 0 <= i < |selected| ==> selected[i] in plan)
    && (forall i, j :: 0 <= i < j < |selected| && plan[selected[j]].kind == AgentTask ==>
          !Conflict(plan[selected[i]], plan[selected[j]]))
    && (forall i :: 0 <= i < |selected| && plan[selected[i]].kind == AgentTask ==>
          !ConflictsRunning(state, plan, plan[selected[i]]))
  }

  /** At most one merge node, and none beside a RUNNING one. */
  ghost predicate OneMerge(state: State, plan: Plan, selected: seq<NodeID>)
    requires forall i :: 0 <= i < |selected| ==> selected[i] in plan
  {
    && (forall i, j :: 0 <= i < j < |selected| ==>
          plan[selected[i]].kind != Merge || plan[selected[j]].kind != Merge)
    && (MergeRunning(state) ==> forall i :: 0 <= i < |selected| ==> plan[selected[i]].kind != Merge)
  }

  lemma {:induction false} BatchIsSafe(state: State, plan: Plan, runBudget: nat, eligible: seq<NodeID>)
    ensures var b := Greedy(state, plan, runBudget, eligible);
            && Harmonious(state, plan, b.selected)
            && OneMerge(state, plan, b.selected)
            && (!b.mergeTaken ==> forall i :: 0 <= i < |b.selected| ==> plan[b.selected[i]].kind != Merge)
  {
    if eligible != [] {
      hide Blocked, Conflict, MergeRunning, ConflictsRunning;
      var n := |eligible| - 1;
      BatchIsSafe(state, plan, runBudget, eligible[..n]);
    }
  }

  /** The batch is drawn from the offer, from unblocked nodes, while the run budget lasts. */
  lemma {:induction false} BatchFromOffer(state: State, plan: Plan, runBudget: nat, eligible: seq<NodeID>)
    ensures var selected := Greedy(state, plan, runBudget, eligible).selected;
            && (forall i :: 0 <= i < |selected| ==> selected[i] in eligible && !Blocked(state.findings, selected[i]))
            && (forall i :: 0 <= i < |selected| ==> selected[i] in plan && plan[selected[i]].kind != Review)
            && |selected| <= |eligible|
            && (Distinct(eligible) ==> Distinct(selected))
            && (selected != [] ==> state.attempts < runBudget)
  {
    if eligible != [] {
      hide Blocked, Conflict, MergeRunning, ConflictsRunning, ConflictsSelected;
      var n := |eligible| - 1;
      BatchFromOffer(state, plan, runBudget, eligible[..n]);
      assert eligible == eligible[..n] + [eligible[n]];
    }
  }

  lemma {:induction false} GreedyGrows(state: State, plan: Plan, runBudget: nat, eligible: seq<NodeID>, k: nat)
    requires k <= |eligible|
    ensures Greedy(state, plan, runBudget, eligible[..k]).selected <= Greedy(state, plan, runBudget, eligible).selected
  {
    if k < |eligible| {
      var n := |eligible| - 1;
      GreedyGrows(state, plan, runBudget, eligible[..n], k);
      assert eligible[..n][..k] == eligible[..k];
    } else {
      assert eligible[..k] == eligible;
    }
  }

  /** Some merge node of the plan was offered. */
  ghost predicate OffersMerge(plan: Plan, offered: seq<NodeID>) {
    exists i :: 0 <= i < |offered| && offered[i] in plan && plan[offered[i]].kind == Merge
  }

  /** The merge slot is taken by the first merge node offered, whether or not it is then selected. */
  lemma {:induction false} MergeTakenIff(state: State, plan: Plan, runBudget: nat, eligible: seq<NodeID>)
    ensures Greedy(state, plan, runBudget, eligible).mergeTaken <==> !MergeRunning(state) && OffersMerge(plan, eligible)
  {
    if eligible != [] {
      hide Blocked, Conflict, MergeRunning, ConflictsRunning, ConflictsSelected;
      var n := |eligible| - 1;
      MergeTakenIff(state, plan, runBudget, eligible[..n]);
      assert OffersMerge(plan, eligible) <==>
        OffersMerge(plan, eligible[..n]) || (eligible[n] in plan && plan[eligible[n]].kind == Merge) by {
        if i :| 0 <= i < n && eligible[i] in plan && plan[eligible[i]].kind == Merge { assert eligible[..n][i] == eligible[i]; }
      }
    }
  }

  /**
  An offered node is selected exactly when it is a node of the plan other than a review, no
  finding blocks it, the budget is not exhausted, and: a merge node is the first one offered
  while none is RUNNING, an agent task conflicts with no RUNNING or earlier-selected one.
  */
  lemma SelectedExactly(state: State, plan: Plan, runBudget: nat, eligible: seq<NodeID>, k: nat)
    requires Distinct(eligible) && k < |eligible|
    ensures
      var id, before := eligible[k], Greedy(state, plan, runBudget, eligible[..k]).selected;
      id in Greedy(state, plan, runBudget, eligible).selected <==> (
        && id in plan && plan[id].kind != Review
        && !Blocked(state.findings, id) && state.attempts < runBudget
        && (plan[id].kind == Merge ==> !MergeRunning(state) && !OffersMerge(plan, eligible[..k]))
        && (plan[id].kind == AgentTask ==> !ConflictsRunning(state, plan, plan[id]) && !ConflictsSelected(plan, before, plan[id])))
  {
    hide Blocked, Conflict, MergeRunning, ConflictsRunning, ConflictsSelected, OffersMerge;
    var id, prefix := eligible[k], eligible[..k + 1];
    assert prefix[..k] == eligible[..k] && prefix[k] == id;
    MergeTakenIff(state, plan, runBudget, eligible[..k]);
    OnlyFromOffer(state, plan, runBudget, eligible[..k], id);
    assert id !in eligible[..k];
    SelectedStays(state, plan, runBudget, eligible, k + 1, id);
    assert Greedy(state, plan, runBudget, prefix) ==
      Consider(state, plan, runBudget, Greedy(state, plan, runBudget, eligible[..k]), id);
  }

  lemma OnlyFromOffer(state: State, plan: Plan, runBudget: nat, eligible: seq<NodeID>, id: NodeID)
    requires id !in eligible
    ensures id !in Greedy(state, plan, runBudget, eligible).selected
  {
    BatchFromOffer(state, plan, runBudget, eligible);
  }

  /** Later offers neither add nor remove an earlier one. */
  lemma {:induction false} SelectedStays(state: State, plan: Plan, runBudget: nat, eligible: seq<NodeID>, k: nat, id: NodeID)
    requires k <= |eligible| && id !in eligible[k..]
    ensures id in Greedy(state, plan, runBudget, eligible).selected <==> id in Greedy(state, plan, runBudget, eligible[..k]).selected
  {
    if k == |eligible| {
      assert eligible[..k] == eligible;
    } else {
      hide Blocked, Conflict, MergeRunning, ConflictsRunning, ConflictsSelected;
      var n := |eligible| - 1;
      assert eligible[n] in eligible[k..] && eligible[..n][..k] == eligible[..k];
      assert id !in eligible[..n][k..] by {
        assert forall x :: x in eligible[..n][k..] ==> x in eligible[k..];
      }
      SelectedStays(state, plan, runBudget, eligible[..n], k, id);
    }
  }

  /**
  An offered node of the plan is passed over only for a finding or the budget; an agent task
  also for a conflict with work already placed, a merge node for a RUNNING merge or an earlier
  offer of one, and a review node always.
  */
  lemma SkippedForAReason(state: State, plan: Plan, runBudget: nat, eligible: seq<NodeID>, k: nat)
    requires k < |eligible| && eligible[k] in plan
    requires eligible[k] !in Greedy(state, plan, runBudget, eligible).selected
    ensures
      || plan[eligible[k]].kind == Review
      || Blocked(state.findings, eligible[k])
      || state.attempts >= runBudget
      || (plan[eligible[k]].kind == Merge && (MergeRunning(state) || OffersMerge(plan, eligible[..k])))
      || (plan[eligible[k]].kind == AgentTask && (
          || ConflictsRunning(state, plan, plan[eligible[k]])
          || ConflictsSelected(plan, Greedy(state, plan, runBudget, eligible[..k]).selected, plan[eligible[k]])))
  {
    hide Blocked, Conflict, MergeRunning, ConflictsRunning, ConflictsSelected, OffersMerge;
    GreedyGrows(state, plan, runBudget, eligible, k + 1);
    var prefix := eligible[..k + 1];
    assert prefix[..k] == eligible[..k] && prefix[k] == eligible[k];
    var before := Greedy(state, plan, runBudget, eligible[..k]);
    MergeTakenIff(state, plan, runBudget, eligible[..k]);
    assert Greedy(state, plan, runBudget, prefix) == Consider(state, plan, runBudget, before, eligible[k]);
  }
}
