/**
The move list of one Legacy Layout Migration Preview, and why its execution may treat
the paths of different moves as independent.
*/
module LayoutPreview {
  import opened Migration

  datatype ArtifactType =
    | Plan | Spec | Workflow | Catalog | Report | CleanupManifest | DiscussionTurn | PlanCheck
    | RoutingPolicy | BudgetPolicy | ChangeSet | DiscussionHandoff
  {
    function Name(): string {
      match this
      case Plan => "plan"
      case Spec => "spec"
      case Workflow => "workflow"
      case Catalog => "catalog"
      case Report => "report"
      case CleanupManifest => "cleanup-manifest"
      case DiscussionTurn => "discussion-turn"
      case PlanCheck => "plan-check"
      case RoutingPolicy => "routing-policy"
      case BudgetPolicy => "budget-policy"
      case ChangeSet => "change-set"
      case DiscussionHandoff => "discussion-handoff"
    }

    /** The aggregated category directory of the type. */
    function Dir(): string {
      match this
      case Plan => "plans"
      case Spec => "specs"
      case Catalog => "specs"
      case Workflow => "workflows"
      case DiscussionTurn => "discussion"
      case DiscussionHandoff => "discussion"
      case PlanCheck => "reviews"
      case Report => "reports"
      case CleanupManifest => "reports"
      case RoutingPolicy => "evidence"
      case BudgetPolicy => "evidence"
      case ChangeSet => "evidence"
    }
  }

  /** What one move of the preview relocates. */
  datatype Slot =
    | Planning
    | Integration
    | Manifest
    | Task(name: string)
    | Revisions(typ: ArtifactType)

  /** The recorded identity the preview binds a worktree slot to. */
  datatype Identity = Identity(digest: string, branch: string, head: string)

  datatype Site = Site(home: Path, key: string, wf: string) {
    function Roots(): Roots {
      Migration.Roots(
        home + ["worktrees", key, wf],
        home + ["projects", key, "workflows", wf],
        home + ["projects", key, wf])
    }

    /** Where the legacy layout keeps the slot, below the managed home. */
    function LegacyTail(slot: Slot): Path {
      match slot
      case Planning => ["worktrees", key, wf, "planning"]
      case Integration => ["worktrees", key, wf, "integration"]
      case Task(name) => ["worktrees", key, wf, "tasks", name]
      case Manifest => ["projects", key, "workflows", wf, "workflow.yaml"]
      case Revisions(typ) => ["projects", key, "workflows", wf, "artifacts", wf, typ.Name()]
    }

    /** Where the aggregated layout keeps it. */
    function AggregatedTail(slot: Slot): Path {
      match slot
      case Planning => ["projects", key, wf, "tmp", "planning"]
      case Integration => ["projects", key, wf, "workspace"]
      case Task(name) => ["projects", key, wf, "tmp", "tasks", name]
      case Manifest => ["projects", key, wf, "workflow.yaml"]
      case Revisions(typ) => ["projects", key, wf, typ.Dir(), typ.Name()]
    }

    function SlotMove(slot: Slot, id: Identity): Move {
      Move(if slot.Manifest? || slot.Revisions? then Artifact else Worktree,
           home + LegacyTail(slot), home + AggregatedTail(slot), id.digest, id.branch, id.head)
    }
  }

  /** The slots in preview order; the integration worktree only with a recorded branch. */
  function Slots(hasIntegration: bool, tasks: seq<string>, types: seq<ArtifactType>): seq<Slot> {
    [Planning] + (if hasIntegration then [Integration] else []) + [Manifest]
    + seq(|tasks|, i requires 0 <= i < |tasks| => Task(tasks[i]))
    + seq(|types|, i requires 0 <= i < |types| => Revisions(types[i]))
  }

  function PreviewMoves(site: Site, slots: seq<Slot>, identity: Slot -> Identity): seq<Move> {
    seq(|slots|, i requires 0 <= i < |slots| => site.SlotMove(slots[i], identity(slots[i])))
  }

  ghost predicate Distinct<T(!new)>(s: seq<T>) {
    forall i, j :: 0 <= i < j < |s| ==> s[i] != s[j]
  }

  lemma NamesDiffer(s: ArtifactType, t: ArtifactType)
    requires s != t
    ensures s.Name() != t.Name()
  {
    var a, b := s.Name(), t.Name();
    assert |a| != |b| || a[0] != b[0];
  }

  lemma TailsNotNested(home: Path, p: Path, q: Path)
    requires !Nested(p, q)
    ensures !Nested(home + p, home + q)
  {
    var hp, hq := home + p, home + q;
    assert p == hp[|home|..] && q == hq[|home|..];
  }

  /** Two lists that differ at a common position contain neither one the other. */
  lemma DifferAt(p: Path, q: Path, i: nat)
    requires i < |p| && i < |q| && p[i] != q[i]
    ensures !Nested(p, q)
  {
  }

  lemma LegacyTailsApart(site: Site, s: Slot, t: Slot)
    requires s != t
    ensures !Nested(site.LegacyTail(s), site.LegacyTail(t))
  {
    var p, q := site.LegacyTail(s), site.LegacyTail(t);
    if p[0] != q[0] {
      assert "worktrees"[0] != "projects"[0];
      DifferAt(p, q, 0);
    } else if s.Task? && t.Task? {
      DifferAt(p, q, 4);
    } else if s.Revisions? && t.Revisions? {
      NamesDiffer(s.typ, t.typ);
      DifferAt(p, q, 6);
    } else if p[0] == "worktrees" {
      DifferAt(p, q, 3);
    } else {
      DifferAt(p, q, 4);
    }
  }

  lemma AggregatedTailsApart(site: Site, s: Slot, t: Slot)
    requires s != t
    ensures !Nested(site.AggregatedTail(s), site.AggregatedTail(t))
  {
    var p, q := site.AggregatedTail(s), site.AggregatedTail(t);
    if s.Task? && t.Task? {
      DifferAt(p, q, 5);
    } else if s.Revisions? && t.Revisions? {
      NamesDiffer(s.typ, t.typ);
      DifferAt(p, q, 4);
    } else if (s.Task? && t.Planning?) || (s.Planning? && t.Task?) {
      DifferAt(p, q, 4);
    } else {
      DifferAt(p, q, 3);
    }
  }

  /** Holds even for a workflow that is itself called "workflows". */
  lemma LegacyNeverMeetsAggregated(site: Site, s: Slot, t: Slot)
    ensures !Nested(site.LegacyTail(s), site.AggregatedTail(t))
  {
    var p, q := site.LegacyTail(s), site.AggregatedTail(t);
    if !s.Manifest? && !s.Revisions? {
      assert "worktrees"[0] != "projects"[0];
      DifferAt(p, q, 0);
    } else if p[2] != q[2] {
      DifferAt(p, q, 2);
    } else {
      assert site.wf == "workflows";
      if t.Revisions? && t.typ.Workflow? {
        DifferAt(p, q, 4);
      } else {
        assert q[3] != "workflows";
        DifferAt(p, q, 3);
      }
    }
  }

  lemma SlotMovesApart(site: Site, s: Slot, a: Identity, t: Slot, b: Identity)
    requires s != t
    ensures Apart(site.SlotMove(s, a), site.SlotMove(t, b))
  {
    LegacyTailsApart(site, s, t);
    AggregatedTailsApart(site, s, t);
    LegacyNeverMeetsAggregated(site, s, t);
    LegacyNeverMeetsAggregated(site, t, s);
    TailsNotNested(site.home, site.LegacyTail(s), site.LegacyTail(t));
    TailsNotNested(site.home, site.AggregatedTail(s), site.AggregatedTail(t));
    TailsNotNested(site.home, site.LegacyTail(s), site.AggregatedTail(t));
    TailsNotNested(site.home, site.LegacyTail(t), site.AggregatedTail(s));
  }

  lemma SlotMoveManaged(site: Site, s: Slot, id: Identity)
    ensures Managed(site.Roots(), site.SlotMove(s, id))
    ensures !Nested(site.SlotMove(s, id).source, site.SlotMove(s, id).destination)
  {
    LegacyNeverMeetsAggregated(site, s, s);
    TailsNotNested(site.home, site.LegacyTail(s), site.AggregatedTail(s));
    var mv, roots := site.SlotMove(s, id), site.Roots();
    assert roots.workflowRoot == mv.destination[..|roots.workflowRoot|];
    if mv.kind.Worktree? {
      assert roots.legacyWorktrees == mv.source[..|roots.legacyWorktrees|];
    } else {
      assert roots.legacyArtifacts == mv.source[..|roots.legacyArtifacts|];
    }
  }

  lemma SlotsDistinct(hasIntegration: bool, tasks: seq<string>, types: seq<ArtifactType>)
    requires Distinct(tasks) && Distinct(types)
    ensures Distinct(Slots(hasIntegration, tasks, types))
  {
  }

  /**
  Every preview is a manifest the executor can run: its paths never equal or contain one
  another, and every move stays between the managed roots.
  */
  lemma PreviewIsExecutable(
      site: Site, hasIntegration: bool, tasks: seq<string>, types: seq<ArtifactType>, identity: Slot -> Identity)
    requires Distinct(tasks) && Distinct(types)
    ensures var moves := PreviewMoves(site, Slots(hasIntegration, tasks, types), identity);
            && Separate(moves)
            && forall i :: 0 <= i < |moves| ==> Managed(site.Roots(), moves[i])
  {
    var slots := Slots(hasIntegration, tasks, types);
    SlotsDistinct(hasIntegration, tasks, types);
    var moves := PreviewMoves(site, slots, identity);
    forall i | 0 <= i < |moves|
      ensures Managed(site.Roots(), moves[i]) && !Nested(moves[i].source, moves[i].destination)
    {
      SlotMoveManaged(site, slots[i], identity(slots[i]));
    }
    forall i, j | 0 <= i < |moves| && 0 <= j < |moves| && i != j
      ensures Apart(moves[i], moves[j])
    {
      assert slots[i] != slots[j];
      SlotMovesApart(site, slots[i], identity(slots[i]), slots[j], identity(slots[j]));
    }
  }

  /** What a preview moves: the planning snapshot and the manifest always, the integration worktree if recorded, every task, every type. */
  lemma SlotsHold(hasIntegration: bool, tasks: seq<string>, types: seq<ArtifactType>, slot: Slot)
    ensures slot in Slots(hasIntegration, tasks, types) <==> match slot
      case Planning => true
      case Manifest => true
      case Integration => hasIntegration
      case Task(name) => name in tasks
      case Revisions(typ) => typ in types
  {
    var front := [Planning] + (if hasIntegration then [Integration] else []) + [Manifest];
    var ts := seq(|tasks|, i requires 0 <= i < |tasks| => Task(tasks[i]));
    var rs := seq(|types|, i requires 0 <= i < |types| => Revisions(types[i]));
    assert Slots(hasIntegration, tasks, types) == front + ts + rs;
    if slot.Task? && slot.name in tasks {
      var i :| 0 <= i < |tasks| && tasks[i] == slot.name;
      assert ts[i] == slot;
    }
    if slot.Revisions? && slot.typ in types {
      var i :| 0 <= i < |types| && types[i] == slot.typ;
      assert rs[i] == slot;
    }
    if slot.Task? && slot in ts {
      var i :| 0 <= i < |ts| && ts[i] == slot;
      assert tasks[i] == slot.name;
    }
    if slot.Revisions? && slot in rs {
      var i :| 0 <= i < |rs| && rs[i] == slot;
      assert types[i] == slot.typ;
    }
  }

  /** The managed artifact directory of every type. */
  const TypeDirs: map<string, string> := map[
    "plan" := "plans", "spec" := "specs", "catalog" := "specs", "workflow" := "workflows",
    "discussion-turn" := "discussion", "discussion-handoff" := "discussion", "plan-check" := "reviews",
    "report" := "reports", "cleanup-manifest" := "reports",
    "routing-policy" := "evidence", "budget-policy" := "evidence", "change-set" := "evidence"]

  /** Every slot goes where the aggregated layout looks for it, and comes from where the legacy one kept it. */
  lemma WhereThingsGo(site: Site, slot: Slot, id: Identity)
    ensures
      var mv, roots := site.SlotMove(slot, id), site.Roots();
      && roots.workflowRoot == site.home + ["projects", site.key, site.wf]
      && mv.digest == id.digest && mv.branch == id.branch && mv.head == id.head
      && match slot
         case Integration =>
           mv.kind == Worktree && mv.source == roots.legacyWorktrees + ["integration"] && mv.destination == roots.workflowRoot + ["workspace"]
         case Planning =>
           mv.kind == Worktree && mv.source == roots.legacyWorktrees + ["planning"] && mv.destination == roots.workflowRoot + ["tmp", "planning"]
         case Task(name) =>
           mv.kind == Worktree && mv.source == roots.legacyWorktrees + ["tasks", name] && mv.destination == roots.workflowRoot + ["tmp", "tasks", name]
         case Manifest =>
           mv.kind == Artifact && mv.source == roots.legacyArtifacts + ["workflow.yaml"] && mv.destination == roots.workflowRoot + ["workflow.yaml"]
         case Revisions(typ) =>
           && mv.kind == Artifact && typ.Name() in TypeDirs
           && mv.source == roots.legacyArtifacts + ["artifacts", site.wf, typ.Name()]
           && mv.destination == roots.workflowRoot + [TypeDirs[typ.Name()], typ.Name()]
  {
    if slot.Revisions? {
      assert slot.typ.Name() in TypeDirs && slot.typ.Dir() == TypeDirs[slot.typ.Name()] by {
        DirOfType(slot.typ);
      }
    }
  }

  lemma DirOfType(t: ArtifactType)
    ensures t.Name() in TypeDirs && t.Dir() == TypeDirs[t.Name()]
  {
  }
}
