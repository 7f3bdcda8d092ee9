# CFlow protocols in Dafny

CFlow runs coding agents through a workflow: it plans, dispatches tasks to provider sessions, merges
verified commits and delivers them to the user's branch. What it promises is that it can be stopped
anywhere and never does the wrong thing afterwards. This project models those protocols and proves what
they keep over every run, for every kernel answer, provider stream, crash point and interleaving.

| module | subject |
|---|---|
| `Basics` | the option type and one counting lemma |
| `Migration`, `LayoutPreview` | the layout migration: moves, layout bump and completion marker, re-executable after a crash anywhere |
| `DispatchChains`, `DecisionLoop` | commit an intent, execute it, commit its result: for one command, and for concurrent chains under one mutex |
| `Scopes`, `Dispatch`, `DispatchRuns` | write scopes, the scheduler's offer, batch selection, and what holds of RUNNING nodes over runs of passes |
| `Protocol`, `Ledger`, `SessionRuns`, `AgentRuntime` | the event automaton, the session ledger, every interleaving of the runs over it, and the drain loop |
| `Routing`, `RoutingResolution` | approved provider bindings, fallback chains, installation checks, and the resolution that is approved and later re-checked |
| `ArtifactStore`, `Schema` | the immutable store's write protocol, and the schema validator of its bodies |
| `Delivery`, `Merge` | the fast-forward of the target, and serial merges with rollback, while others use the repository |
| `Policy` | the commit-policy safety stop and its settle |

State that the source updates in place is a class whose methods are proved against specification functions
and predicates; concurrent protocols are state machines whose steps are the critical sections. What the
outside world decides (a provider, git, the file system, a crash) is a parameter, quantified over.

## Where the code does less than it promises

Each of these has a counterexample and the exact condition under which the promise holds.

- `scopesOverlap` normalizes its left entry again for every right entry, so its verdict depends on position.
  It is exact for a left entry exactly when a second normalization changes nothing, and for a right entry
  exactly when its normal form has no trailing slash (`Scopes.ExactOnLeftIffStable`, `Scopes.ExactOnRightIffSlashless`,
  `Scopes.VerdictDependsOnPosition`). RUNNING agent tasks stay apart in every run exactly when only one node runs at a
  time or the plan is judicious: of two agent tasks that can meet and could write one path, each conflicts with the
  other (`DispatchRuns.SafeIffJudicious`). In a compiled graph two nodes can meet exactly when neither reaches the
  other through dependencies and neither waits for a review node (`DispatchRuns.MeetIffUnordered`). Plans with stable
  entries are judicious (`DispatchRuns.StablePlanIsJudicious`).
- `establish` and the fallback successor overwrite what their session id named. The indexes stay consistent
  exactly when that record was never bound, and nothing settled is lost exactly when it was not settled either
  (`Ledger.InsertConsistentIffUnbound`, `Ledger.InsertHarmlessIffReusable`).
- A terminal status is checked once, when a Resume begins. It is never left exactly when no other run works on
  the session then (`SessionRuns.ResumeSafeIffAlone`).
- Hydration checks no lineage (`SessionRuns.HydrateAcceptsCycle`, `SessionRuns.HydrateSoundIff`).
- A fallback looks a provider up by its first place, so a chain ends exactly when no provider is bound twice,
  which validation demands (`Routing.ChainsEndIffDistinct`).
- The comment of `applyFastForward` speaks of `git update-ref` with an expected value; the code runs
  `git merge --ff-only` after a check. For every rule on what others may do between two looks it is settled exactly
  whether all the worlds that obey it see only the recorded update (`Delivery.RecordedIffSteadfast`) and see success
  only with the target at the reviewed head (`Delivery.DeliveredIffTethered`); leaving attachment and head of the
  working tree alone is enough (`Delivery.QuietIsEnough`), a branch switch is not (`Delivery.DeliveredElsewhere`). The
  staged commit is pinned exactly when a reviewed head was recorded (`Delivery.PinnedIffRecorded`).
- `workspaceMerge` checks a commit and merges a branch name. Again for every rule on others: exactly when merge
  commits join the recorded head and the verified commit (`Merge.VerifiedIffUnmoved`), and exactly when reported heads
  are the recorded one or that merge (`Merge.SettleIffAnchored`, `Merge.MergedUnverified`).
- The safety stop clears its snapshot before the facts are read, so a stop gets a verdict exactly when every fact is
  readable at its own settle, and a commit can escape quarantine (`Policy.SafetyStop.StopsAndSettles`, `Policy.LostWindow`).
- A command whose last view fails reports an error after everything was committed (`DecisionLoop.RunCommand`).
- A failed `Put` leaves a content file behind exactly when the write reached the rename and removing the target
  did not happen; an empty newest revision directory hides the older ones from `Resolve` of revision 0
  (`ArtifactStore.Store.Put`, `ArtifactStore.Store.ResolveLatest`).
- Every float32 passes the schema type `integer`, and integers beyond 2^53 are compared after rounding
  (`Schema.NumbersCongruentIffNoClash`, `Schema.LargeIntegersMerge`).

## Model

| member | source | states |
|---|---|---|
| `Migration.MigrationHost.Preflight` | internal/app/migrate.go:541-576 | succeeds with index k exactly when the facts are a landed prefix of length k followed by a pending suffix, with matching identities, and k is the full length if the database advanced |
| `Migration.PreflightSaw` | internal/app/migrate.go:677-707 | what a passed preflight has seen of each move: the tree at one side only, an artifact with its digest, a worktree registered with its branch and head |
| `Migration.SeenIsShape` | internal/app/migrate.go:541-576 | facts like these on every move are all that is asked |
| `Migration.MigrationHost.PerformMove` | internal/app/migrate.go:764-842 | whatever the world answers, nothing changes, the one tree (with its registry entry) changes place, or a worktree move is torn; nothing is overwritten, and nothing leaves or enters but through the managed roots |
| `Migration.MigrationHost.LandOne` | internal/app/migrate.go:483-495 | a settled move extends the landed prefix by one; the change is a step of the protocol |
| `Migration.MigrationHost.LandPending` | internal/app/migrate.go:483-495 | the pending moves are performed in order, and every state passed through is a step after the one before |
| `Migration.MigrationHost.Execute` | internal/app/migrate.go:435-539 | refuses exactly when not ready, changing nothing; completes when nothing goes wrong; every intermediate state, hence every crash, is on the path of steps |
| `Migration.ShapeUnique` | internal/app/migrate.go:541-576 | the progress read from the facts is unique |
| `Migration.LandAdvances` | internal/app/migrate.go:483-495 | landing move k turns a prefix of k into one of k + 1 and blocks no later move |
| `Migration.CheckpointShape` | internal/app/migrate.go:477-538 | after p side effects the facts show exactly p: prefix length, layout version and marker |
| `Migration.TornFailsClosed` | internal/app/migrate.go:541-576 | a torn worktree move matches no prefix shape, so every later execution refuses it |
| `Migration.RunsFollowCheckpoints` | internal/app/migrate.go:435-539 | whatever crashes and retries happen, j side effects lead from checkpoint p to p + j or end in a torn move, so no move is performed twice |
| `Migration.StepFromCheckpoint` | internal/app/migrate.go:477-538 | from a checkpoint only the next checkpoint or a torn move can follow |
| `Migration.CheckpointProgress` | internal/app/migrate.go:477-538 | the measure (pending moves, layout, marker) falls by one with each side effect, and layout version 2 means every move landed |
| `Migration.CheckpointConserves` | internal/app/migrate.go:764-842 | at every checkpoint each moved tree is at exactly one of its two places with its content, and no other path is touched |
| `Migration.CrashLeavesReady` | internal/app/migrate.go:435-475 | every state a crash can leave, short of a torn move, is accepted again and can be finished |
| `Migration.RunOfExecutions` | internal/app/migrate.go:435-539 | over any chain of executions: at most one side effect per move plus two, the end is a checkpoint or torn, layout 2 implies all landed, completed implies layout 2 |
| `Migration.Recover` | internal/app/migrate.go:435-539 | after any number of crashes one undisturbed execution reaches the completed checkpoint |
| `LayoutPreview.PreviewIsExecutable` | internal/layout/migrate.go:176-240 | every preview's paths never equal or contain one another and every move stays between the managed roots, which is what the execution proofs need |
| `LayoutPreview.LegacyNeverMeetsAggregated` | internal/layout/migrate.go:176-240 | no legacy path contains or lies in an aggregated one, even for a workflow called workflows |
| `LayoutPreview.SlotMoveManaged` | internal/app/migrate.go:788-806 | every previewed move passes the path guard of the executor |
| `LayoutPreview.WhereThingsGo` | internal/layout/resolver.go:49-63 | every slot comes from its legacy place and goes where the aggregated layout looks for it |
| `LayoutPreview.SlotsHold` | internal/app/migrate.go:36-151 | a preview moves the planning snapshot, the manifest, every task and type, and the integration worktree exactly if recorded |
| `DispatchChains.StepInv` | internal/app/dispatch.go:764-973 | every action of every chain keeps the invariant of mutex, versions, ledger and execution log |
| `DispatchChains.QuietEffect` | internal/app/dispatch.go:826-861 | a decision without an effect commits: the version rises, exactly the open effect is settled, the mutex is free, and the loop goes on, completes or stops |
| `DispatchChains.EveryScriptFinishes` | internal/app/dispatch.go:764-906 | for any number of chains with any scripts of distinct effects within the budget some run completes every chain, with every effect committed, executed once and settled, and nothing else |
| `DispatchChains.InterruptedChainStops` | internal/app/dispatch.go:924-973 | an interrupted chain runs its settling loop and stops, owing the effect that was cut short |
| `DispatchChains.TwoResultsOwed` | internal/app/dispatch.go:924-973 | the bound of two owed results is reached |
| `DispatchChains.NeverStale` | internal/app/application.go:596-610 | a transaction inside the mutex commits against the version it viewed, and the result it feeds is still owed |
| `DispatchChains.UnsettledBound` | internal/app/dispatch.go:924-973 | a chain owes at most one result, two once interrupted, none once completed |
| `DispatchChains.EveryInterleaving` | internal/app/dispatch.go:513-535 | in every state of every interleaving: no stale version, no execution before its commit, twice, or twice under one identity in a loop, no result before its execution, and the bound on owed results |
| `DispatchChains.ExecutedAfterCommit` | internal/app/dispatch.go:764-906 | an effect enters the log only when an earlier state already held its committed, unsettled row |
| `DecisionLoop.EffectBudget` | internal/app/recover.go:136-200 | the budget is exactly the effects the aggregate justifies (one per running process, running attempt, open apply and open cleanup item, the command's chain, a chain per open session, the pending ones) plus the first and the final decision |
| `DecisionLoop.JustifiedGrows` | internal/app/recover.go:136-200 | each running process, running attempt, open apply, open cleanup item and pending effect justifies one effect, an open session two, other entities none |
| `DecisionLoop.AggregateStore.Transact` | internal/store/store.go:415-585 | commits exactly when the version matches, the kernel decides and a fed effect is pending; then state, one new row, the settled row and the version change together, else nothing |
| `DecisionLoop.CommitTurn` | internal/app/application.go:617-719 | one more committed decision settles the owed result and keeps the record of intents straight |
| `DecisionLoop.CommitNext` | internal/app/application.go:617-719 | the loop's next commit keeps everything committed before the loop and extends its record by one turn |
| `DecisionLoop.RunDecisionLoop` | internal/app/application.go:640-691 | for every kernel and executor: stops within the budget, feeds each decision the result of the previous effect, executes no identity twice, is complete exactly when the last decision asks for nothing, then owes nothing; otherwise it owes at most the last result and has failed for a named reason (`Excused`) |
| `DecisionLoop.RunCommand` | internal/app/application.go:617-719 | a command succeeds exactly when its loop is complete and the last view succeeds; without a first view nothing changes; the budget runs out only on a kernel that asked for more effects than are justified |
| `Scopes.ScopesOverlap` | internal/app/dispatch.go:718-733 | computes the dispatcher's verdict, entry i against entry j after j + 1 normalizations |
| `Scopes.CheckPath` | internal/app/adoption.go:306-319 | a path is in scope exactly when some entry admits it |
| `Scopes.NormalForms` | internal/app/dispatch.go:731-733 | a directory has one normal form, written plain, with a slash, with a glob marker or with both |
| `Scopes.AdmittedMeans` | internal/app/adoption.go:306-319 | each of these forms admits the directory and what lies below it, nothing else |
| `Scopes.OverlapExact` | internal/app/dispatch.go:718-733 | for stable left and slashless right entries the verdict holds exactly when some path is admitted by both lists |
| `Scopes.ExactOnLeftIffStable` | internal/app/dispatch.go:718-733 | a left entry is judged exactly against every list if and only if a second normalization leaves it alone |
| `Scopes.ExactOnRightIffSlashless` | internal/app/dispatch.go:718-733 | a right entry is judged exactly if and only if its normal form has no trailing slash |
| `Scopes.OverlapSymmetric` | internal/app/dispatch.go:718-733 | on stable lists the verdict is symmetric and blind to order and repetition |
| `Scopes.VerdictDependsOnPosition` | internal/app/dispatch.go:718-733 | a concrete pair of entries that conflict or not depending on what stands before them, although no path is shared |
| `Dispatch.Next` | internal/schedule/scheduler.go:34-107 | with the gate open offers distinct PENDING or READY nodes whose dependencies succeeded, within the cap and the kind budgets, and leaves one out only when the cap or its kind's budget is reached; offers nothing with the gate closed |
| `Dispatch.RunBudget` | internal/app/dispatch.go:79-90 | one attempt for every agent task, verify, merge and final-verify node and one for every budgeted retry |
| `Dispatch.BudgetOfNode` | internal/app/dispatch.go:79-90 | which kinds of node cost an attempt, and whose retries count |
| `Dispatch.TasksConflict` | internal/app/dispatch.go:704-713 | true exactly on a shared lock or an overlap of write scopes |
| `Dispatch.BlockingFinding` | internal/app/dispatch.go:684-699 | true exactly on a blocking finding of the workflow, the run or the node |
| `Dispatch.BlockedByOneMore` | internal/app/dispatch.go:684-699 | a further finding blocks everything, or its own subject, or nothing, by its scope |
| `Dispatch.SelectBatch` | internal/app/dispatch.go:621-680 | the batch is the greedy one of the specification, which takes the merge slot before judging the node |
| `Dispatch.BatchIsSafe` | internal/app/dispatch.go:621-680 | no selected agent task conflicts with an earlier member or a RUNNING agent task, and at most one merge runs |
| `Dispatch.BatchFromOffer` | internal/app/dispatch.go:621-680 | the batch is drawn without repetition from unblocked offered nodes while the budget lasts |
| `Dispatch.SelectedExactly` | internal/app/dispatch.go:621-680 | an offered node is selected exactly when it is a plan node other than a review, unblocked, within the budget, and a merge node is the first offered while none runs, an agent task conflicts with no RUNNING or earlier-selected one |
| `Dispatch.SkippedForAReason` | internal/app/dispatch.go:621-680 | a skipped node of any kind has a blocking finding or an exhausted budget, or is a merge beside or after another, an agent task in conflict with a RUNNING or earlier-selected one, or a review |
| `DispatchRuns.StepInv` | internal/app/dispatch.go:383-553 | every pass, commit, legal settlement, finding and crash keeps active nodes compatible, within the cap and with all they wait for succeeded, and the succeeded nodes in an order they can have run in |
| `DispatchRuns.LegalMoves` | internal/model/runtime.go:74-100 | the legal moves one by one, and that exactly the four final statuses have none |
| `DispatchRuns.RunningTasksAreDisjoint` | internal/app/dispatch.go:621-713 | over every run RUNNING agent tasks share no lock, at most one merge runs, the cap holds, and under a judicious plan no path is writable by two |
| `DispatchRuns.StablePlanIsJudicious` | internal/app/dispatch.go:718-733 | plans whose scope entries normalize in one step are judicious |
| `DispatchRuns.ActiveNodesCanMeet` | internal/schedule/scheduler.go:86-107 | nodes RUNNING at once can meet: all they wait for can have run before either starts |
| `DispatchRuns.PlacedBeside` | internal/app/dispatch.go:656-677 | two agent tasks that can meet, the second free of conflict with the first, are RUNNING together at the end of some run from a fresh graph through legal moves |
| `DispatchRuns.SafeIffJudicious` | internal/app/dispatch.go:621-713 | exactly the judicious plans, and passes of one node at a time, keep RUNNING agent tasks apart in every run |
| `DispatchRuns.MeetIffUnordered` | internal/compile/skeleton.go:38-64 | in a compiled graph two nodes can meet exactly when neither reaches the other through dependencies and neither waits for a review node |
| `Protocol.ProtocolSequence.Accept` | internal/agent/pipeline.go:101-146 | accepts an event exactly when the events so far with it are in the protocol's language, numbers it, and reports a missing id exactly for a known event in its place without one |
| `Protocol.WellFormedNext` | internal/agent/pipeline.go:101-146 | one more event keeps a sequence in the language exactly when it opens it, or continues it before any terminal event |
| `Protocol.NextEvent` | internal/agent/pipeline.go:101-146 | which event may come next, type by type |
| `Ledger.InsertConsistentIffUnbound` | internal/agent/drain.go:172-205 | adding a session keeps both indexes consistent exactly when its id named no bound record |
| `Ledger.InsertHarmlessIffReusable` | internal/agent/drain.go:185-204 | it is harmless to bound and settled sessions exactly when its id is reusable |
| `Ledger.StatusKeepsConsistent` | internal/agent/drain.go:286-288 | changing a status keeps both indexes consistent |
| `Ledger.LoadedFacts` | internal/agent/runtime.go:162-192 | hydrated facts are all appended and indexed under their own keys, and nothing else changes |
| `AgentRuntime.Runtime.Hydrate` | internal/agent/runtime.go:162-192 | succeeds exactly on valid facts with new and distinct ids; a refusal leaves a consistent ledger holding exactly the facts before the refused one |
| `AgentRuntime.Runtime.Establish` | internal/agent/drain.go:172-205 | creates a session exactly for an unbound claim |
| `AgentRuntime.Runtime.OpenSession` | internal/agent/drain.go:114-128 | the start event attaches the run to its established or resumed record and activates it |
| `AgentRuntime.Runtime.SettleWith` | internal/agent/drain.go:271-318 | records the final status in the session, only with an evidence root |
| `AgentRuntime.Runtime.Drain` | internal/agent/drain.go:41-165 | for every stream and cancellation pattern a run succeeds exactly when the stream is a start event, body events and one usable completion, then EOF, undisturbed; the returned events are the accepted ones in order, numbered from one; the result and the ledger left after a result or a fault are exactly those the inputs determine |
| `AgentRuntime.Runtime.Pump` | internal/agent/drain.go:76-144 | the loop stops at the first item that is not clean and leaves what that item determines |
| `AgentRuntime.SucceedsExactly` | internal/agent/drain.go:41-165 | a successful run event by event: one session, body events, one usable completion at the very end, nothing disturbed |
| `AgentRuntime.FailedExactly` | internal/agent/drain.go:84-164 | an opened session ends FAILED exactly without a completion at EOF, on a crash that can be redacted, on a violation with a live context that can be written, or on an event that cannot be redacted; COMPLETED and CANCELLED likewise exactly |
| `AgentRuntime.StopsOnce` | internal/agent/drain.go:76-144 | where a drain stops is determined |
| `AgentRuntime.Runtime.Conclude` | internal/agent/drain.go:146-164 | after EOF the outcome and the session's status follow from the terminal event and cancellation alone, never from an exit code |
| `AgentRuntime.Runtime.StreamError` | internal/agent/drain.go:84-106 | an error of the stream fails the session exactly for a redactable crash or a writable violation under a live context |
| `AgentRuntime.Runtime.ResumeFallback` | internal/agent/runtime.go:678-749 | without an approved fallback nothing changes; otherwise the original is LOST and gets one successor of its purpose on the approved provider |
| `AgentRuntime.Runtime.StartRun` | internal/agent/runtime.go:369-420 | a Start is refused untouched, or drains its own session under its predecessor; a careful run of the ledger that keeps the invariant and changes nothing bound or settled |
| `AgentRuntime.Runtime.ResumeRun` | internal/agent/runtime.go:582-672 | a Resume is refused untouched, drains its record, or falls back; likewise careful |
| `AgentRuntime.ResumedExactly` | internal/agent/runtime.go:609-621 | the four settled statuses are never resumed, the five others are |
| `SessionRuns.CarriesSoundly` | internal/agent/runtime.go:582-672 | whatever a careful run does to an idle ledger keeps its invariant and all that is bound or settled |
| `SessionRuns.StepInv` | internal/agent/drain.go:114-128 | every critical section of every run keeps indexes, run standing, successors and lineage sound, and changes nothing bound or settled |
| `SessionRuns.EveryRun` | internal/agent/runtime.go:582-672 | over every interleaving bound sessions keep record, provider session, purpose and predecessor, and settled ones their status |
| `SessionRuns.OneSuccessor` | internal/agent/runtime.go:692-736 | at most one automatic successor for each lost session, with its purpose |
| `SessionRuns.ChainsAreSound` | internal/agent/runtime.go:382-395 | no session precedes itself, and a lineage keeps one purpose |
| `SessionRuns.LineageInsert` | internal/agent/runtime.go:725-736 | a new successor keeps the lineage acyclic and of one purpose |
| `SessionRuns.ResumeSafeIffAlone` | internal/agent/runtime.go:609-617 | a Resume can never lead to leaving a settled status exactly when no other run works on its session |
| `SessionRuns.HydrateAcceptsCycle` | internal/agent/runtime.go:168-190 | a stored session that supersedes itself is accepted |
| `SessionRuns.HydrateSoundIff` | internal/agent/runtime.go:168-190 | a fresh runtime has a sound lineage exactly when the stored facts have one |
| `SessionRuns.ReportRoundTrip` | internal/agent/runtime.go:195-216 | a fresh runtime hydrated with the reported sessions knows the same sessions, soundly related |
| `Routing.HopMovesLater` | internal/agent/routing.go:117-132 | with distinct providers a fallback moves to the very next binding |
| `Routing.ChainPlaces` | internal/agent/routing.go:117-132 | n fallbacks move exactly n places down the list |
| `Routing.ChainsEndIffDistinct` | internal/agent/routing.go:117-132 | fallback chains have fewer hops than bindings exactly when no provider is bound twice |
| `Routing.ResolveMeans` | internal/agent/routing.go:86-111 | in a valid set a route resolves exactly when the purpose binds the provider, to that binding |
| `Routing.AnyDriftIsCaught` | internal/agent/routing.go:287-322 | a fully pinned binding compares with the installation it was pinned to and no other |
| `Routing.CapabilitiesAreProven` | internal/agent/routing.go:287-322 | a passed comparison proves the operation's capabilities, the protocol facts and every pin |
| `Routing.Validate` | internal/agent/routing.go:234-271 | accepts exactly the sets with distinct known purposes, each with distinct providers, protocol facts and start capabilities |
| `Routing.ValidMeans` | internal/agent/routing.go:234-271 | a valid set purpose by purpose and binding by binding |
| `Routing.Parse` | internal/agent/routing.go:208-228 | returns the decoded set exactly when it is of version 1 and valid |
| `Routing.ParseMarshalled` | internal/agent/routing.go:192-228 | a set survives marshal and parse unchanged exactly when it is valid |
| `Routing.ContentEqualIff` | internal/agent/routing.go:146-179 | two sets have equal content exactly when they agree on everything approved, binding by binding, whatever executables were observed |
| `Routing.BindingVerifier.Detect` | internal/agent/runtime.go:347-359 | a cached installation is returned without a probe |
| `Routing.BindingVerifier.VerifyBindings` | internal/agent/runtime.go:314-342 | after success every binding of every purpose agrees with the one cached installation of its provider, and exactly the referenced providers were probed, each once; it succeeds whenever every provider answers in agreement with its bindings |
| `Routing.BindingVerifier.ResolveProvider` | internal/agent/runtime.go:840-878 | every later approved operation is judged against that installation with no new probe, and every approved Start passes |
| `RoutingResolution.Resolution.FindInstallation` | internal/app/routing.go:128-145 | one probe per provider and pass, none without detection |
| `RoutingResolution.Resolution.BindRoute` | internal/app/routing.go:213-276 | a binding has the content its inputs determine and the pins of the one installation found; without detection it resolves exactly for approvable providers |
| `RoutingResolution.Resolution.PurposeProviders` | internal/app/routing.go:173-186 | the providers are the first mentions among the specs' routes and then the fallbacks |
| `RoutingResolution.Resolution.PurposePolicy` | internal/app/routing.go:167-200 | a purpose binds exactly those providers, in order |
| `RoutingResolution.Resolution.ResolveRoutingInputs` | internal/app/routing.go:85-113 | a resolved set has exactly the determined content, pinned to one installation per provider; without detection it resolves exactly when the inputs allow it, with detection at least when every provider answers sanely |
| `RoutingResolution.FirstOnlyOrder` | internal/app/routing.go:173-186 | providers keep the order of their first mention |
| `RoutingResolution.ProvidersInOrder` | internal/app/routing.go:173-186 | a later provider's specs all come after one of the earlier provider; providers of no spec come last, in fallback order |
| `RoutingResolution.RouteContent` | internal/app/routing.go:213-276 | what a resolved binding carries: model, budget and timeout of the first spec routed to its provider with the configured defaults filling in, protocol facts and capabilities of the registry, prompt of its purpose |
| `RoutingResolution.ResolvedIsValid` | internal/agent/routing.go:234-271 | every resolved set has distinct providers per purpose and passes validation |
| `RoutingResolution.ContentIsDetermined` | internal/agent/routing.go:146-179 | two resolutions of the same inputs have equal content, with or without detection |
| `RoutingResolution.DriftGate` | internal/app/routing.go:85-113 | a set resolved with detection, marshalled and parsed, comes back valid, the resolution without detection succeeds too, and the two are content-equal |
| `ArtifactStore.EffectSound` | internal/artifact/store.go:455-562 | any effect of a write keeps at most one content file per revision, each whole and hashing to its name, and loses none |
| `ArtifactStore.Store.WriteArtifact` | internal/artifact/store.go:455-562 | with a failure or crash at any step the store stays sound and keeps all content; the set of content files changes exactly when the rename was reached and not undone |
| `ArtifactStore.Store.Put` | internal/artifact/store.go:298-342 | a returned reference names a whole file with the given content in a revision that had none; success exactly when every step succeeds |
| `ArtifactStore.Store.Get` | internal/artifact/store.go:575-622 | returns the content exactly of a whole file under the reference's own name |
| `ArtifactStore.ReadableIsAuthentic` | internal/artifact/store.go:575-638 | what can be read is the canonical form of an envelope of that very slot whose digest is the file's name |
| `ArtifactStore.RevisionContentHash` | internal/artifact/validate.go:98-119 | finds a file exactly when the directory holds one content file |
| `ArtifactStore.Store.ResolveRevision` | internal/artifact/store.go:409-418 | a revision resolves exactly when its directory holds content, to a readable reference |
| `ArtifactStore.Store.ResolveLatest` | internal/artifact/store.go:382-418 | revision 0 resolves exactly when the newest directory holds content |
| `ArtifactStore.Store.PutThenOthers` | internal/artifact/store.go:298-360 | what was stored is read back unchanged after any further writes, failures and crashes |
| `Schema.Symmetric` | internal/artifact/schema.go:337-368 | value equality is symmetric across integer and float forms |
| `Schema.Transitive` | internal/artifact/schema.go:337-368 | and transitive |
| `Schema.ReflexiveIffNaNFree` | internal/artifact/schema.go:337-368 | and reflexive exactly on values without NaN |
| `Schema.EqualIffNormal` | internal/artifact/schema.go:337-399 | two values are equal exactly when they are one value up to number forms, without NaN |
| `Schema.Conjunction` | internal/artifact/schema.go:162-262 | a schema accepts exactly what each of its keyword groups accepts by itself |
| `Schema.NoConstraint` | internal/artifact/schema.go:162-166 | a schema node that is no object, or is empty, accepts everything |
| `Schema.TypeMeans` | internal/artifact/schema.go:265-318 | which values each type admits |
| `Schema.ConstMeans` | internal/artifact/schema.go:176-178 | a constant admits its own value up to number forms |
| `Schema.EnumMeans` | internal/artifact/schema.go:179-190 | an enumeration admits the values of its items |
| `Schema.MinimumMeans` | internal/artifact/schema.go:195-203 | a closed lower bound on numbers |
| `Schema.MaximumMeans` | internal/artifact/schema.go:195-203 | a closed upper bound on numbers |
| `Schema.MinLengthMeans` | internal/artifact/schema.go:204-209 | a lower bound on the length of strings |
| `Schema.MaxLengthMeans` | internal/artifact/schema.go:210-212 | an upper bound on the length of strings |
| `Schema.PatternMeans` | internal/artifact/schema.go:213-221 | strings match; a pattern that does not compile admits none |
| `Schema.MinItemsMeans` | internal/artifact/schema.go:224-226 | a lower bound on the items of arrays |
| `Schema.MaxItemsMeans` | internal/artifact/schema.go:227-229 | an upper bound on the items of arrays |
| `Schema.OtherBoundsMean` | internal/artifact/schema.go:320-325 | a bound that is no float64 binds nothing |
| `Schema.ItemsMeans` | internal/artifact/schema.go:230-236 | every item of an array is admitted |
| `Schema.RequiredMeans` | internal/artifact/schema.go:239-249 | an object has every listed key |
| `Schema.PropertiesMean` | internal/artifact/schema.go:250-255 | every named field of an object is admitted by its schema |
| `Schema.AdditionalPropertiesMean` | internal/artifact/schema.go:256-258 | unnamed fields are refused exactly when additionalProperties is false |
| `Schema.Congruence` | internal/artifact/schema.go:162-262 | equal values without clashing numbers are both accepted or both rejected by every schema |
| `Schema.BodiesCongruent` | internal/artifact/schema.go:162-262 | so are all equal bodies a YAML or JSON decoder can produce |
| `Schema.NumbersCongruentIffNoClash` | internal/artifact/schema.go:299-309 | equal numbers are told apart by some schema exactly when one is a non-integral float32 and the other a float64 |
| `Schema.RoundsToNearest` | internal/artifact/schema.go:371-399 | integers convert to the nearest multiple of the spacing of their binade, ties to even |
| `Schema.SmallIntegersExact` | internal/artifact/schema.go:371-399 | up to 2^53 distinct integers stay distinct |
| `Schema.LargeIntegersMerge` | internal/artifact/schema.go:337-340 | 2^53 and its successor are equal to the validator |
| `Delivery.Delivery.Recheck` | internal/app/apply.go:490-601 | passes exactly when every recheck holds in the state it looked at, succeeds early exactly when the target already is at the staged head, and updates nothing |
| `Delivery.Delivery.FastForwardWorkingTree` | internal/gitflow/merge.go:335-396 | makes at most one update, the fast-forward of what the working tree is on at the merge, and succeeds exactly when it is then clean at the new head |
| `Delivery.Delivery.ApplyFastForward` | internal/app/apply.go:490-636 | says exactly when a call updates and when it reports success, for any interference and any crash point; a blocked call made no update |
| `Delivery.RecordedIffSteadfast` | internal/gitflow/merge.go:349-385 | for every rule on what others may do: every call of every obeying world makes only the recorded update exactly when others may not bring the working tree elsewhere from where the staged commit is still a fast-forward |
| `Delivery.DeliveredIffTethered` | internal/gitflow/merge.go:371-396 | likewise: success always means the target is at the reviewed head exactly when others may not leave a clean tree at the staged commit with the checked branch elsewhere |
| `Delivery.QuietIsEnough` | internal/gitflow/merge.go:349-396 | leaving attachment and head of the working tree alone suffices for both |
| `Delivery.CallUpdates` | internal/app/apply.go:530-616 | in every world an update ends at the reviewed head and is a fast-forward |
| `Delivery.UpdateOnlyAfterGates` | internal/app/apply.go:530-601 | an update is made only after staging, target, workspace, integration and evidence were seen in order |
| `Delivery.Undisturbed` | internal/app/apply.go:490-636 | left alone, a delivery whose facts hold moves the target to the reviewed head and nothing else, and a second call changes nothing |
| `Delivery.PinnedIffRecorded` | internal/app/apply.go:530-533 | the staged commit is pinned to the reviewed one exactly when a reviewed head was recorded |
| `Delivery.Delivery.Deliver` | internal/app/apply.go:490-636 | over any number of crashed and retried calls: in every world updates end at the reviewed head and are fast-forwards; under a steadfast rule they are the recorded one and exceed by at most one the times others took the target off the reviewed head; under a tethered rule success means delivered |
| `Delivery.DeliveredElsewhere` | internal/gitflow/merge.go:371-395 | a branch switch between check and merge moves another branch and still reports success |
| `Merge.Workspace.WorkspaceMerge` | internal/app/gates.go:244-329 | reports a merge exactly when every check before and after it passed, and carries the head read back |
| `Merge.Workspace.RollbackMerge` | internal/gitflow/merge.go:121-178 | says exactly when the recorded head is restored, clean; a clean workspace there is left alone; only a conflicted merge is aborted and only a descendant of the recorded head is reset |
| `Merge.Workspace.MergeAll` | internal/app/gates.go:244-372 | over any sequence of merges, failures, rollbacks and crashes each settled head is the previous one or a merge commit; under an anchored rule on others it is the merge of exactly the verified commit onto the previous one, so the history has only verified commits |
| `Merge.SettledHistory` | internal/app/gates.go:244-372 | from base to settled head every step merges a verified commit onto the step before |
| `Merge.VerifiedIffUnmoved` | internal/gitflow/merge.go:40-74 | for every lawful rule on what others may do: merge commits always join the recorded head and the verified commit exactly when others may not move head or branch to where a merge would still make a commit |
| `Merge.SettleIffAnchored` | internal/app/gates.go:291-325 | likewise: reported heads are always the recorded one or that merge exactly when what others may do never makes another head pass the checks |
| `Merge.QuietIsAnchored` | internal/app/gates.go:260-325 | leaving the workspace head and the branches alone suffices for both |
| `Merge.UndisturbedMerge` | internal/app/gates.go:244-329 | left alone, a verified commit is merged onto the recorded head, and the merge commit joins the two in that order |
| `Merge.ConflictRolledBack` | internal/gitflow/merge.go:75-83 | a text conflict is a failure that leaves a merge in progress, and the rollback brings the workspace back as it was |
| `Merge.FailedMergeReset` | internal/gitflow/merge.go:153-177 | a committed merge that fails its checks is reset to the recorded head |
| `Merge.MergedUnverified` | internal/app/gates.go:269-325 | a branch moved after its lookup gets an unverified commit merged and reported |
| `Policy.SafetyStop.TriggerPolicyStop` | internal/app/policy.go:128-145 | arms exactly when nothing is armed and no settle runs |
| `Policy.SafetyStop.TakePolicyDriftSnapshot` | internal/app/policy.go:170-182 | claims exactly the snapshot fixed at the arming, once, and starts the only settle |
| `Policy.SafetyStop.FinishPolicySettle` | internal/app/policy.go:416-420 | ends the settle, keeping the record of armed and claimed snapshots |
| `Policy.SafetyStop.Interleave` | internal/app/policy.go:128-182 | over every interleaving the claimed snapshots are the armed ones in order, up to one pending, and at most one settle runs |
| `Policy.SafetyStop.Settle` | internal/app/policy.go:242-284 | a settle claims the pending snapshot, judges it on the facts it finds and finishes, whatever the verdict |
| `Policy.SafetyStop.StopsAndSettles` | internal/app/policy.go:128-284 | over any sequence of stops and settles each claimed snapshot is judged once, and gets a verdict exactly when every fact is readable at its settle |
| `Policy.LostWindow` | internal/app/policy.go:250-258 | a run in which an unreadable head loses the snapshot, and the commit of its window is never quarantined |
| `Policy.SettlePolicyDrift` | internal/app/policy.go:242-284 | decides nothing exactly when a fact is unreadable, otherwise quarantines exactly the worktrees that moved over a non-empty range, and asks for confirmation exactly when none did |
| `Policy.WindowMeans` | internal/app/policy.go:261-279 | a quarantined window runs from the head fixed at the stop to the one found, over a non-empty range, for that worktree's branch and node |
| `Policy.CoverIsUnique` | internal/app/policy.go:250-279 | the quarantined worktrees do not depend on the order of the visit |

## Assumptions

- `Migration`: paths of a manifest are separate, which `LayoutPreview.PreviewIsExecutable` proves of previews; an
  artifact rename is atomic, and a worktree move may in addition be torn.
- `Protocol`: the binding's start event is `session_started`, as in every shipped binding.
- `SessionRuns`: the caller's part is the predicate `Careful`; the theorems above say what each item of it is worth.
- `RoutingResolution`: the registry is one the loader accepts, with non-empty names, dialects and revisions.
- `Routing`, `RoutingResolution`: the JSON codec loses nothing of the sets the inputs resolve to.
- `ArtifactStore`: the canonical serialization can be parsed back; a digest is 64 lowercase hex characters.
- `DispatchRuns`: the run budget is at least the number of charged nodes, as `Dispatch.RunBudget` computes it.
- `ArtifactStore`: writers are serialized and the rename never replaces.
- `Delivery`, `Merge`: commits are immutable; git's ancestry answers are a parameter.

## Left out

- `internal/cli`, menus, projections, reports: rendering only.
- `internal/decision`: the kernel is an arbitrary function; of its rules only the legal node moves, and that a checkpoint succeeds as it is committed, enter the runs of passes.
- Provider adapters, process supervision, file modes, ownership, symlink checks and fsync: their outcomes are parameters.
- SHA-256, JSON, YAML and regular expressions: parameters, with the assumptions above.
- Migration Prepare, its manifest file and its database backup: the execution starts from what Prepare leaves.
- Cleanup executors, adoption gates beyond the scope check, native discussion builders: straight-line checks.
- Legacy integration merge and rollback, and the apply staging merge: the same git operations as the workspace merge.
- Evidence files of a run, redaction of text, context bundles: only their failures are modelled; `Bootstrap` is the `Launching`, `Claimed`, `Draining`, stopped path of `SessionRuns`.
- Streams that never end: the drain does not return on them.
- Maximal use of the merge slot and a tight run budget: the code takes the slot before judging the node and does not count the current batch.
- Foreign files in the artifact tree, and monitors that arm after a settle has finished.
- PerformMove: an artifact move whose source is missing is reported done without a look at its destination, as in the source; the caller verifies the destination afterwards.
- Congruence: the converse for whole arrays and objects is not claimed, because an items schema applies to every element and another element can make both bodies fail.
- Deliver: at most one update is stated through the count of the times others undo one, not as a condition on what others may do between whole calls.
- RunDecisionLoop: a repeated intent identity is compared as the intent value itself.
