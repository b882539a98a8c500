# GraphClaw agent core: a verified model

GraphClaw's agent turns conversations into a graph of goals and tasks, plans and executes them, and hands tasks to
sub-agents. This project models the stateful core of that agent in Dafny and proves what it guarantees.

**Tiered delegation** (`TopologicalSort`, `Jobs`, `DispatchPlanner`, `PoolProtocol`, `PoolSafety`, `PoolProgress`,
`Pool`, `Delegation`). The planner's tiers are described by walks along dependency edges, not by the algorithm: a task
sits in the tier whose index is the length of its longest dependency chain, and a last extra tier holds exactly the tasks
from which some walk runs into a cycle. The pool is a state machine whose steps are the stretches of code between two
`await`s; coordinator, consumer, runners and publishes interleave freely. Invariants over every reachable state give the
tier gate, conservation of slots and the single completion announcement. A run takes at most eight steps for each job
registered in it, and only a pool at rest cannot move. A session prefix may be used again once its plan is complete. The
classes of module `Pool` carry out the same steps in place and are proved equal to them, and `Delegation` composes planner
and pool.

**What the orchestrator's turn publishes** (`TurnPublishing`, `TurnServing`, `TurnOrder`, `TurnSkips`, `TurnRepeats`,
`OneSlot`, `OrderedTurn`, `OrderedRuns`, `TurnGate`, `TurnAnnouncing`). The turn registers its plan and then publishes all
of its jobs, where the pool expects the first tier only. How often each job runs and the plan is announced is computed
for every run; when the tier gate breaks, and when the plan is announced while it is still at work, is decided for every
pool size and every order of publishing. The harder half of that is an invariant of the line in which jobs wait for a
single slot.

**Edit distance and name similarity** (`EditDistance`, `NameSimilarity`). The two-row loop returns the least number of
single-character insertions, deletions and substitutions over all edit scripts. A script here is any sequence of
positional edits, so the lower bound needs the fact that one edit anywhere moves the recurrence by at most one. Scores
are exact rationals; stripping and lower-casing is one abstract normaliser.

**Plans** (`PlanLifecycle`, `PlanExecution`, `PlanGraph`, `PlanDependencies`, `PlanWiring`). A plan record is edited, approved and
executed in place; execution writes a graph store step by step, any write may raise, and a failure is compensated by
deletions. Which dependencies and which other links an execution writes, why the dependencies close no cycle, and exactly
when the rollback restores the graph are proved for every pattern of failing writes.

**The agent loop** (`AgentLoop`, `AgentStream`, `ChatMeaning`, `StreamMeaning`). Model and tools are arbitrary functions
of the round and the call. Event traces and message transcripts are proved well formed for all of them; the two modules
of meaning say what they are, and how a run ends, from the model's turns and the tools' outcomes alone.

**Smaller stateful parts** (`DecisionQueue`, `KeyManager`, `EpisodicRecall`, with `Options`, `Sequences` and `Sorting`). A
write-through cache over a table that behaves as one map, the life of agent keys over whole runs, and the two-stage
ranking of episodic memory.

Where the code falls short of what its documentation or design promises, the exact condition is proved:

- Rolling back a failed plan execution restores the graph for every pattern of failing writes if and only if no
  DELEGATED task of the selection, with readable dependency indices in it and all tasks before it, is followed by another
  selected task (`RollbackIsExactExceptAfterDelegation`).
- A tool call has a single end event if and only if no executed tool returned a value that cannot be written as JSON;
  otherwise `tool.completed` is followed by `tool.failed` (`SingleEndsUnlessNotSerialisable`).
- The planner keeps every job if and only if there is at most one job, no edge was found, or the task ids are distinct
  (`PlanKeepsEveryJob`).
- A rejected edit leaves a plan unchanged if and only if the plan was executed or the given title fields already had
  those values; an APPROVED plan stays approved under changed titles (`RejectedEditKeepsPlan`).
- A plan that has just been executed can be executed once more if and only if the write that records the execution was
  lost and an earlier state of the plan is stored; a restart is what brings it back (`ExecutesAgainIffWriteWasLost`).
- The pool keeps the tier gate, and runs each job once, when the first tier is what gets published. The orchestrator's
  turn publishes every delegated job. With two slots or more, some run then breaks the gate if and only if the plan has
  more than one tier. With one slot it does if and only if the order of publishing is not one that keeps it: tier by
  tier, the second tier (unless it is the last) in exactly the reverse of its listed order, and every tier between the
  second and the last made of one job or of copies of one job (`GateCanBeSkippedIff`).
- Each job of such a turn runs exactly once, and the plan is announced exactly once, if and only if it has one tier,
  because the pool publishes the later tiers again, more often from tier to tier (`TurnRunsAtRest`,
  `JobsRunOnceOnlyForOneTier`, `TurnAnnouncesAtRest`). Some run announces the plan while copies of its jobs are still to
  return if and only if it has more than one tier (`AnnouncedEarlyIff`). The jobs of all other plans still
  run exactly once (`OtherPlansRunOnce`).
- A pool built with `max_size` 0 never runs anything (`NoSlotsNoProgress`); every other pool finishes. The configuration
  refuses 0 (src/graphclaw/infra/config.py:185), so this takes a pool that is constructed directly.

## Model

| member | source | states |
|---|---|---|
| TopologicalSort.Kahn | src/graphclaw/agent/dispatch_planner.py:151-201 | the sort ends, its tiers are non-empty, disjoint and cover the ids; tier i holds exactly the tasks whose longest chain has i edges; an extra last tier exists iff some task reaches a cycle and holds exactly those |
| TopologicalSort.BuildCounts | src/graphclaw/agent/dispatch_planner.py:168-173 | in-degrees count edges with repetitions and the dependents lists record every edge |
| TopologicalSort.FinishTier | src/graphclaw/agent/dispatch_planner.py:178-189 | finishing a tier settles its edges and queues exactly the tasks that became ready, once each |
| TopologicalSort.DoneMeansShortWalks | src/graphclaw/agent/dispatch_planner.py:178-189 | a task is done after k tiers iff no dependency walk from it visits more than k tasks |
| TopologicalSort.StuckMeansCycle | src/graphclaw/agent/dispatch_planner.py:191-199 | when no tier is left to take, the tasks left over are exactly those from which a walk reaches a cycle |
| TopologicalSort.TiersAreMinimal | src/graphclaw/agent/dispatch_planner.py:151-201 | no other layering that respects the edges places a task earlier, so none uses fewer tiers |
| TopologicalSort.DependencyIsEarlier | src/graphclaw/agent/dispatch_planner.py:151-201 | a dependency's longest chain is strictly shorter |
| DispatchPlanner.FetchEdges | src/graphclaw/agent/dispatch_planner.py:122-145 | (order[i], u) is an edge iff u is a non-empty id of the plan, order[i] was queried before the first query that raises, and one of its rows names u by target_id, or by to_id where that is empty, or by end_id where both are |
| DispatchPlanner.Plan | src/graphclaw/agent/dispatch_planner.py:65-116 | from the edges fetched: one flat tier if there are none, else the sorted tiers carrying each task's job; every job carries its tier's batch id |
| DispatchPlanner.PlanAssignsBatches | src/graphclaw/agent/dispatch_planner.py:84-116 | every job of tier i carries batch id i, and no tier is empty unless there is no job |
| DispatchPlanner.PlanKeepsEveryJob | src/graphclaw/agent/dispatch_planner.py:84-116 | no job is lost iff at most one job, no edge, or distinct task ids |
| DispatchPlanner.PlanContainsEveryJob | src/graphclaw/agent/dispatch_planner.py:94-116 | with distinct ids each job is planned as itself |
| DispatchPlanner.DependencyIsPlannedEarlier | src/graphclaw/agent/dispatch_planner.py:104-116 | outside the cycle remainder a dependency is planned in a strictly earlier tier |
| DispatchPlanner.NamedDependencyIsPlannedEarlier | src/graphclaw/agent/dispatch_planner.py:65-145 | with distinct ids, a query row of job x that names job y in one of its three id fields, and no cycle reached from x: y is planned in a strictly earlier tier than x |
| Jobs.TierIndexRoundTrip | src/graphclaw/agent/sub_agent_pool.py:302-309 | the tier number is read back from every planned batch id, whatever the session id contains |
| Jobs.TextIsInjective | src/graphclaw/agent/dispatch_planner.py:111-111 | different batches have different id texts |
| Jobs.TextReads | src/graphclaw/agent/dispatch_planner.py:111-111 | a batch id reads "batch-", the prefix, "-t" and the tier in decimal without leading zeros |
| Jobs.NoMarkerReadsZero | src/graphclaw/agent/sub_agent_pool.py:302-309 | a batch id without the marker reads as tier 0 |
| PoolSafety.StepKeepsInv | src/graphclaw/agent/sub_agent_pool.py:381-494 | every step of registration, consumer, runners and publishes keeps the invariant |
| PoolSafety.ReachableInv | src/graphclaw/agent/sub_agent_pool.py:102-494 | the invariant holds in every reachable state, for any number of concurrent plans, and when a prefix is used again after its plan is complete |
| PoolSafety.OneFrontierTier | src/graphclaw/agent/sub_agent_pool.py:133-161 | each plan has one frontier tier: earlier tiers complete with nothing under way, under way plus recorded make up the frontier tier, nothing of later tiers is queued, running or done |
| PoolSafety.NoJobStartsEarly | src/graphclaw/agent/sub_agent_pool.py:446-494 | once a job has started for the latest plan of its prefix, every job of every earlier tier of that plan has returned |
| PoolSafety.CompletionComesLast | src/graphclaw/agent/sub_agent_pool.py:157-177 | DELEGATION_COMPLETE goes out at most once for each plan, after every job of every tier has returned |
| PoolSafety.SlotsAreConserved | src/graphclaw/agent/sub_agent_pool.py:414-480 | permits plus held slots is max_size, active runners never exceed it, the queued count is 0 or 1, runner ids do not collide, neither clamp acts |
| PoolProgress.StepDecreases | src/graphclaw/agent/sub_agent_pool.py:414-494 | every step but a registration brings the measure of work left down |
| PoolProgress.RunsAreShort | src/graphclaw/agent/sub_agent_pool.py:381-494 | however steps and registrations interleave, a run takes at most eight steps for each job registered in it, beyond what was due at its start |
| PoolProgress.EightStepsAJob | src/graphclaw/agent/sub_agent_pool.py:381-494 | from the start, at most eight steps for each job ever registered |
| PoolProgress.SomeStepIsEnabled | src/graphclaw/agent/sub_agent_pool.py:414-494 | with a slot, a pool that is not at rest can move |
| PoolProgress.OnlyRestIsFinal | src/graphclaw/agent/sub_agent_pool.py:414-494 | with a slot, a pool that cannot move is at rest |
| PoolProgress.EveryScheduleEnds | src/graphclaw/agent/sub_agent_pool.py:414-494 | every scheduler, which may decide by everything done so far, brings the pool to rest |
| PoolProgress.RestMeansComplete | src/graphclaw/agent/sub_agent_pool.py:133-161 | at rest every registered plan is past its last tier |
| PoolProgress.RestMeansExactlyOnce | src/graphclaw/agent/sub_agent_pool.py:446-494 | at rest each job has started and returned exactly as often as the plans so far contain it |
| PoolProgress.RunToRestRunsEachJobOnce | src/graphclaw/agent/sub_agent_pool.py:381-494 | every run from the start to rest has started each job, and seen it return, exactly as often as it was registered in that run |
| PoolProgress.RestMeansAnnouncedOnce | src/graphclaw/agent/sub_agent_pool.py:157-177 | at rest each plan so far has announced its completion exactly once, and nothing else was announced |
| PoolProgress.RunToRestAnnouncesEachPlanOnce | src/graphclaw/agent/sub_agent_pool.py:157-177 | every run from the start to rest has announced each plan registered in it exactly once |
| PoolProgress.RestMeansIdle | src/graphclaw/agent/sub_agent_pool.py:414-480 | at rest all slots are free and all counters are zero |
| PoolProgress.NoSlotsNoProgress | src/graphclaw/agent/sub_agent_pool.py:433-444 | without slots no run starts a job or announces anything |
| Pool.BatchCoordinator.RegisterBatch | src/graphclaw/agent/sub_agent_pool.py:106-131 | the entry of the batch is replaced by a fresh one with nothing completed |
| Pool.BatchCoordinator.RecordCompletion | src/graphclaw/agent/sub_agent_pool.py:133-161 | one more completion is counted for a known batch; only the last one releases the next tier, through the announcement if the tier is final |
| Pool.BatchCoordinator.RegisterDispatchPlan | src/graphclaw/agent/sub_agent_pool.py:381-408 | the entries made tier by tier are those of the protocol's registration |
| Pool.RegisterFirstOfTiering | src/graphclaw/agent/sub_agent_pool.py:381-408 | for planner output the loop makes one entry per tier, keyed by prefix and index |
| Pool.RegisteredTiers | src/graphclaw/agent/sub_agent_pool.py:381-408 | after registration each tier has an entry with its own jobs, the next tier, nothing completed, final iff it is the last; all other entries stay |
| Pool.SubAgentPool.Register | src/graphclaw/agent/sub_agent_pool.py:381-408 | refines the registration step, under a new prefix or one whose plan is complete |
| Pool.SubAgentPool.Receive | src/graphclaw/agent/sub_agent_pool.py:418-432 | refines taking a message and counting it as queued |
| Pool.SubAgentPool.Acquire | src/graphclaw/agent/sub_agent_pool.py:433-440 | refines getting a slot and spawning the runner |
| Pool.SubAgentPool.Start | src/graphclaw/agent/sub_agent_pool.py:446-472 | refines numbering and starting a runner |
| Pool.SubAgentPool.Return | src/graphclaw/agent/sub_agent_pool.py:473-480 | refines a runner's end, by return or exception |
| Pool.SubAgentPool.Record | src/graphclaw/agent/sub_agent_pool.py:482-483 | refines the atomic increment and test of the batch |
| Pool.SubAgentPool.Announce | src/graphclaw/agent/sub_agent_pool.py:163-177 | refines publishing DELEGATION_COMPLETE |
| Pool.SubAgentPool.Publish | src/graphclaw/agent/sub_agent_pool.py:484-494 | refines publishing one job of the next tier |
| Pool.SubAgentPool.TakeStep | src/graphclaw/agent/sub_agent_pool.py:414-494 | takes one step of publisher, consumer or any coroutine, whichever, and it is a step of the protocol |
| Pool.SubAgentPool.RunToRest | src/graphclaw/agent/sub_agent_pool.py:414-494 | from any reachable state a pool with a slot ends in a reachable state of rest, with every job run as often as the plans so far contain it |
| Delegation.PlanAndRegister | src/graphclaw/agent/main_orchestrator.py:4485-4560 | planner output, computed from the edges the queries reported, registers as a plan of the protocol under the session's prefix |
| Delegation.DependencyFinishesFirst | src/graphclaw/agent/sub_agent_pool.py:381-494 | if a job has started for the plan and its task, from which no cycle is reached, depends on b, the job of b has returned in an earlier tier |
| Delegation.DelegationRunsEveryJobOnce | src/graphclaw/agent/sub_agent_pool.py:381-494 | any job list with distinct ids, registered in any reachable state in which its prefix is free: every run from there to rest, with other plans registered meanwhile, has run each of its jobs exactly once more |
| Delegation.DelegationIsAnnouncedOnce | src/graphclaw/agent/sub_agent_pool.py:157-177 | and its completion has been announced exactly once more |
| Delegation.Delegate | src/graphclaw/agent/main_orchestrator.py:4485-4560 | planning, registering and running on the pool itself ends at rest with each job run once more than before |
| TurnPublishing.TurnRunsAtRest | src/graphclaw/agent/main_orchestrator.py:4713-4729 | a turn that publishes all jobs of its plan, in any reachable pool whose prefix is free, other plans under way or registered meanwhile: every run to rest has run each job of tier i the computed number of times, on top of earlier runs: the first tier once, the second twice, further tiers more |
| TurnPublishing.JobsRunOnceOnlyForOneTier | src/graphclaw/agent/main_orchestrator.py:4713-4729 | in every such pool: every run of the turn to rest runs each job exactly once iff the plan has one tier |
| TurnPublishing.OtherPlansRunOnce | src/graphclaw/agent/main_orchestrator.py:4713-4729 | at rest the jobs of all other plans have run exactly as often as listed |
| TurnPublishing.TurnAnnouncesAtRest | src/graphclaw/agent/sub_agent_pool.py:157-177 | every run of such a turn to rest has announced its plan the computed number of times more than before; once iff the plan has one tier |
| TurnPublishing.TurnComesToRest | src/graphclaw/agent/main_orchestrator.py:4713-4729 | such a turn can always be run to rest |
| TurnGate.GateCanBeSkippedIff | src/graphclaw/agent/main_orchestrator.py:4713-4729 | the turn of a fresh pool, every pool size and every order of publishing: some run starts a job while a job of an earlier tier has not returned iff there are two slots and two tiers, or one slot and an order that does not keep the gate |
| TurnSkips.OutOfOrderSkips | src/graphclaw/agent/main_orchestrator.py:4713-4729 | with any number of slots, a job of a later tier published ahead of one of an earlier tier can start before that one has returned |
| TurnSkips.SeveralSlotsSkip | src/graphclaw/agent/sub_agent_pool.py:433-444 | with two slots, no order of publishing two tiers or more keeps the gate |
| TurnRepeats.SecondTierSkips | src/graphclaw/agent/sub_agent_pool.py:484-494 | published tier by tier, on one slot: a second tier not in the reverse of its listed order can be completed by two copies of one of its jobs, so that the third tier starts while another has not run |
| TurnRepeats.MiddleTierSkips | src/graphclaw/agent/sub_agent_pool.py:484-494 | so can any tier between the second and the last that holds two different jobs |
| OneSlot.LineChanges | src/graphclaw/agent/sub_agent_pool.py:414-480 | with one slot, every step leaves the line of jobs that have not returned alone, adds one at its end, or takes the first away as it returns |
| OrderedRuns.OrderKeepsGate | src/graphclaw/agent/sub_agent_pool.py:414-494 | with one slot, no run of a turn whose order keeps the gate skips it |
| TurnAnnouncing.AnnouncedEarlyIff | src/graphclaw/agent/sub_agent_pool.py:157-177 | some run of the turn announces its plan while copies of its jobs are still to return, iff there is a slot and more than one tier |
| TurnAnnouncing.AnnouncedBeforeAllIff | src/graphclaw/agent/sub_agent_pool.py:157-177 | with two slots or more, some run announces it before every job has returned as often as it was published, iff there is more than one tier |
| EditDistance.Levenshtein | src/graphclaw/agent/briefing.py:340-354 | the two-row loop returns the least number of single-character edits over every script from a to b |
| EditDistance.Neighbours | src/graphclaw/agent/briefing.py:347-352 | neighbouring cells differ by at most one, which is what makes the diagonal-only step sound |
| EditDistance.NoShorterScript | src/graphclaw/agent/briefing.py:340-354 | no script of positional edits is shorter than the recurrence's value |
| EditDistance.ScriptIsOptimal | src/graphclaw/agent/briefing.py:340-354 | a script of exactly that length exists and is carried out |
| EditDistance.DistanceIsLeast | src/graphclaw/agent/briefing.py:340-354 | the recurrence is the minimum over all scripts |
| EditDistance.DistanceZero | src/graphclaw/agent/briefing.py:340-354 | zero exactly on equal strings |
| EditDistance.DistanceSymmetric | src/graphclaw/agent/briefing.py:340-354 | symmetric |
| EditDistance.TriangleInequality | src/graphclaw/agent/briefing.py:340-354 | triangle inequality |
| EditDistance.DistanceBounds | src/graphclaw/agent/briefing.py:340-354 | at least the difference and at most the maximum of the lengths |
| NameSimilarity.ComputeSimilarity | src/graphclaw/agent/briefing.py:321-337 | computes the similarity through the two-row loop |
| NameSimilarity.SimilarityIsOneFormula | src/graphclaw/agent/briefing.py:327-337 | the early returns and the clamp never change the value of 1 - dist / max_len |
| NameSimilarity.SimilarityLaws | src/graphclaw/agent/briefing.py:321-337 | within 0 and 1, symmetric, and 1 exactly when the normalised names are equal |
| NameSimilarity.ThresholdMeansFewEdits | src/graphclaw/agent/briefing.py:312-316 | reaching a threshold means at most that share of the longer name has to be edited |
| NameSimilarity.PairsFromIsExact | src/graphclaw/agent/briefing.py:296-318 | the double loop meets each unordered pair of positions once, in order |
| NameSimilarity.FindDuplicates | src/graphclaw/agent/briefing.py:264-318 | a pair of positions is reported iff the two ids are not the same non-empty id and score.num * threshold.den >= threshold.num * score.den; each report carries the ids and names of its two rows in order and the score of their names; reports come in loop order, once each |
| PlanGraph.OkMeans | src/graphclaw/agent/main_orchestrator.py:4138-4218 | an execution goes wrong exactly when the goal's or a selected task's node cannot be made or its dependencies cannot be read; edge and follow-up errors are swallowed |
| PlanGraph.ExecutionIsAccounted | src/graphclaw/agent/main_orchestrator.py:4138-4206 | every node made is either recorded for rollback or a follow-up whose id was lost, and nothing old is touched |
| PlanGraph.DetachAllMeans | src/graphclaw/agent/main_orchestrator.py:4219-4229 | rollback removes exactly the recorded nodes and the edges at them |
| PlanGraph.RollbackRestoresUnlessLost | src/graphclaw/agent/main_orchestrator.py:4219-4234 | after a failure the graph equals the one before iff no follow-up id was lost |
| PlanGraph.RollbackIsExactExceptAfterDelegation | src/graphclaw/agent/main_orchestrator.py:4133-4234 | a selection is restored under all patterns of failing writes iff no DELEGATED task in it, readable like all before it, is followed by another |
| PlanGraph.RollbackMissesFollowUp | src/graphclaw/agent/main_orchestrator.py:2930-2947 | the failing writes that leave a follow-up behind |
| PlanWiring.ExecutionWires | src/graphclaw/agent/main_orchestrator.py:2813-2947 | a good execution leaves the goal node, each task PART_OF the goal and OWNED_BY the owner, each follow-up FOLLOW_UP_FOR its task, the task of a linked follow-up marked as delegated, and besides dependencies nothing else; a link is missing iff its write raised or there is no owner |
| PlanDependencies.ExactlyWantedDependencies | src/graphclaw/agent/main_orchestrator.py:4170-4196 | the dependencies added are those the plan's indices name among earlier selected tasks, exactly these if their writes do not raise; other indices are dropped |
| PlanDependencies.WritesPointBack | src/graphclaw/agent/main_orchestrator.py:2829-2833 | every dependency written points from a later-made task to an earlier one, whatever raises |
| PlanDependencies.ExecutionKeepsAcyclic | src/graphclaw/agent/main_orchestrator.py:4159-4234 | an acyclic dependency graph stays acyclic, after success and after rollback |
| PlanDependencies.PlannerHasNoRemainder | src/graphclaw/agent/dispatch_planner.py:191-199 | on dependencies read from that graph the dispatch planner has no remainder tier |
| PlanExecution.SelectTasks | src/graphclaw/agent/main_orchestrator.py:4126-4168 | selects, in plan order and under distinct places, exactly the object tasks: all of them if no argument is a non-blank string, else those whose stripped draft id is one of the stripped arguments |
| PlanExecution.GraphStore.CreateTask | src/graphclaw/agent/main_orchestrator.py:2761-2959 | the node with its links and follow-up, and which ids are reported back |
| PlanExecution.GraphStore.SpawnFollowUp | src/graphclaw/agent/main_orchestrator.py:2928-2947 | an error after the follow-up node was made keeps the node and loses its id |
| PlanExecution.GraphStore.CreateAll | src/graphclaw/agent/main_orchestrator.py:4138-4218 | goal and task loop up to the first exception, with the ids recorded |
| PlanExecution.GraphStore.RollBack | src/graphclaw/agent/main_orchestrator.py:4219-4229 | deletes the recorded nodes, newest first |
| PlanExecution.GraphStore.Execute | src/graphclaw/agent/main_orchestrator.py:4133-4250 | leaves the graph of a full execution, or of the rollback |
| PlanLifecycle.RejectedEditKeepsPlan | src/graphclaw/agent/main_orchestrator.py:4020-4048 | a rejected edit changes nothing but titles, and those iff a given one differs on a plan not yet executed |
| PlanLifecycle.AcceptedEditIsTaken | src/graphclaw/agent/main_orchestrator.py:4020-4062 | an edit is accepted iff the plan is not executed, the tasks are absent or a list of objects, and something is given; then there are as many tasks as given items, each with its item's dependencies and delegated flag, under the given draft id or else "DRAFT-TASK-" and its number; without a list the tasks stay; the four title fields take the given values and nothing else changes |
| PlanLifecycle.StepOfPlan | src/graphclaw/agent/main_orchestrator.py:4010-4250 | the only moves of a plan are accepted edit, approval, successful execution and proposal, each with what it does to status, revision and tasks |
| PlanLifecycle.ExecutionReadsApprovedTasks | src/graphclaw/agent/main_orchestrator.py:4084-4124 | in every run whose restarts find this plan written out, the tasks an execution reads are those in place at the latest approval, with no accepted edit since |
| PlanLifecycle.ExecutionReadsLatestTasks | src/graphclaw/agent/main_orchestrator.py:3974-4124 | and they are, item by item, those of the latest accepted edit that gave a list, or the first max_tasks of the proposal if none did |
| PlanLifecycle.ChangesAreWritten | src/graphclaw/agent/main_orchestrator.py:3444-3479 | a changed plan is in memory and, iff the write goes through, in storage; nothing else is written; an approval records the approver; other plans are left alone |
| PlanLifecycle.ExecutedOnce | src/graphclaw/agent/main_orchestrator.py:4116-4124 | after a successful execution no execution, approval or edit of the plan is taken, and nothing about it changes, titles and approver included |
| PlanLifecycle.RevisionCountsEdits | src/graphclaw/agent/main_orchestrator.py:4051-4062 | a plan's revision rises by exactly the number of accepted edits |
| PlanLifecycle.ExecutesAgainIffCopyIsBehind | src/graphclaw/agent/main_orchestrator.py:3453-3479 | a plan executed in memory can be executed once more, with restarts at any time, iff a stored copy of it does not say it was executed |
| PlanLifecycle.ExecutesAgainIffWriteWasLost | src/graphclaw/agent/main_orchestrator.py:4236-4242 | in every run: a plan just executed can be executed once more iff the write that records the execution was lost and an earlier state of the plan is stored |
| PlanLifecycle.LostWriteExecutesTwice | src/graphclaw/agent/main_orchestrator.py:3453-3461 | a run in which that happens |
| PlanLifecycle.PlanRecord.Edit | src/graphclaw/agent/main_orchestrator.py:4020-4062 | on the record itself: which edits are accepted, the tasks, titles, revision, status and approver after an accepted one, and that a rejected one changes titles at most |
| PlanLifecycle.PlanDesk.LoadPlan | src/graphclaw/agent/main_orchestrator.py:3463-3479 | memory first, then storage, which is then cached |
| PlanLifecycle.PlanDesk.ProposePlan | src/graphclaw/agent/main_orchestrator.py:3974-3998 | a new DRAFT of revision 1 holding the first max_tasks items, in memory and, if the write goes through, in storage |
| PlanLifecycle.PlanDesk.EditPlan | src/graphclaw/agent/main_orchestrator.py:4010-4070 | refines the edit step |
| PlanLifecycle.PlanDesk.ApprovePlan | src/graphclaw/agent/main_orchestrator.py:4072-4105 | refines the approval step |
| PlanLifecycle.PlanDesk.ExecutePlan | src/graphclaw/agent/main_orchestrator.py:4107-4250 | refines the execution step; the tasks it selects come from the plan read, and the graph is the executed or rolled-back one |
| AgentLoop.ChatTranscripts | src/graphclaw/agent/main_orchestrator.py:1010-1092 | each transcript passed to the model is the opening and complete blocks of one assistant message and its answers in order; at most cap of them |
| AgentLoop.OnlyAllowedToolsRun | src/graphclaw/agent/main_orchestrator.py:1634-1646 | no tool outside the allow-list is executed |
| AgentLoop.ChatRun.Converse | src/graphclaw/agent/main_orchestrator.py:1610-1669 | the loop in place equals its specification, for both plain loops |
| ChatMeaning.ChatEndsWhere | src/graphclaw/agent/main_orchestrator.py:1610-1669 | by the first round that does not call tools with every call answered: the exact transcripts sent, the tool calls run (exactly the allowed ones, up to the one whose tool fails), and the ending: the content of an answer without calls, "(no response)" where that is empty, an escaped exception, or the limit if there is no such round |
| ChatMeaning.AnsweredIs | src/graphclaw/agent/main_orchestrator.py:1634-1661 | each call is answered under its own id, an allowed one by its own result, a refused one by the error object that names the tool |
| AgentStream.EveryRunIsWellFormed | src/graphclaw/agent/main_orchestrator.py:1187-1490 | run.started first and only there, one run.completed or run.failed and that last, every tool.started answered at once, the reported tool count exact |
| AgentStream.SingleEndsUnlessNotSerialisable | src/graphclaw/agent/main_orchestrator.py:1339-1385 | each tool.started has a single end iff no executed tool gave a result that is not JSON |
| AgentStream.StreamTranscripts | src/graphclaw/agent/main_orchestrator.py:1255-1392 | the streaming loop's transcripts are well formed even when tools fail, and at most cap |
| AgentStream.StreamRun.CallTool | src/graphclaw/agent/main_orchestrator.py:1321-1388 | events and tool message of one call, for a result, a result that is not JSON, and an exception |
| AgentStream.StreamRun.Process | src/graphclaw/agent/main_orchestrator.py:1187-1490 | the generator yields the events of the specification, numbered from 0 without gaps; what these are is `StreamMeaning.RunEndsWhere` |
| StreamMeaning.RunEndsWhere | src/graphclaw/agent/main_orchestrator.py:1187-1490 | for every behaviour of the model and the tools: the whole event trace, the exact transcripts sent and the tool count, with tokens summed over the responses heard and the final length that of the concatenated deltas of the last round |
| StreamMeaning.RunCompletesIff | src/graphclaw/agent/main_orchestrator.py:1233-1490 | the last event is run.completed iff the agent is connected, the opening exists and within the cap some round calls no tool while all rounds before it neither raised nor failed in pre-planning; otherwise it is run.failed: NotInitialised iff not connected, ToolLoopCapReached iff every round calls tools, the escaped error iff the opening or the last round raises |
| StreamMeaning.ToolsAreTraced | src/graphclaw/agent/main_orchestrator.py:1321-1388 | the events of a round's calls, one call behind the other, each with the outcome of that very call |
| StreamMeaning.ToolsAreAnswered | src/graphclaw/agent/main_orchestrator.py:1350-1388 | each tool message carries the id of its call and the result of that very call, or an error object with its reason |
| StreamMeaning.ResponseIsLastFinal | src/graphclaw/agent/main_orchestrator.py:1285-1287 | the response of a turn is what its last final chunk accumulated |
| DecisionQueue.SweepLeavesNothingDue | src/graphclaw/agent/escalation.py:542-583 | after a sweep nothing is due at that time, so a repeat resolves none |
| DecisionQueue.EnqueuedIsOpen | src/graphclaw/agent/escalation.py:445-489 | an enqueued decision is open; over every run it keeps its user, its creation time and its deadline of 3600 * wait hours after that |
| DecisionQueue.OwnerHasTheLastWord | src/graphclaw/agent/escalation.py:491-519 | over every run a decision carries the verdict and the time of the owner's latest resolution, with user, creation time and deadline unchanged, and no later call alters it |
| DecisionQueue.FallbackFiresOnce | src/graphclaw/agent/escalation.py:567-583 | a decision the owner does not touch stays as it is until the first sweep at or after its deadline, which marks it "fallback_conservative" at the time of that sweep, for good |
| DecisionQueue.OwnerOfflineEscalationQueue.Enqueue | src/graphclaw/agent/escalation.py:445-489 | adds one open decision with its deadline |
| DecisionQueue.OwnerOfflineEscalationQueue.Resolve | src/graphclaw/agent/escalation.py:491-519 | resolves the decision wherever it is kept, and tells whether there was one |
| DecisionQueue.OwnerOfflineEscalationQueue.ListPending | src/graphclaw/agent/escalation.py:521-540 | every open decision of the user once, with its current content, in creation order; the map is unchanged |
| DecisionQueue.OwnerOfflineEscalationQueue.ProcessExpired | src/graphclaw/agent/escalation.py:542-576 | resolves and returns exactly the open decisions that are due |
| KeyManager.KeyVerifiesWhileItStands | src/graphclaw/a2a/key_manager.py:123-322 | after any run a key verifies, and to user u, iff it is the key most recently issued for an agent node with no revocation since, and u is the user of the call that registered that node, or its owner at the start |
| KeyManager.VerifiesToOneUser | src/graphclaw/a2a/key_manager.py:264-322 | a key verifies to one user only |
| KeyManager.StaleKeysStayStale | src/graphclaw/a2a/key_manager.py:187-260 | a rotated or revoked key never verifies again |
| KeyManager.RotatingAnotherNodeIsUseless | src/graphclaw/a2a/key_manager.py:209-227 | a key issued by rotating a node that is not an agent does not verify |
| KeyManager.RegisteredNodeIsTheUsers | src/graphclaw/a2a/key_manager.py:149-170 | over every run a registered node is an agent node of the registering user, created at the time of the call |
| KeyManager.OwnerIsOrigin | src/graphclaw/a2a/key_manager.py:149-260 | whose a node is, and whether it is an agent, is decided by the call that registered it, or by the store at the start |
| KeyManager.ListedMeansStandingKey | src/graphclaw/a2a/key_manager.py:326-384 | over every run a node is listed for a user iff it is an agent node registered by that user, or the user's at the start, and has a standing key |
| KeyManager.ListedWithItsTime | src/graphclaw/a2a/key_manager.py:326-384 | and with the time of the call that registered it |
| KeyManager.A2AKeyManager.RegisterAgent | src/graphclaw/a2a/key_manager.py:123-185 | the registration step; the issued key verifies to the registering user, and the node is an agent node of that user |
| KeyManager.A2AKeyManager.RotateKey | src/graphclaw/a2a/key_manager.py:187-227 | refines the rotation step; an error iff the node is not the user's |
| KeyManager.A2AKeyManager.RevokeKey | src/graphclaw/a2a/key_manager.py:229-260 | refines the revocation step |
| KeyManager.A2AKeyManager.VerifyKey | src/graphclaw/a2a/key_manager.py:264-322 | answers a user the key verifies to, or none if there is none |
| KeyManager.A2AKeyManager.ListAgents | src/graphclaw/a2a/key_manager.py:326-384 | exactly the user's agent nodes with a key, once each, by creation time |
| EpisodicRecall.BoostKeepsScannedFirst | src/graphclaw/agent/main_orchestrator.py:2470-2491 | the content boost never puts an unscanned entry ahead of a scanned one and leaves unscanned entries in name-score order |
| EpisodicRecall.SmallLimitNeedsNoMoreScans | src/graphclaw/agent/main_orchestrator.py:2493-2501 | with a limit of at most five every match was content-scanned and the matches are the top of the final order |
| EpisodicRecall.RankingMeans | src/graphclaw/agent/main_orchestrator.py:2470-2491 | both orders fall by score and then by name, and the final one holds each entry with its name score, plus its boost iff it is one of the first five by name |
| EpisodicRecall.MatchesMeans | src/graphclaw/agent/main_orchestrator.py:2493-2501 | the matches are exactly the entries within the limit, at least one and at most ten, that were among the first five by name or can be read, in the final order |
| EpisodicRecall.Recall | src/graphclaw/agent/main_orchestrator.py:2457-2501 | from the keyword hits to the matches: three points for each hit in the first five, both sorts, the limit and the files that are gone |

## Left out

- TopologicalSort.Kahn: the order inside one tier is arbitrary, because the source enumerates a set; the order is a parameter.
- DispatchPlanner.FetchEdges: the log message on a failed query, and values of the edge rows other than the three id fields.
- PoolSafety.ReachableInv: assumes that publishes succeed, messages are delivered once, the environment publishes the first tier of a plan, and the eight-character batch prefix of a plan differs from those of the plans that are not complete.
- TurnGate.GateCanBeSkippedIff: is about the runs of a fresh pool that holds this one plan; with other plans under way only the counts at rest are stated (`TurnRunsAtRest`). In all results about turns the published jobs equal the planned ones; in the source they may differ in fields the pool only passes along.
- TurnAnnouncing.AnnouncedBeforeAllIff: with one slot the answer also depends on the order of publishing and is not stated; `AnnouncedEarlyIff` holds for every pool size.
- PoolProgress.EveryScheduleEnds: assumes that every runner returns or raises; cancellation at shutdown and malformed messages are not modelled.
- `get_dispatch_plan`: job and tier statuses are formatting over the modelled state; only the reading back of tier numbers is modelled, on decimal digits.
- NameSimilarity.ComputeSimilarity: exact rationals instead of floating point; strip and lower-case are one abstract function.
- PlanGraph.ExecutionIsAccounted: assumes fresh node ids, that a write that raises has no effect, that deletions succeed and drop incident edges, and that preparing a follow-up (lines 2847-2926) does not raise.
- PlanExecution.GraphStore.CreateTask: task fields other than dependencies and the DELEGATED type, and edges that plan execution never asks for (parent, assignee), are left out.
- PlanLifecycle.StepOfPlan: tool calls are atomic steps; timestamps, plan ids with surrounding blanks and the text produced by the planning model are left out.
- PlanLifecycle.ExecutedOnce: holds for runs in which every restart finds this plan written out; otherwise see `ExecutesAgainIffWriteWasLost`.
- AgentLoop.ChatRun.Converse: a tool message holds its JSON object as a value, before it is written out; of the sentence beside a refusal's error only the tool it names is kept; starts when the opening messages exist; a missing model and prompt errors return a fixed text before the loop.
- AgentStream.EveryRunIsWellFormed: assumes a publisher and a notifier that do not raise, as their own contracts say; durations, previews and the sanitising of texts are left out, the class of an exception that escapes is one fixed word, and the run is consumed to its end.
- DecisionQueue.OwnerOfflineEscalationQueue.PersistUpdate: table writes succeed; with a lost update a listing can bring a resolved row back.
- DecisionQueue.OwnerOfflineEscalationQueue.ProcessExpired: each call is one atomic step, although it awaits the table between loading rows and firing fallbacks; the same holds for the other calls of the queue. Interleaved, a resolution of an uncached row between a sweep's load and its fallback is overwritten.
- KeyManager.KeyVerifiesWhileItStands: keys are fresh, the digest is injective and never empty; failed store queries (no user, empty list) and unreadable creation times are left out.
- EpisodicRecall.Recall: keyword matching on names and excerpts is a parameter; the texts of the matches are left out.
- Goal, task and archive tools other than plan execution, channels, storage, HTTP routes, onboarding, compaction and distillation: slicing, formatting or single writes that would only add easy members.
- Scoring engine, task state machine, cascade and the sub-agent runner: not part of this model.
