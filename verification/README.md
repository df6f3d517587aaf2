# Rollout control plane: a model and its proofs

The control plane keeps a registry of configurations with append-only versions and one stable version per environment. A
rollout moves an environment from its stable version to a candidate in stages. Each stage freezes a cohort of agents chosen
by hash bucket, waits for their acknowledgements, a minimum time and the guardrails, and then promotes; on failure a second
stage asks everyone exposed to confirm the stable version. The data plane computes from this state what each agent is served.
This project models that system in Dafny and proves what it promises over every run.

## How the model is built

- `RolloutCase.dfy` is one rollout as a state machine over its own file: the record, its stages, and one cohort per stage.
  `CaseInvariant.dfy` and `CaseSteps.dfy` hold what every step of it keeps, `Effective.dfy` the version it gives an agent, and
  `RolloutTheorems.dfy` the consequences for one rollout. `Lifecycle`, `Cohorts` and `Guardrails` are its parts.
- `World.dfy` is the whole control plane as a value: all files, the active index, the revision counter, the registry and the
  agents, with one function per locked operation. `SystemInvariant.dfy` and `SystemSteps.dfy` show that every operation keeps the
  system invariant. `SystemRuns.dfy` defines runs: any interleaving of agent registration, registry writes, rollout creation,
  acknowledgements and visits, under a clock that does not go back. `SystemTheorems`, `RunTheorems`, `RegistryRuns`,
  `SchemaRuns` and `GuardrailHistory` state the promises over runs. The empty control plane satisfies the invariant (`SystemRuns.StartKeepsInv`), and
  so does the file of every rollout that is accepted (`SystemSteps.CreatedCase`), so neither is empty.
- `VisitTheorems.dfy`, `Creation.dfy` and `RegistryChecks.dfy` say what a visit, an acknowledgement, a request for a rollout and a
  registry write do in terms of the record, the clock, the samples and the request alone, without the functions that compute it:
  exactly when each is accepted and what exactly it leaves.
- `RolloutStore.dfy`, `RolloutService.dfy` and `ConfigStores.dfy` are the mutable stores and services as classes. Their methods
  follow the code statement by statement, and each is proved to move the state exactly as the functions of `World.dfy` and
  `ConfigRegistry.dfy` say, so the theorems about runs are theorems about them. The store keeps its data under keys joined with a
  NUL character, as the code does; the `View` lemmas show that these keyed maps behave as independent files.
- `DataPlane.dfy` computes snapshots through those services; `SnapshotTheorems.dfy` says what a snapshot holds and what becomes
  of the acknowledgements built from it.
- `RolloutWrites.dfy` lists the files the single store writes of a step leave behind; the methods of the service are proved to
  leave exactly these in the store's log. `TornReads.dfy` and `TornWindows.dfy` let the data plane's reads fall between any of them.
- `AgentCache.dfy` is the agent's snapshot file, one file operation at a time, with failures and stops at every point;
  `Syncer.dfy` is the loop around it.
- `ConfigCode`, `ConfigValidation`, `ConfigApply`, `ApplyTheorems` and `ApplyOutcome` are the manifest applier over the registry.

## What turned out not to hold

Each of these is kept as the code has it and shown on an input or a whole family of inputs, next to the exact condition.

- A stage plan may repeat a stage name (`Cohorts.RepeatedStageNamesPass`); the second activation then appends to the first
  one's stored cohort (`RolloutStore.FrozenIffNamesDiffer`).
- Guardrails that share a name share a counter, and one of them can fail in every round unnoticed
  (`Guardrails.SharedNamesHideFailures`). A counter is its rule's own failure streak exactly when all names differ
  (`Guardrails.CountersAreStreaksIffNamesDiffer`), and healthy rounds keep counters below their thresholds exactly when rules of
  one name need the same number of failures (`Guardrails.RoundsStayBelowIffNamesAgree`).
- An agent that registers under another service or environment while it is on a candidate is given the stable version back by
  the next promotion, exactly if it left the rollout's scope (`RolloutTheorems.PromotionKeepsWhoIsInScope`,
  `SystemSteps.RegisterKeepsWorldInv`).
- An agent acknowledges every item with the snapshot's revision, the largest of its items' revisions. With two active rollouts
  the acknowledgement of the lower one is never counted (`SnapshotTheorems.ServedItemsAckCounts`,
  `SnapshotTheorems.AtMostOneAssignmentLeads`).
- A snapshot's reads are not atomic. An agent that has the candidate, and will have it again, is served the stable version
  exactly when the record and the targets are both read between the two writes of one promotion, or when the rollout completed
  between the read of the pointer and the read of the record (`TornWindows.TornReadsFlapIff`,
  `TornWindows.SnapshotReadsFlapIff`). No such read ever serves the candidate outside the cohorts (`TornReads.TornReadsInRuns`).
- After three unfinished saves in a row no complete snapshot file may be left (`AgentCache.ThreeInterruptionsLoseEverything`);
  two are survived (`AgentCache.TwoInterruptionsAreSurvived`), and a single save is safe at every point exactly when a main or
  previous file exists as it begins (`AgentCache.EveryStopIsSafeIff`). A save that fails leaves the main file alone except when
  moving the new one in failed and the old one was not moved back, or an older one was (`AgentCache.FailedSaveKeepsMainIff`).
- Joined keys are ambiguous exactly when a part holds a NUL (`Text.JoinIsUnambiguousIffNulFree`); one tenant's lookup then finds
  another's definition (`ConfigRegistry.NulTenantsShareKeys`).
- Validation keys are ambiguous exactly when a part holds a slash (`ConfigValidation.ConfigKeyIsUnambiguousIffUnslashed`); a
  version then passes with no definition of its own configuration (`ConfigValidation.SlashedConfigurationsCollide`), and only
  then (`ConfigValidation.OnlySlashedAreMisled`, `ConfigValidation.MisledIffDoubled`).

## Model

| member | source | states |
|---|---|---|
| SystemRuns.ReachableStatesAreSound | internal/rollout/service.go:82-404 | every state of every run satisfies the system invariant: all rollout files, the active index, the registry, the pointers and the revisions agree, whatever the interleaving of accepted and refused operations |
| SystemSteps.CreateKeepsWorldInv | internal/rollout/service.go:82-186 | creating a rollout keeps the whole system invariant |
| SystemInvariant.SettleKeepsWorldInv | internal/rollout/service.go:215-367 | every visit and every acknowledgement keeps the whole system invariant |
| SystemSteps.RegisterKeepsWorldInv | internal/agentregistry/memory_store.go:29-40 | a registration, first or repeated, keeps the system invariant exactly when the agent has an id and no delivering rollout loses a target from its environment and services |
| SystemSteps.RegistryWriteKeepsWorldInv | internal/configregistry/service.go:91-225 | a sound registry write keeps the system invariant exactly when it moves no active rollout's pointer |
| SystemRuns.RunExtends | internal/rollout/service.go:330-559 | between any two moments of a run a rollout only moves forward: identity, plan and frozen cohorts stay |
| SystemTheorems.NoFlappingInRuns | internal/rollout/effective.go:10-59 | over any run, refused creations and refused or idle pointer requests included, the versions an agent is served for a rollout's configuration are stable ones, then the candidate, then stable ones; leaving the candidate means the rollout was rolling back, and never follows completion |
| SystemTheorems.VerificationReachesEveryoneServed | internal/rollout/service.go:506-547 | whoever was served the candidate at any earlier moment, at any stage, is a target of the verification stage |
| SystemTheorems.PointerFollowsTheRollout | internal/rollout/service.go:437-452 | from when a rollout runs, the stable pointer is its stable version until it completes and its candidate from then on |
| SystemTheorems.ActiveIndexIsAScan | internal/rollout/memory_store.go:73-90 | the active index answers exactly as a scan of all rollouts for a non-terminal one would, so there is at most one per configuration and environment |
| RunTheorems.StatesFollowTheTable | internal/rollout/state.go:21-73 | only five states are stored, any later state is reachable in the transition table, endings are final, and a rollback status is set exactly when rolled back |
| RunTheorems.RollbacksConclude | internal/rollout/service.go:483-504 | a finished rollback is verified exactly when its check was covered or had nobody to ask, and partial only when its rollback timeout had passed since the check began |
| VisitTheorems.RollbacksHaveACause | internal/rollout/service.go:369-405 | in every run a delivering rollout starts rolling back in exactly the steps that visit or acknowledge it and find it too old, its stage late, or due with a guardrail that trips |
| VisitTheorems.AckedTargetsWereAcknowledged | internal/rollout/target.go:143-173 | in every run each acked target was acknowledged before, by a step with its agent, rollout, stage, version and revision, at the time it is marked with |
| VisitTheorems.TargetsHaveTheirBuckets | internal/rollout/bucket.go:17-41 | in every run each candidate target's bucket is the hash of configuration, candidate and agent modulo ten thousand, within its stage's share |
| Creation.RolloutsAreAsAsked | internal/rollout/service.go:82-186 | in every run every rollout was created by an earlier request and is still what that request asked for and the registry then held |
| SchemaRuns.ValuesAreAccepted | internal/configregistry/service.go:91-169 | in every run every listed version is accepted by its own definition's schema, and so is every default |
| SchemaRuns.ServedValuesAreAccepted | internal/dataplane/dynamic_store.go:94-146 | and the value of every item of every snapshot by the schema of its configuration |
| RunTheorems.PromotionsAreEarned | internal/rollout/service.go:437-469 | every stage left behind, and the last one of a completed rollout, holds a non-empty cohort whose coverage met the requirement |
| RunTheorems.CohortsStayFrozen | internal/rollout/target.go:143-173 | an activated cohort keeps its agents, buckets, expected version and revision for the rest of the run, and acked targets stay acked |
| RunTheorems.SlowPlansNeverComplete | internal/rollout/service.go:369-382 | a plan whose minimum durations add up to the maximum duration or more completes in no run |
| RunTheorems.StagesKeepTheirPace | internal/rollout/promotion.go:23-34 | a stage starts no earlier than creation plus the minimum durations of all stages before it |
| RunTheorems.EveryRolloutEnds | internal/rollout/service.go:310-404 | a visit at the maximum duration or later, any later one, and one the rollback timeout after verification began leave the rollout terminal, whatever happens in between |
| RunTheorems.RolloutsComplete | internal/rollout/service.go:369-452 | as many visits as stages remain, each finding the stage covered and old enough, the rollout young enough and the guardrails healthy, complete a rollout, whatever happens between them |
| RolloutTheorems.FavourableVisitsAdvance | internal/rollout/service.go:342-452 | a visit takes a delivering rollout one stage further, or completes it at its last stage, exactly under those conditions |
| VisitTheorems.DeliveryOutcome | internal/rollout/service.go:342-452 | the whole outcome of a visit to a delivering rollout, from the record, the clock and the samples: rolling back exactly when it is too old, its stage late (uncovered with a deployment timeout passed), or due and unhealthy; paused exactly when due and unknown; one stage on or completed exactly when due and healthy; otherwise nothing changes |
| VisitTheorems.RecordSaysWhen | internal/rollout/service.go:369-470 | the record's last update is the moment of its move, or of a guardrail round that moved nothing, and otherwise stays |
| VisitTheorems.AcknowledgementIsAVisit | internal/rollout/service.go:249-289 | once its target is marked, an acknowledgement does what a visit does |
| VisitTheorems.AcknowledgementAnswers | internal/rollout/service.go:215-296 | an acknowledgement is refused exactly for an unknown or ended rollout, counted exactly for a pending target with its version and revision, and reports the cohort's acked targets with that one added |
| VisitTheorems.VerificationOutcome | internal/rollout/service.go:483-504 | a visit ends a verification as verified when covered or empty, as partial once a positive rollback timeout has passed, and changes nothing before that |
| VisitTheorems.VerificationBegins | internal/rollout/service.go:506-547 | the first visit of a rollback asks everyone of the current cohort, each still to answer, to confirm the stable version under the fresh revision |
| VisitTheorems.PromotionActivates | internal/rollout/service.go:561-600 | a promotion targets exactly the registered agents in environment and services whose bucket the next stage takes |
| VisitTheorems.CreationActivates | internal/rollout/service.go:170-182 | and a creation those the first stage takes |
| VisitTheorems.LastStageIsForEveryone | internal/rollout/stage.go:22-45 | the last stage of an accepted plan takes every bucket |
| RolloutTheorems.FullAcknowledgementCovers | internal/rollout/target.go:175-194 | a non-empty cohort that acknowledged in full meets every requirement up to 100 percent |
| RunTheorems.RolloutsSettle | internal/rollout/service.go:215-367 | in an endless run every rollout changes state, stage or target status only finitely often |
| RunTheorems.RevisionsOnlyRise | internal/rollout/memory_store.go:207-218 | the revision counter never goes back |
| RunTheorems.RevisionNamesItsActivation | internal/rollout/memory_store.go:207-218 | two targets with one revision belong to the same stage of the same rollout |
| RegistryRuns.VersionsNeverChange | internal/configregistry/memory_store.go:158-214 | in every run a definition's versions are numbered 1 to n, are found by number, and never change once created |
| RegistryRuns.PointersNameVersions | internal/configregistry/service.go:186-225 | every stable pointer names an existing version of its own configuration |
| GuardrailHistory.CountersRefineHistory | internal/rollout/service.go:407-435 | in every run each guardrail counter is the number of failing samples since the last passing one, unknowns skipped, and is below its threshold while the rollout delivers |
| GuardrailHistory.CountersStayBelow | internal/rollout/service.go:407-435 | in every run no counter of a delivering rollout has reached its threshold, as long as rules of one name need the same number of failures |
| GuardrailHistory.PauseIsCovered | internal/rollout/service.go:342-367 | at any moment a paused rollout has reached its coverage |
| GuardrailHistory.OnlyTimeOrGuardrailsEndAPause | internal/rollout/service.go:369-405 | a paused rollout starts rolling back only for the maximum duration or an unhealthy guardrail round |
| CaseSteps.StepKeepsInv | internal/rollout/service.go:330-586 | every visit or acknowledgement keeps one rollout's invariant (cohorts, coverage, pace, counters, conclusion) and only extends its file |
| CaseSteps.StepIsSourced | internal/rollout/service.go:561-586 | a step adds targets to at most one stage, which had none, under the one fresh revision |
| RolloutTheorems.NoFlapping | internal/rollout/effective.go:10-37 | between two moments an agent is on the candidate there is none it is off it |
| RolloutTheorems.OnlyRollbackTakesTheCandidateAway | internal/rollout/effective.go:10-37 | leaving the candidate implies rolling back or rolled back |
| RolloutTheorems.PromotionKeepsWhoIsInScope | internal/rollout/service.go:561-600 | a promotion leaves an agent of the current cohort on the candidate exactly when the agent is still registered in the rollout's environment and services, and serves it the stable version otherwise |
| RolloutTheorems.RollbackReachesEveryoneExposed | internal/rollout/service.go:506-547 | everyone a rollout ever put on the candidate is in the verification stage |
| RolloutTheorems.VerificationChecksTheCohort | internal/rollout/service.go:506-537 | the verification stage targets exactly the cohort of the stage the rollout had reached |
| RolloutTheorems.TooSlowPlanNeverCompletes | internal/rollout/service.go:373-377 | completion implies the minimum durations fit below the maximum duration |
| RolloutTheorems.ThreeVisitsEnd | internal/rollout/service.go:369-504 | three late enough visits end a rollout |
| RolloutTheorems.StepDropsOrQuiet | internal/rollout/service.go:215-367 | every step that changes state, stage or a target strictly lowers one lexicographic measure |
| RolloutTheorems.EventuallyQuiet | internal/rollout/service.go:215-367 | so an infinite history of one rollout has a last effective change |
| Effective.ServingIsByCohort | internal/rollout/effective.go:10-59 | an active rollout serves its candidate exactly to its current cohort while delivering, and its stable version otherwise |
| Effective.AssignmentIsTheTarget | internal/rollout/effective.go:22-56 | an assignment is the agent's own current target and its revision; without one the agent is in no current cohort |
| Lifecycle.StoredChangesAreTheTablesClosure | internal/rollout/state.go:21-62 | the state changes the service stores are exactly the reachability of the transition table among stored states |
| RolloutService.Service.CreateRollout | internal/rollout/service.go:82-186 | all refusals in their order, or the new file, index entry and revision, with the log showing its three writes; on success the stored record is what was asked for and what the registry holds: guardrails, services, key, limits or their defaults, candidate, stable version and plan; an error writes nothing; the invariant is kept |
| Creation.CreatedAsAsked | internal/rollout/service.go:135-182 | an accepted request adds one file, whose record and plan are what was asked for, with the defaults for zeros, and what the registry holds |
| Creation.AcceptedIff | internal/rollout/service.go:82-160 | a request is accepted exactly when it is well formed, the registry has configuration, candidate and another stable version, and id and key are free |
| RolloutService.Service.Acknowledge | internal/rollout/service.go:215-296 | counts the acknowledgement, reports coverage and moves the whole state exactly as the specification says, with the log showing every write of it in order; an error writes nothing; the invariant is kept |
| RolloutService.Service.ReconcileActive | internal/rollout/service.go:310-328 | visits every active rollout exactly once and fails for none, whatever the clock and the queries answer |
| ServiceRuns.ReconcileIsAStretch | internal/rollout/service.go:310-328 | seen from outside, that is a stretch of a run with one visit step per rollout |
| RolloutService.Service.ReconcileRollout | internal/rollout/service.go:330-367 | one visit moves the whole state by the rollout's own machine and succeeds, with the log showing every write of it in order |
| RolloutService.Service.GetRollout | internal/rollout/service.go:188-197 | the record, its current cohort and their coverage, or not found |
| RolloutService.Service.ActiveRollout | internal/rollout/service.go:298-308 | the indexed rollout with its current cohort, or not found |
| RolloutService.Service.EvaluateStageDecision | internal/rollout/service.go:369-405 | rollback exactly when the rollout is too old, the stage late, or the stage due and the round unhealthy, promotion exactly when due and healthy, pause exactly when due and unknown, in terms of record and clock; and the counters written back, in one write, when guardrails were consulted |
| Creation.DefaultsLeaveTime | internal/rollout/stage.go:14-20 | the default plan of 5, 25 and 100 percent has time to complete within the default maximum duration |
| RolloutCase.DecisionMeans | internal/rollout/service.go:369-405 | when a visit decides what, from the record, the clock and the guardrail results |
| RolloutService.Service.EvaluateGuardrails | internal/rollout/service.go:407-435 | unhealthy exactly when some rule of the round trips, healthy exactly when every rule got a sample and none trips; and the counters of the round over the stored ones |
| RolloutService.Service.Promote | internal/rollout/service.go:437-470 | completion through the registry or the next stage's record and targets, and the files its writes leave |
| RolloutService.Service.PromoteToNext | internal/rollout/service.go:455-469 | the next stage's record, a fresh revision and the stage's targets, as three writes in that order |
| RolloutService.Service.Complete | internal/rollout/service.go:442-452 | moves the stable pointer and stores the completed record, and cannot fail for a linked rollout |
| RolloutService.Service.ReconcileRollback | internal/rollout/service.go:483-504 | begins verification, concludes it as verified or, once its timeout has passed, as partial, and otherwise answers the rollout unchanged and writes nothing; and the files its writes leave |
| RolloutService.Service.ActivateRollbackVerification | internal/rollout/service.go:506-547 | revision, stage, targets and record of the verification, one write each, ended at once when nobody is to check |
| RolloutService.Service.StageVerification | internal/rollout/service.go:506-537 | a fresh revision, the verification stage and its targets, as three writes in that order |
| RolloutService.Service.Transition | internal/rollout/service.go:549-559 | stores a next state the table allows, and refuses any other without writing |
| RolloutService.Service.ActivateStage | internal/rollout/service.go:561-586 | freezes the eligible agents of the moment under a fresh revision |
| RolloutService.Service.ReadGrounds | internal/rollout/service.go:112-133 | definition, candidate and stable version the new rollout is built on, or the first refusal |
| RolloutService.Service.MarkTarget | internal/rollout/service.go:227-247 | writes back exactly the acknowledged target of the current stage, and nothing when none is counted |
| RolloutService.AgentDirectory.Register | internal/agentregistry/memory_store.go:29-40 | an unknown agent is appended; a known one's record is overwritten in its place |
| RolloutService.AgentDirectory.Get | internal/agentregistry/memory_store.go:42-56 | finds an agent iff it is registered |
| RolloutCase.SelectAgents | internal/rollout/service.go:588-600 | the agents of the environment and, if any are named, of the target services, in order |
| RolloutCase.FilterKeepsDistinct | internal/rollout/service.go:588-600 | filtering keeps agents distinct |
| RolloutStore.MemoryStore.CreateRollout | internal/rollout/memory_store.go:31-56 | inserts record, stages and index entry, or refuses an existing id or an occupied key |
| RolloutStore.MemoryStore.GetRollout | internal/rollout/memory_store.go:58-71 | finds a rollout iff it is stored |
| RolloutStore.MemoryStore.GetActiveRollout | internal/rollout/memory_store.go:73-90 | the indexed rollout unless it is terminal |
| RolloutStore.MemoryStore.ListActiveRollouts | internal/rollout/memory_store.go:92-109 | each non-terminal indexed rollout exactly once |
| RolloutStore.MemoryStore.UpdateRollout | internal/rollout/memory_store.go:111-131 | replaces the record and drops or sets the index entry |
| RolloutStore.MemoryStore.ListStages | internal/rollout/memory_store.go:133-146 | the stages of a known rollout |
| RolloutStore.MemoryStore.SaveStage | internal/rollout/memory_store.go:148-166 | appends a stage unless its name is there |
| RolloutStore.MemoryStore.SaveStageTargets | internal/rollout/memory_store.go:168-181 | appends each target under its own stage key |
| RolloutStore.MemoryStore.ReplaceStageTargets | internal/rollout/memory_store.go:183-193 | replaces one stage's targets |
| RolloutStore.MemoryStore.ListStageTargets | internal/rollout/memory_store.go:195-205 | a copy of one stage's targets |
| RolloutStore.MemoryStore.NextSnapshotRevision | internal/rollout/memory_store.go:207-218 | hands out the counter and advances it |
| RolloutStore.UpdateView | internal/rollout/memory_store.go:111-131 | through the joined keys an update changes one rollout's record and nothing else |
| RolloutStore.InsertView | internal/rollout/memory_store.go:31-56 | an insertion adds one file with empty cohorts |
| RolloutStore.StageView | internal/rollout/memory_store.go:148-166 | a new stage adds one empty cohort to one file |
| RolloutStore.TargetsView | internal/rollout/memory_store.go:183-193 | writing one stage's targets changes that cohort of that rollout and nothing else |
| RolloutStore.AppendView | internal/rollout/memory_store.go:168-181 | an activation appends to one cohort of one rollout |
| RolloutStore.FrozenIffNamesDiffer | internal/rollout/memory_store.go:168-181 | an activation leaves another stage's stored cohort alone exactly when the stages' names differ or it adds nobody |
| Cohorts.ValidateStagePlan | internal/rollout/stage.go:22-45 | accepts exactly the plans of named stages whose percentages rise strictly from above 0 to 100 |
| Cohorts.RepeatedStageNamesPass | internal/rollout/stage.go:22-45 | a plan with a repeated stage name is accepted |
| Cohorts.DefaultStagePlanIsValid | internal/rollout/stage.go:14-20 | the default plan is accepted, and its stages differ by name |
| Cohorts.EligibleIsMonotone | internal/rollout/bucket.go:33-41 | a bucket eligible at a percentage is eligible at every larger one |
| Cohorts.EligibleShare | internal/rollout/bucket.go:33-41 | a stage takes exactly its percentage of the ten thousand buckets |
| Cohorts.KeyDeterminesItsParts | internal/rollout/bucket.go:28-30 | the hashed text determines configuration, candidate and agent when the generated ids hold no NUL |
| Cohorts.BucketsCanDifferIff | internal/rollout/bucket.go:28-30 | two assignments fall into different buckets under some hash exactly when one of the three differs |
| Cohorts.BuildStageTargets | internal/rollout/target.go:72-131 | the loop and the sort compute the cohort, and fail exactly for a missing name |
| Cohorts.SortTargets | internal/rollout/target.go:118-129 | sorts by bucket then agent id and permutes its input |
| Cohorts.CohortMembers | internal/rollout/target.go:89-131 | the cohort holds exactly the eligible agents |
| Cohorts.CohortIsDistinct | internal/rollout/target.go:89-131 | each of them once |
| Cohorts.CohortStamps | internal/rollout/target.go:101-116 | every target carries its rollout, stage, version, revision and bucket, and is pending |
| Cohorts.CohortIsPrefix | internal/rollout/target.go:89-131 | the agents selected at a percentage are a prefix of those selected at any larger one |
| Cohorts.CohortIgnoresAgentOrder | internal/rollout/target.go:89-131 | the cohort is the same for every permutation of the agents |
| Cohorts.ApplyAck | internal/rollout/target.go:143-173 | marks the agent's first target iff it matches and is pending |
| Cohorts.CountsIff | internal/rollout/target.go:143-173 | an acknowledgement counts exactly when a pending target has its agent, rollout, stage, version and revision |
| Cohorts.AcksAreConfluent | internal/rollout/target.go:143-173 | after any acknowledgements exactly the targets with a matching one, or acked before, are acked |
| Cohorts.AckOrderCannotMatter | internal/rollout/target.go:143-173 | reordered and repeated acknowledgements give the same acked targets |
| Cohorts.CountedIsGrowth | internal/rollout/target.go:143-186 | the number counted is the growth in acked targets |
| Cohorts.AcknowledgementCoverage | internal/rollout/target.go:175-186 | total, acked and percentage, zero for an empty cohort |
| Cohorts.CoverageIsAShare | internal/rollout/target.go:175-186 | the percentage is the acked share of all targets, 100 exactly when a non-empty cohort is acked in full |
| Cohorts.CoverageReachedIff | internal/rollout/target.go:188-194 | coverage is reached exactly when the acked share of a non-empty cohort meets the required one |
| Cohorts.CoverageIsMonotone | internal/rollout/target.go:175-194 | an acknowledgement never takes reached coverage away |
| Guardrails.EvaluationSucceeds | internal/guardrail/evaluator.go:9-77 | a valid rule never fails to evaluate, and its counter and status are the next ones |
| Guardrails.SampleVerdict | internal/guardrail/evaluator.go:9-96 | for each of the six operators, the counter resets exactly when the sample stands in that relation to the threshold, and the status is unhealthy exactly when it does not and the failures asked for are reached |
| Guardrails.NoSampleVerdict | internal/guardrail/evaluator.go:16-18 | a query without a finite sample leaves the counter and is unknown |
| Guardrails.AggregateStatus | internal/guardrail/evaluator.go:98-109 | unhealthy if any is, healthy iff all are, unknown otherwise |
| Guardrails.RoundVerdict | internal/rollout/service.go:407-435 | a round is unhealthy exactly when some rule trips, and healthy exactly when none does and every rule got a sample |
| Guardrails.OwnCountersTrip | internal/rollout/service.go:412-430 | with distinct names each rule trips by the counter it brought into the round |
| Guardrails.CountersMoveAlone | internal/rollout/service.go:412-430 | with distinct names each counter moves by its own rule's result alone |
| Guardrails.HealthyRoundStaysBelow | internal/rollout/service.go:407-435 | a round that is not unhealthy leaves every counter below its threshold, if rules of one name need the same number of failures |
| Guardrails.RoundsStayBelowIffNamesAgree | internal/rollout/service.go:407-435 | and for every valid rule list exactly then |
| Guardrails.CounterRefinesHistory | internal/guardrail/evaluator.go:9-70 | a counter is the failures since the last pass over any list of rounds |
| Guardrails.CountersAreStreaksIffNamesDiffer | internal/rollout/service.go:412-430 | for every rule list, each counter is its own rule's failure streak over all rounds exactly when no two rules share a name |
| Guardrails.SharedNamesHideFailures | internal/rollout/service.go:412-430 | of two rules with one name the first can fail in every round and the round is still healthy |
| ConfigRegistry.SetStableSucceeds | internal/configregistry/service.go:186-225 | setting a pointer succeeds for every existing version in every valid environment and changes nothing else |
| ConfigRegistry.SetStableNeedsAVersion | internal/configregistry/service.go:186-225 | and for nothing else |
| RegistryChecks.TenantCreatedIff | internal/configregistry/service.go:55-73 | a tenant is added exactly when it has an id and a name and the id is free; nothing else changes |
| RegistryChecks.DefinitionCreatedIff | internal/configregistry/service.go:91-124 | a definition is added exactly when its tenant exists, schema and default are accepted, and id and key are named and free; nothing else changes |
| RegistryChecks.VersionCreatedIff | internal/configregistry/service.go:145-169 | a version is added exactly when its configuration exists and its schema accepts the value; it becomes the last of that configuration and no other changes |
| RegistryChecks.HeldPointersStay | internal/configregistry/service.go:201-215 | moving a pointer is refused as a conflict exactly when the stored state names an active rollout and another version |
| ConfigRegistry.VersionKeepsInv | internal/configregistry/memory_store.go:158-179 | a new version gets the next number, keeps both indexes equal to the list, and changes no earlier one |
| ConfigRegistry.DefinitionKeepsInv | internal/configregistry/memory_store.go:86-111 | a new definition keeps the key index equal to the definitions |
| ConfigRegistry.StateKeepsInv | internal/configregistry/memory_store.go:216-226 | a pointer write keeps every pointer naming an existing version |
| ConfigRegistry.FoundDefinitionIsTheOne | internal/configregistry/memory_store.go:139-156 | when tenant ids hold no NUL, a lookup finds the definition of that tenant and key |
| ConfigRegistry.NulTenantsShareKeys | internal/configregistry/memory_store.go:243-245 | in every registry, if a tenant id holds a NUL, another tenant's lookup finds that tenant's definition |
| ConfigRegistry.VersionKeysDiffer | internal/configregistry/memory_store.go:247-249 | the by-number keys are injective |
| Text.JoinIsUnambiguousIffNulFree | internal/rollout/memory_store.go:220-226 | a joined key determines its two parts exactly when neither holds a NUL |
| ConfigStores.MemoryStore.CreateTenant | internal/configregistry/memory_store.go:37-51 | adds a tenant unless its id is taken |
| ConfigStores.MemoryStore.GetTenant | internal/configregistry/memory_store.go:71-84 | finds a tenant iff it is there |
| ConfigStores.MemoryStore.ListTenants | internal/configregistry/memory_store.go:53-69 | all tenants, ordered by id |
| ConfigStores.MemoryStore.CreateDefinition | internal/configregistry/memory_store.go:86-111 | adds a definition under id and key, or refuses |
| ConfigStores.MemoryStore.ListDefinitions | internal/configregistry/memory_store.go:113-137 | a tenant's definitions, each once, ordered by key |
| ConfigStores.MemoryStore.GetDefinitionByKey | internal/configregistry/memory_store.go:139-156 | the definition under a key |
| ConfigStores.MemoryStore.CreateVersion | internal/configregistry/memory_store.go:158-179 | numbers and appends a valid version, in both indexes |
| ConfigStores.MemoryStore.ListVersions | internal/configregistry/memory_store.go:181-198 | the versions of a known definition |
| ConfigStores.MemoryStore.GetVersionByNumber | internal/configregistry/memory_store.go:200-214 | the version under that number |
| ConfigStores.MemoryStore.SaveEnvironmentState | internal/configregistry/memory_store.go:216-226 | stores a state under its key |
| ConfigStores.MemoryStore.GetEnvironmentState | internal/configregistry/memory_store.go:228-241 | the state under a key |
| ConfigStores.Service.CreateTenant | internal/configregistry/service.go:55-73 | a valid tenant is added, an error changes nothing |
| ConfigStores.Service.CreateDefinition | internal/configregistry/service.go:91-124 | the schema, and any default against it, must be accepted before the definition is added, in the source's order |
| ConfigStores.Service.CreateVersion | internal/configregistry/service.go:145-169 | a value its definition's schema rejects is refused, nothing is added; any other valid one becomes the next version |
| ConfigStores.Service.SetStableVersion | internal/configregistry/service.go:186-225 | the pointer moves to an existing version, an error changes nothing |
| ConfigStores.Service.ListVersions | internal/configregistry/service.go:171-184 | the versions of a configuration |
| ConfigStores.Service.GetEnvironmentState | internal/configregistry/service.go:227-233 | the state of a configuration in an environment |
| ConfigStores.Service.GetDefinition | internal/configregistry/service.go:133-143 | the definition of a tenant and key |
| DataPlane.DynamicSnapshotStore.GetSnapshot | internal/dataplane/dynamic_store.go:47-92 | for a registered agent, exactly the items collected over the definitions of the tenants, each once when all tenants are walked; not found otherwise; no other failure |
| DataPlane.DynamicSnapshotStore.SnapshotItemFor | internal/dataplane/dynamic_store.go:94-146 | one definition's entry, through the registry and the active rollout |
| DataPlane.DynamicSnapshotStore.SnapshotTenants | internal/dataplane/dynamic_store.go:148-163 | the configured tenants, or exactly the registered ones in id order |
| SnapshotTheorems.CollectedIsTheSnapshot | internal/dataplane/dynamic_store.go:60-91 | the items are exactly the entries of the definitions walked and the revision is the largest of theirs, at least 1 |
| SnapshotTheorems.EntryIsTheServedVersion | internal/dataplane/dynamic_store.go:94-146 | a configuration has an item exactly when it has a stable pointer, and the item is the number, value and checksum of exactly the served version |
| SnapshotTheorems.ServedVersion | internal/dataplane/dynamic_store.go:111-130 | the candidate goes exactly to the agents of the current cohort of a delivering rollout, and everyone else gets the stable pointer |
| SnapshotTheorems.EntryIsTheTarget | internal/dataplane/dynamic_store.go:111-130 | an assigned item carries the agent's own target and its revision, an unassigned one revision 1 |
| SnapshotTheorems.AssignedIff | internal/dataplane/dynamic_store.go:115-130 | an item is assigned exactly to the agents the active rollout asks at the moment, to deploy the candidate or to confirm the rollback |
| SnapshotTheorems.ServedItemsAckCounts | internal/agent/syncer.go:31-37 | an acknowledgement built from a served assigned item, delivered while its stage is current, counts exactly when the target is pending and the item's revision is the largest in its snapshot |
| SnapshotTheorems.OnlyAssignmentLeads | internal/dataplane/dynamic_store.go:81-84 | with one assigned item in the snapshot that condition always holds |
| SnapshotTheorems.AtMostOneAssignmentLeads | internal/dataplane/dynamic_store.go:81-84 | with two assigned items at most one of their acknowledgements can count |
| SnapshotTheorems.TargetAckCounts | internal/rollout/target.go:143-163 | an acknowledgement of a target counts iff it names its revision and the target is pending |
| Syncer.Syncer.SyncOnce | internal/agent/syncer.go:17-40 | items are acknowledged in order with the snapshot's revision, only after the snapshot was saved, up to the first refusal; none without an acknowledger |
| TornReads.FilesSpanTheStep | internal/rollout/service.go:227-296 | the file before a step and the files after each of its writes lead to the file after it, each keeping every cohort stored before it |
| TornReads.TornReadsInRuns | internal/rollout/service.go:298-308 | with the two reads of an active rollout falling anywhere between single writes, whoever is served the candidate is in an activated cohort once the step under way ends |
| TornReads.TornReadsAreVerified | internal/rollout/service.go:298-308 | and is asked to verify a later rollback |
| TornReads.StoredTargetsAreTheStores | internal/rollout/memory_store.go:195-205 | what the second read finds is what the keyed store holds |
| TornWindows.TornReadsFlapIff | internal/rollout/service.go:298-308 | over any run, with the record read in one step and the targets in the same or a later one, an agent of the current cohort is served the stable version exactly when both reads fall between the record and the targets of one promotion |
| TornWindows.PromotionOpensTheWindow | internal/rollout/service.go:455-469 | every promotion, by a visit or an acknowledgement, leaves such a file on the way |
| TornWindows.SnapshotReadsFlapIff | internal/dataplane/dynamic_store.go:94-130 | with the pointer read first, an agent once on the candidate is served the stable version again exactly when the rollout read is rolling back or rolled back, or completed after the pointer was read, or in that window |
| AgentCache.SnapshotCache.Save | internal/agent/cache.go:57-107 | the files pass through exactly the specified sequence, and the snapshot in memory changes iff the save succeeds |
| AgentCache.SnapshotCache.Load | internal/agent/cache.go:32-55 | takes the decoded main file if it is readable and valid, and otherwise keeps the snapshot |
| AgentCache.MainIsAbsentOrComplete | internal/agent/cache.go:74-100 | after any history of saves, failures, stops and restarts the main file is absent or holds all the bytes of one save |
| AgentCache.SuccessIsReadable | internal/agent/cache.go:90-101 | a save that succeeds leaves exactly its bytes at the main path |
| AgentCache.FailedSaveKeepsMainIff | internal/agent/cache.go:57-101 | which faults make a save fail, and exactly when a failed save leaves the main file other than it was |
| AgentCache.StopCostsOneLevel | internal/agent/cache.go:74-100 | stopping at any operation costs at most one level of safety (main, previous, staged) |
| AgentCache.TwoInterruptionsAreSurvived | internal/agent/cache.go:74-100 | with at most two unfinished saves since the last finished one a complete file is left |
| AgentCache.ThreeInterruptionsLoseEverything | internal/agent/cache.go:74-100 | three can lose every complete file |
| AgentCache.EveryStopIsSafeIff | internal/agent/cache.go:74-100 | every stop of a save leaves a complete file exactly when a main or previous file exists as it begins |
| ConfigCode.OrderDocuments | internal/configcode/apply.go:352-362 | computes the kind order in nested loops |
| ConfigCode.OrderIsAStableSort | internal/configcode/apply.go:352-362 | sorted by kind, every document of a known kind kept, each kind in its own order |
| ConfigCode.OrderIsTheOnlyStableSort | internal/configcode/apply.go:352-362 | there is no other such order |
| ConfigCode.KindsComeInOrder | internal/configcode/apply.go:352-362 | tenants come first, then definitions, versions, stable versions, and rollouts last |
| ConfigApply.Applier.ApplyDocuments | internal/configcode/apply.go:51-67 | without a URL nothing is done and a dry run only plans; otherwise the loop applies the ordered documents until the first failure and reports each step |
| ConfigApply.Applier.DoTenant | internal/configcode/apply.go:105-134 | creates a missing tenant, skips an existing one |
| ConfigApply.Applier.DoDefinition | internal/configcode/apply.go:136-171 | creates a missing definition, skips an equal one, refuses a different one |
| ConfigApply.Applier.DoVersion | internal/configcode/apply.go:173-202 | resolves to the first version with an equal value, or creates one |
| ConfigApply.Applier.DoStable | internal/configcode/apply.go:204-234 | sets the pointer to the resolved version unless it is set |
| ConfigApply.Applier.DoDocument | internal/configcode/apply.go:69-103 | dispatches on the kind, and skips rollouts unless they are included |
| ApplyOutcome.TenantOutcome | internal/configcode/apply.go:105-134 | an existing tenant is left as it is, a missing one is created exactly when it is valid, as the document says |
| ApplyOutcome.DefinitionOutcome | internal/configcode/apply.go:136-171 | an existing definition must agree in schema and in any default asked for, and is left; a missing one is created exactly when it is valid, as the document says |
| ApplyOutcome.VersionOutcome | internal/configcode/apply.go:173-202 | the first version with an equal value is taken; without one a version that says where it comes from is added; it fails exactly when neither is possible |
| ApplyOutcome.StableOutcome | internal/configcode/apply.go:204-234 | it succeeds exactly when its reference was resolved, configuration and environment are valid and the version number exists, and is skipped exactly when the pointer is there already |
| ApplyOutcome.AppliedDocumentsHold | internal/configcode/apply.go:51-234 | after a success every tenant, definition (with schema and default), version value and stable pointer the documents ask for is in the registry |
| ApplyOutcome.NothingIsMissing | internal/configcode/apply.go:51-67 | documents whose references pass validation and whose tenants and configurations are declared or present are never stopped by something missing, in whatever order they are given |
| ApplyOutcome.ReportFollowsTheDocuments | internal/configcode/apply.go:51-67 | the report has one step for each document in the order applied, applied or skipped, up to the first that failed |
| ApplyTheorems.UnappliedRefsDangle | internal/configcode/apply.go:204-246 | in kind order an unapplied reference is hit only if no version document has that name |
| ApplyTheorems.DanglingRefsFail | internal/configcode/apply.go:204-246 | and a document with such a reference is never applied |
| ApplyTheorems.ValidatedRefsAreApplied | internal/configcode/apply.go:204-246 | so documents whose references pass validation never stop on one |
| ApplyTheorems.ApplyingAgainChangesNothing | internal/configcode/apply.go:51-234 | after a success, applying the same documents again succeeds, resolves the same versions and leaves the registry as it was but for write times |
| ApplyTheorems.ApplicationSetsPointers | internal/configcode/apply.go:204-234 | a successful application keeps the registry sound, only adds, and leaves the pointers it found overridden by those its documents ask for |
| ApplyTheorems.DeclaredPointerHolds | internal/configcode/apply.go:173-234 | after a success a stable document that no later one overrides has its pointer at a version with the declared value |
| ConfigValidation.BuildValidationState | internal/configcode/validator.go:223-245 | collects definitions, references and name counts in one loop |
| ConfigValidation.PassingRefsNameOneVersion | internal/configcode/validator.go:111-157 | a reference that passes names one version document, the only one of its name, of the same configuration |
| ConfigValidation.VersionPassesIff | internal/configcode/validator.go:111-124 | a version document passes exactly when no other has its name and a definition with its validation key is given |
| ConfigValidation.RefPassesIff | internal/configcode/validator.go:138-157 | a reference passes exactly when the last version document of that name that names a configuration names the one asked for |
| ConfigValidation.DefinitionsAreTheDefined | internal/configcode/validator.go:223-245 | the state has a definition under a key exactly when some document defines a configuration with that key |
| ConfigValidation.ConfigKeyIsUnambiguousIffUnslashed | internal/configcode/validator.go:342-344 | a validation key determines its tenant and key exactly when neither holds a slash |
| ConfigValidation.OnlySlashedAreMisled | internal/configcode/validator.go:122-124 | a version finds a matching definition although none is given for its configuration only if its tenant or key holds a slash |
| ConfigValidation.MisledIffDoubled | internal/configcode/validator.go:122-124 | and for some document list it does so exactly when the joined name can be cut at another slash into two names that are not blank |
| ConfigValidation.SlashedConfigurationsCollide | internal/configcode/validator.go:342-344 | a document list that defines only tenant a, key b/c satisfies the check for tenant a/b, key c |

## Left out

Assumptions about the surroundings, stated as preconditions:

- SystemRuns.ReachableStatesAreSound: assumes of accepted operations what the code does not check: pairwise distinct stage names, ids that hold no NUL and do not clash, no registration that takes a target out of a delivering rollout's scope, and no request that moves the stable version under an active rollout; the guard against the last is never armed because no code sets the active rollout id of an environment state. Repeated names, lost targets and moved pointers do break the invariant (`RolloutStore.FrozenIffNamesDiffer`, `SystemSteps.RegisterKeepsWorldInv`, `SystemSteps.RegistryWriteKeepsWorldInv`).
- SystemSteps.CreateKeepsWorldInv: makes the first two of these assumptions.
- RolloutService.Service.CreateRollout: makes them too, and only of a creation that is accepted.
- GuardrailHistory.CountersRefineHistory: assumes distinct guardrail names, which is exactly when it holds.
- GuardrailHistory.CountersStayBelow: assumes that rules of one name need the same number of failures, which is exactly when it holds.
- RunTheorems.EveryRolloutEnds: assumes a positive maximum duration and rollback timeout; zero is replaced by a default, and a negative one switches the limit off.
- SystemTheorems.NoFlappingInRuns: speaks of a stretch in which no other rollout is started on the same configuration and environment and no request moves its stable version; requests that are refused, or set the version that is set, are covered.
- SystemTheorems.PointerFollowsTheRollout: makes the same assumption.
- SystemTheorems.VerificationReachesEveryoneServed: makes the same assumption.
- TornWindows.SnapshotReadsFlapIff: makes the same assumption; the version list is read once more in between, and a version created and rolled out inside that gap is not part of this model.
- ApplyTheorems.ApplyingAgainChangesNothing: takes rollout documents as skipped, and generated version ids as new among all versions.
- ApplyOutcome.AppliedDocumentsHold: takes generated version ids as new too.
- ApplyOutcome.NothingIsMissing: takes generated version ids as new too.
- Cohorts.KeyDeterminesItsParts: assumes generated ids without a NUL; the agent's own id may hold any character.
- ConfigApply.Applier.DoDocument: whether starting a rollout succeeds is a free answer.
- DataPlane.DynamicSnapshotStore.GetSnapshot: reads one state between steps; reads in the middle of a step are the subject of TornReads and TornWindows, for one configuration.
- TornReads.TornReadsInRuns: a rollout is read from when it exists; reads between the three writes of its creation, which serve nobody the candidate before the last, are left out.

Not modelled:

- Failures of the store, the context or the registry in the middle of a locked operation.
- HTTP handlers and clients, JSON and YAML decoding, health checks, logging, environment reading and command entry points.
- The PostgreSQL store and its migrations.
- The Prometheus client: a query is a sample, a value that is not finite, or a failure, chosen freely.
- JSON Schema validation, JSON equality and SHA-256 are functions of which only determinism, reflexivity and the modulo range are used.
- Floating-point rounding: coverage and thresholds are exact reals.
- Encoding and decoding of the snapshot file, its checksums and ETags: file contents are whole blobs, and nothing is claimed about loading what was saved.
- Losing bytes that were written but not flushed when the machine itself stops; a stop is a stop of the process.
- Agent credentials, heartbeats and the agent registry's own acknowledgement log.
- The order in which agents are listed: cohorts are proved not to depend on it.
- slices.SortFunc: the sorts are insertion sorts on values with the same order.
- The order in which a map yields its keys is free.
- Update in place and aliasing of records and slices: they are values here, except for the array that ApplyAck marks.
- Diagnostics of the manifest validator other than those about version names, matching definitions and references, and its file discovery.
- The report messages of the applier and its transport errors.
- Stopping the applier half-way by an error in transport, and documents applied by two appliers at once.
- The simulator, the reliability harness, the Java demo service and the deployment files.
