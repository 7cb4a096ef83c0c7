# a4s, modelled and proved in Dafny

a4s is a control plane in which agents propose plans, a kernel authorizes each whole plan by simulating it on a
copy of the world, an executor acts, and only recorded evidence moves the world. This project models that loop,
the governor and the history around it, and the node-side machines it talks to, and proves what they promise over
whole plans and whole runs. `dafny verify dfyconfig.toml` checks all of it.

The main results, by area:

- **World, kernel, executor** (`projection`, `executor`, `policy`, `exactness`, `plans`, `budgets`, `repeat`). An
  authorized plan, carried out action by action at any times, goes through exactly when its creations and attachments
  are named, and ends in the world the kernel simulated; the agent budget, left out there, differs by exactly what
  the simulated deletions gave back. Repeating evidence is absorbed exactly outside a stated set of cases.
- **Volumes and capacity** (`fencing`, `handoff`, `snapshots`, `accounting`, `sums`). One unfenced writer for each
  volume along every run; a volume changes home only through a complete handoff; the snapshot index is exact and
  pruning keeps what it must; a node's use is what is placed on it, over every run, exactly when it was so at the
  start.
- **Governor and availability** (`ledger`, `governor`, `governed`, `cooldown`, `backoff`, `availability`,
  `counterexamples`). Over every run, no window holds more disruptions than the budget, and the engine's own runs are
  such runs as long as executors report what they were asked for; no two domains are disrupted within one cooldown
  exactly when every plan hits one domain, read in the simulated world, that the recent history allows; nothing is
  launched before its failure backoff is over; what an accepted plan leaves serving is known exactly, simulated and
  executed.
- **Placement** (`placement`, `steps`, `accepted`, `admission`, `names`). The placement agent fills the lowest missing
  slots, as many as one proposal may, and gives up exactly when one of them finds no node. Every creation it proposes
  passes the kernel's checks in the world simulated so far, because its running accounts are the simulated changes.
  For goals without volumes the kernel accepts the whole proposal exactly when the ids are free, an image to pull is
  pinned, changing tools are approved and there is a budget to spend.
- **History** (`history`, `engine`). Two chains with one head are one history; ingesting never drops a record, and
  what is anchored or promoted extends what was witnessed exactly when it has grown since or its head row names its
  last record; the world kept by the engine is the fold of the projection over the recorded evidence, at most one
  item ahead after a failure, and nothing is executed without an approval given on a world the engine had and a
  recorded dispatch.
- **Node side** (`workqueue`, `broker`, `lease`, `dispatch`, `channel`). Tasks are conserved, bounded and handed
  out one at a time; leases exclude each other exactly as long as no release drops a lease that stands for an earlier
  grant; a key is executed once for every attempt that failed to store its result and once more if it is stored; the
  encrypted stream delivers exactly what was sent.
- **Arithmetic and search** (`schedule`, `canary`). The cron search that skips whole days finds the least matching
  minute; canary weights are fair and total 100 exactly when no side is crowded.

How things are represented:

- Instants are integers, in nanoseconds since Go's zero time, so the zero value is 0. Integers are unbounded; the
  64-bit record counter of the channel is written out.
- Evidence is one datatype constructor for each kind, instead of a map of strings; errors carry no text.
- `Project` works on a deep copy in the source and is a function from world to world here. Its loops over lists are
  methods of their own (`KeepSince`, `BackoffFor`, `PrunableSnapshots`, `RemoveString`). Loops that only count are
  set sizes where the count is used in a proof, and loops where the count is the result (`Tally`, `Depth`,
  `DomainOccupancy`). A method that walks a map takes the order the map yields as a parameter.
- Clocks, the answers of executors, probes, agents, sinks, disks and transports, and signature checks are
  parameters, or arbitrary values where the engine asks for them. Hashes are a free datatype and the work digest is
  an injective function.
- Goals come validated and nodes filed under their own ids, as `control/validate.go` establishes; `Admitted` states
  the checks on the fields that are modelled.

Where the code and its documentation differ, the model follows the code:

- Projecting the same evidence twice is said to give the same world; `RepeatedEvidence` says exactly when it does.
- Weights are said to sum to 100; `CrowdedSideOverflows` shows a split of 101 and `SplitTotalsHundred` says exactly
  when the total is 100.
- A dry-run prune is said to remove nothing, but its evidence is projected as a removal (`DryRunPruneDiffers`).
- Deleting an allocation releases the node's agent budget in simulation but not in the projection
  (`DeletionStrands`), so the exactness result leaves that field out and `BudgetsAgreeExactly` says when it agrees too.
- A drain is simulated as leaving its target in service and executed as taking it out (`DrainTakesOutOfService`), so
  an accepted plan can break the availability floor (`DrainsBreakFloor`); `ExecutionKeepsFloor` says exactly when.
- Placing at most two replicas is said to keep a plan within the action limit; `BatchExceedsLimit` shows ten actions.
- The agent's action ids are meant to tell its actions apart; `ReplicaInTurn` says exactly when the creation of an
  allocation and that of one of its volumes share one, as they do for `ClashingGoal`.
- The cooldown is said to keep a second domain undisturbed; `RecreatedElsewhere` shows an authorized plan that does
  not, for an agent with grants the default policy keeps apart, and `CooldownExactly` says which plans do.
- An acknowledgement of a task that is gone is meant to be a harmless retry, but it clears the caller's slot
  (`StaleAckHidesClaim`).
- Leases are said to make concurrent mutation of one target impossible; a proposal that acquired twice and releases
  the second grant loses the first (`RetryThenReleaseLosesTarget`). `CarefulExactly` says which releases do that and
  `SingleGrantsAreExclusive` that none does while proposals acquire once.
- A job is meant to run at its next slot; the search gives up after four years, so a leap-day job that ran in 2096 is
  due at no later time (`LeapDayBeyondLimit`).
- Opening a log is said to detect a head row written without its record; only the count is compared, and
  `IngestKeepsChain` says what follows when the head row names another record.

## Model

| member | source | states |
|---|---|---|
| Exactness.PlanExecutesAsSimulated | control/policy.go:125-188 | an accepted plan, executed and projected action by action at any times, goes through if and only if its creations and attachments are named, and then ends in the simulated world on everything but readiness, addresses, tool contents, agent budget, fingerprints, verification marks, the disruption ledger, the revision and the observation time |
| Exactness.AuthorizedPlanIsExact | control/policy.go:125-188 | the same if and only if, from the kernel's verdict on a whole proposal |
| Exactness.FeasibleStepAgrees | control/executor.go:407-673 | one feasible action keeps the executed and the simulated world in agreement, for every kind but the two that simulation does not mirror |
| Exactness.ValidIsFeasible | control/policy.go:258-264 | what any validator accepts meets everything its execution and projection rely on |
| Exactness.UnnamedIsRefused | control/projection.go:139-165 | without a name, what the kernel accepted is refused when its evidence is projected |
| Exactness.WellFormedAlongRuns | control/projection.go:96-115 | node names, snapshot indexes and the checksum of a snapshotted move survive every run of evidence |
| Exactness.SnapshotDiffers | control/executor.go:488-498 | a simulated snapshot never names the recovery point that the real one leaves |
| Exactness.DryRunPruneDiffers | control/projection.go:395-407 | a dry-run prune ends as simulated exactly when there was nothing to prune |
| BudgetAccounting.BudgetsAgreeExactly | control/executor.go:634-643 | after an accepted plan, the executed and the simulated world agree on the agent budget reserved on a node if and only if the plan deletes no allocation of that node that carries one while the simulated node reserves some |
| BudgetAccounting.BudgetsDifferByDeletions | control/executor.go:634-643 | in each dimension the executed world reserves exactly what the simulated deletions gave back more, whatever the node reserves |
| BudgetAccounting.BudgetsAreStranded | control/projection.go:586-597 | over every run of evidence the reserved budget less the budgets of placed allocations grows by exactly the budgets of deleted allocations |
| BudgetAccounting.SimulationGivesBack | control/executor.go:407-673 | a simulated action changes the reserved budget, less the budgets of placed allocations, by the budget of a deleted allocation less what is given back |
| BudgetAccounting.BackedGivesBackAll | control/executor.go:634-643 | on a node that reserves at least the budgets of its allocations the clamp never bites, and deletions give their budgets back in full |
| BudgetAccounting.DeletionStrands | control/executor.go:634-643 | the one-action plan that deletes an allocation with a budget is accepted for the rollout agent's grants, and executing it keeps reserved what simulating it gives back |
| Repeat.RepeatedEvidence | control/projection.go:86-115 | projecting the same evidence twice in a row moves only the revision, if and only if it is not a detach that takes effect, a transfer, an adoption, a failure, a drain of a live allocation or an already expired readiness; a repeated transfer or adoption is refused |
| Repeat.VolumeStepTwice | control/projection.go:233-480 | every step of a known volume is absorbed by its own repeat, and the two that close a phase are refused |
| Repeat.DetachTwice | control/projection.go:212-231 | a repeated detach is absorbed exactly when the first one was ignored |
| Fencing.FencingAlongRuns | control/projection.go:175-231 | along every run of evidence whoever holds a volume at its current generation owns it, and no generation goes back between two points of the run |
| Fencing.OneWriter | control/projection.go:184-210 | two allocations that both hold the current generation are one and the same, and the recorded owner |
| Plans.StartedAsSoleWriter | control/policy.go:837-863 | when an accepted plan starts an allocation, in the world its execution has reached that allocation is the only writer of every declared volume |
| HandoffProtocol.HomeMovesOnlyByHandoff | control/projection.go:290-360 | in a run with no move in progress at the start, a volume comes home to a node only at that node's adoption, after a quiesce naming it, a snapshot and a transfer with the same checksum, and no other quiesce between |
| HandoffProtocol.HandoffIsExplained | control/projection.go:260-265 | the phase and checksum of a move in progress are explained by evidence earlier in the run, in order |
| Plans.NoTransferAfterQuiesce | control/policy.go:467-512 | no accepted plan transfers or adopts a volume that it quiesced itself |
| Accounting.CapacityIsConserved | control/projection.go:586-597 | over every run a node's Used minus the resources placed on it stays what it was, so the clamp in Subtract never bites |
| Accounting.ConservedExactlyWhenCovered | control/types.go:317-336 | conservation over all runs holds if and only if the node started with Used at least what was placed on it |
| Plans.PlanStaysCapped | control/policy.go:277-305 | an accepted plan started within capacity keeps every node within capacity after every simulated prefix |
| Plans.ExecutionStaysCapped | control/executor.go:81-402 | and so does its execution, after every prefix |
| Snapshots.IndexAlongRuns | control/projection.go:233-259 | along every run the order lists exactly the recorded snapshots, each once, and the last snapshot is one of them or there are none |
| Snapshots.PrunableSnapshots | control/projection.go:895-920 | the loops return exactly the unprotected snapshots, oldest first |
| Snapshots.ProtectNewest | control/projection.go:895-920 | counting back from the end protects exactly the newest, at least one and at most all |
| Snapshots.RemoveString | control/projection.go:878-893 | removes the first occurrence and keeps the rest in order |
| Snapshots.PruneKeepsProtected | control/projection.go:395-414 | a prune keeps exactly the newest, every backup and the recovery point, in their original order with their checksums, and an exact index |
| Snapshots.PruneTwiceRemovesNothing | control/projection.go:895-920 | right after a prune there is nothing left to prune |
| Snapshots.PruneEvidenceIsPrune | control/projection.go:395-414 | projecting the evidence of a prune removes what was prunable and moves nothing else |
| Ledger.KeepSince | control/disruption.go:126-153 | keeps exactly the entries later than the cutoff, in order |
| Ledger.BackoffFor | control/disruption.go:94-106 | the doubling loop computes the capped power of two |
| Ledger.BackoffEscalates | control/disruption.go:94-106 | a target that keeps failing never waits less than before, and never longer than the cap |
| FailureBackoff.BackoffAlongRuns | control/disruption.go:156-177 | along every run of evidence the backoff of a target is exactly that of its failures since it was last ready |
| FailureBackoff.NothingLaunchedEarly | control/disruption.go:395-411 | after any run, no authorized plan creates or starts a target before the delay of its consecutive failures has passed |
| Governor.BudgetAlongRuns | control/disruption.go:336-385 | over every run of observations and authorized plans, under any policy with a budget whose window the ledger remembers, no interval as long as the window holds more disruptions than the budget |
| Governor.DomainsAlongRuns | control/disruption.go:336-385 | over every run in which no plan disrupts what was created while it was carried out, under any policy with a cooldown that the ledger remembers, two disruptions closer than the cooldown are in one failure domain |
| Governor.DecisionKeepsBudget | control/disruption.go:336-360 | one check of a plan against the ledger is enough for every window its disruptions fall into, however late they are dated |
| Governor.DecisionKeepsDomains | control/disruption.go:360-385 | one check is enough for every cooldown its disruptions fall into |
| Governor.OrderlyIsUntangled | control/disruption.go:319-334 | a plan without a disruptive action on an id it creates earlier meets that condition, however it is reported, if nothing is created from elsewhere meanwhile |
| Governor.DefaultPolicyAlongRuns | control/policy.go:47-117 | under the default policy both promises hold over every such run from an empty ledger, whatever the agents propose |
| Governor.TakeRemembers | control/disruption.go:126-153 | looking back by at most the retention, the pruned ledger and the full history are the same |
| Governor.RecordedIsForeseen | control/disruption.go:319-334 | each disruption of an allocation not created meanwhile lies in a domain the decision looked at |
| Counterexamples.RecreatedElsewhere | control/disruption.go:319-334 | from a clean start an agent with both grants is authorized to delete an allocation, create it elsewhere and delete it there, and carrying that out disrupts two domains at once |
| Counterexamples.TangledPlanHitsTwoDomains | control/disruption.go:319-334 | that plan violates the exact condition, under every history and cooldown |
| Counterexamples.TangledGoalIsAdmitted | control/validate.go:14-104 | its goal is one that validation admits, for every admitted name, pinned image and port |
| Governor.DefaultPolicyIsSeparated | control/policy.go:47-117 | the default grants never give one agent both creation and disruption |
| Governor.CleanStart | control/disruption.go:292-306 | a world with an empty ledger satisfies both promises |
| Governed.ScriptIsRun | control/engine.go:144-313 | what an engine did, measurement by measurement and action by action, is a run of the governor as long as measurements disrupt nothing, the clock runs, and executors report on the action asked for and not before the decision |
| Loop.EngineKeepsBudget | control/disruption.go:336-360 | for every engine after any of its runs, with reports as above: no window of the disruptions recorded by what it projected, with those on record when it started, holds more than the budget |
| Cooldown.CooldownExactly | control/disruption.go:308-385 | for an accepted plan that can be executed and a history that keeps the cooldown: whatever the report times from now on, the history with what executing the plan records keeps the cooldown, if and only if all domains the plan hits in the simulated world are equal to each other and to every domain disrupted less than a cooldown ago |
| Cooldown.AcceptedCooldownExactly | control/policy.go:146-167 | the same for every accepted plan of a valid goal in a well-formed world with its creations and attachments named and without the two kinds that simulation does not mirror |
| Cooldown.PlanRecordsHits | control/disruption.go:126-153 | executing a plan records exactly one disruption for each hit read in the simulated world, in order, in the same domain |
| Cooldown.CooldownAlongRuns | control/disruption.go:308-385 | over every run of observations and authorized plans, each carried out as far as it gets and hitting one domain by that condition, two disruptions closer than the cooldown are in one failure domain |
| Cooldown.TangledRunsBreak | control/disruption.go:308-385 | after any such run, an authorized plan that violates the condition breaks the cooldown when it is reported at the decision |
| Availability.ReadyRunsAlongRuns | control/projection.go:511-528 | along every run of evidence, ready implies running |
| Availability.PlanKeepsFloor | control/policy.go:898-963 | any accepted plan leaves at least min(serving before, replicas - 1) replicas serving in the simulated world |
| Availability.ExecutionKeepsFloor | control/policy.go:1105-1128 | carrying out an accepted plan keeps the floor if and only if it stops or drains no more serving replicas than can be spared |
| Availability.ExecutedService | control/policy.go:898-963 | carrying out any accepted plan takes out of service exactly what it stops or drains, and brings nothing in |
| Availability.PlainPlanKeepsFloor | control/policy.go:898-963 | without starts and drains the kernel's own check of the floor is enough for the executed world |
| Counterexamples.DrainsBreakFloor | control/policy.go:1105-1128 | under the default policy the rollout agent may drain both of two serving replicas in one plan, and then nothing serves |
| Counterexamples.CrewGoalIsAdmitted | control/validate.go:14-104 | its goal is one that validation admits, for every admitted name, pinned image, port, provider, budget and tools |
| Admission.AdmittedIsValid | control/validate.go:14-104 | an admitted goal has a pinned image, distinct secrets and volumes, and everything else that planning and the kernel take for granted |
| Availability.DrainTakesOutOfService | control/projection.go:673-685 | executing a drain takes exactly its target out of service |
| Availability.DrainSimulatedInService | control/executor.go:652-660 | simulating a drain takes nothing out of service |
| Kernel.Authorize | control/policy.go:125-188 | the loop over a simulated world accepts exactly the plans that satisfy every check in turn, on the world reached by the actions before |
| Kernel.SimulatePlan | control/policy.go:146-167 | stops at the first action refused in the world simulated so far, and accepts exactly when none is |
| Kernel.CurrentCommitment | control/clusterbudget.go:36-53 | the sum over live allocations does not depend on the order the map is walked in |
| Placement.Propose | control/agents.go:28-203 | the proposal fills exactly the lowest missing slots below the desired number, as many as one proposal may, with the actions for the nodes picked slot by slot, and expects the readiness of each; it is refused exactly when one of the slots finds no node; for goals without volumes the plan goes through in simulation, every creation passes the kernel's checks in the world simulated so far, and every action is in turn; the number of actions is given exactly |
| Placement.SlotsAreLowest | control/agents.go:60-201 | the slots of a proposal number the smaller of the limit and the missing slots, each is missing and below the desired number, and none is filled while a lower one stays missing |
| Placement.PickedExactly | control/agents.go:65-91 | so many replicas find nodes one after the other exactly if no earlier one of them is left without |
| Acceptance.AcceptedExactly | control/policy.go:146-167 | for goals without volumes the kernel accepts every action of the proposal in turn if and only if no slot's id is taken, an image to pull is pinned, changing tools are approved and an agent has a budget to spend |
| Acceptance.AdmittedAccepted | control/policy.go:146-167 | for an admitted goal that is if and only if the slots' ids are free and changing tools are approved |
| Acceptance.ReplicaValid | control/agents.go:92-178 | one replica's pull, creation, grants, mounts, attachment and start are all valid in turn on the same terms |
| Acceptance.RunsExactly | control/policy.go:146-167 | a plan that goes through in simulation with every action in turn is accepted exactly when every action is valid in the world simulated before it |
| Placement.SelectNode | control/agents.go:205-267 | returns the candidate with the most memory left, the first among equals, and nothing exactly when there is no candidate |
| Placement.ChooseNode | control/agents.go:65-91 | the home of the data, or the candidate with the most memory left; none exactly when nothing is a candidate, or the data is on the move or its home is unavailable |
| Placement.ExistingReplicas | control/agents.go:35-49 | collects exactly the replica slots that a live, matching allocation fills |
| Placement.DomainOccupancy | control/spread.go:85-101 | counts for every domain exactly the live replicas on known nodes in it |
| Placement.CandidateFits | control/policy.go:277-319 | a candidate by the agent's books passes the kernel's creation checks in any world those books track |
| Placement.ReplicaTracks | control/agents.go:187-192 | all of a replica's actions go through in simulation, and the updated books track the simulated world again, exactly if the id was free |
| Placement.CreateTracks | control/executor.go:416-427 | a simulated creation changes the world by what the agent reserves, and the replicas in each domain by exactly what it counts if the id was free |
| Placement.DesiredIsAuthorized | control/agents.go:449-464 | the demand-driven replica count never exceeds what the kernel authorizes |
| Placement.PlaceReplica | control/agents.go:92-178 | the replica's actions are each in turn for the kernel if and only if no new volume's creation has the id of the allocation's creation |
| ReplicaPlan.ReplicaInTurn | control/agents.go:92-178 | each action has an id of its own and depends only on actions before it, if and only if the name of no volume to be created, with "volume-" before it, is the allocation id |
| Admission.ClashingGoal | control/agents.go:92-178 | out of any admitted goal for one replica, an admitted one (workload volume-data with volume data-0) whose actions are not in turn |
| ReplicaPlan.NextReplicaInOrder | control/agents.go:61-201 | without volumes the replicas of one plan never share an action id |
| ReplicaPlan.ReplicaPulls | control/agents.go:92-178 | the exact number of a replica's actions |
| ReplicaPlan.BatchExceedsLimit | control/agents.go:9-15 | two replicas with a port and one secret on nodes without the image make ten actions, more than the default limit |
| History.VerifyChain | eventlog/chain.go:35-55 | the loop carrying one hash accepts exactly the chains whose every record is numbered, linked and hashed right |
| History.SameHeadSameHistory | eventlog/chain.go:18-28 | two verified chains with the same head are equal |
| History.SameRecordSamePast | eventlog/chain.go:18-28 | agreeing on one record, two verified chains agree on everything before it |
| History.File.Open | eventlog/store.go:66-106 | opens exactly the tables whose row count matches the head row and whose chain verifies, whatever hash the head row names |
| History.File.Append | eventlog/store.go:230-288 | on any opened store, extends the table by one record derived from the remembered head, or changes nothing; the longer chain verifies if and only if it did before and that head names the last record; a writer whose sequence is not the current one always fails, so history cannot fork |
| History.File.ConfirmRecord | eventlog/store.go:330-345 | accepts exactly a record whose hash is the one held at its sequence, or one not held |
| History.File.Ingest | eventlog/store.go:303-326 | on any opened store, accepts exactly the batches whose every record is held or derives, and the table only grows either way |
| History.IngestKeepsChain | eventlog/store.go:303-326 | after ingesting into an opened store the chain verifies if and only if nothing was added or the head row named the last record |
| History.AppendKeepsChain | eventlog/store.go:230-288 | an append keeps the rows numbered, and the chain sound exactly when it extends its own last record |
| History.IngestAgrees | eventlog/store.go:303-326 | records of a verified primary, in whatever order and overlap they are accepted, leave the follower with the primary's own history up to each of them |
| History.IngestAccepts | eventlog/store.go:303-326 | a gapless stretch of the primary is accepted if and only if the follower agrees as far as both reach |
| History.Anchor.Open | eventlog/anchor.go:45-88 | finds the highest line, and refuses exactly the files with a line without a hash |
| History.Anchor.Witness | eventlog/anchor.go:102-139 | never goes backwards and never changes its mind about a sequence |
| History.Anchor.Check | eventlog/anchor.go:152-193 | passes exactly when the head, or the record where the witness stood, has the witnessed hash |
| History.AnchoredHistory | eventlog/anchor.go:152-193 | a verified store that passes extends exactly the witnessed history, if and only if it has grown since the witness or its head row names its last record |
| History.HeadRowAlonePasses | eventlog/anchor.go:152-193 | with a head row that names the witnessed hash, a store of another history passes |
| History.Standby.Ingest | server/standby.go:93-105 | the follower ends as the log's own ingest leaves it, for any opened log |
| History.Standby.Promote | server/standby.go:135-165 | promotion passes its checks, and the anchor check on reopening, exactly when the chain verifies, the head row counts the rows and both the anchor read at opening and the anchor as it stands now pass; a promoted history extends what the anchor witnessed if and only if it has grown since or its head row names its last record |
| Loop.TakeOver | server/server.go:81-119 | the promoted server opens exactly when promotion passes, the recorded evidence rebuilds the world and the anchor takes the head; then the world is the fold of the recorded evidence and the anchor stands at the head |
| History.WitnessOfPrimary | eventlog/anchor.go:102-139 | a witness a primary took of its own log stands for exactly that much of the primary's history |
| Loop.DurableProjector.Project | control/durable.go:59-68 | the kept world stays the fold over everything projected; refused evidence changes nothing |
| Loop.DurableProjector.Rebuild | control/durable.go:73-92 | rebuilding succeeds exactly when every item projects, and then the world is the fold over the recorded evidence |
| Loop.FoldsIsReplay | control/durable.go:33-51 | the incrementally kept world is the replay of its past |
| Loop.Engine.Run | control/engine.go:144-253 | a run that achieves its goal ends with the world equal to the fold over recorded evidence, the conditions of that very goal (or of the goal with only its image replaced by a live rollback approval in a world the engine had) true, and the achievement recorded last; any other run ends at most one item ahead |
| Loop.Engine.Act | control/engine.go:264-299 | nothing is executed without its dispatch recorded before, and at most this one action is |
| Loop.Engine.Dispatch | control/engine.go:264-278 | the executor is called only after the dispatch event is recorded |
| Loop.Engine.ExecuteProposal | control/engine.go:260-313 | a plan's actions are executed under the approval that covers them, and the world never gets more than one item ahead of the log |
| Loop.Engine.Consider | control/engine.go:196-229 | a plan is executed only after the kernel approved that very plan on the world the engine had then |
| Loop.Engine.RefreshReadiness | control/engine.go:393-440 | only measurements that change readiness in the world they were taken in are projected, and they are recorded with it |
| Loop.Engine.Observe | control/engine.go:448-468 | probe evidence is projected and recorded together |
| Loop.Engine.Record | control/engine.go:505-519 | an event is appended with its evidence, or nothing is |
| Loop.ExecutedWasAuthorized | control/engine.go:199-204 | every executed action belongs to a plan that the kernel authorizes on a world the engine had at some point of its past |
| Loop.CompensatedGoal | control/rollout.go:94-134 | the first live rollback approval decides; the goal changes only in its image, and only when that approval applies and names another image |
| Loop.MeansTheGoal | control/rollout.go:94-125 | whatever the engine works towards is the goal asked for with at most its image changed |
| Loop.Restart | control/durable.go:33-51 | rebuilding from the log gives the world the engine kept |
| WorkQueue.Queue.Load | node/queue.go:105-138 | reads the file back line by line, refusing exactly a task without an id |
| WorkQueue.Queue.Persist | node/queue.go:143-180 | writes the tasks in delivery order |
| WorkQueue.ReloadIsIdentity | node/queue.go:105-180 | what was saved loads as the same queue, in the same order |
| WorkQueue.Queue.Enqueue | node/queue.go:186-198 | adds a new task at the end, ignores a known id, and keeps the listing exact and the file current |
| WorkQueue.Queue.Claim | node/queue.go:207-231 | hands the oldest deliverable task to the caller and counts the attempt, or changes nothing |
| WorkQueue.Queue.Oldest | node/queue.go:214-222 | the walk over the order stops at the first deliverable task |
| WorkQueue.FirstIsOldest | node/queue.go:207-231 | what is handed out is deliverable and nothing before it is; nothing is handed out exactly when nothing is deliverable |
| WorkQueue.Queue.Ack | node/queue.go:238-253 | only the holder removes a task; a task that is gone is acknowledged without effect |
| WorkQueue.Queue.Requeue | node/queue.go:258-270 | only the holder returns a task |
| WorkQueue.Queue.ReleaseAllocation | node/queue.go:277-291 | frees exactly the tasks the instance holds |
| WorkQueue.Queue.Depth | node/queue.go:298-313 | counts exactly the deliverable and the leased tasks |
| WorkQueue.Queue.StalledTasks | node/queue.go:317-330 | lists exactly the tasks whose attempts are used up, each once |
| WorkQueue.EveryTaskIsCounted | node/queue.go:298-330 | waiting, in flight and stalled always add up to all tasks |
| Broker.QueueBroker.Claim | node/queue.go:367-382 | eligibility is decided before the queue is touched, and a claimed task is the one in the slot |
| Broker.QueueBroker.Ack | node/queue.go:385-394 | acknowledges and frees the slot, also when the task is gone |
| Broker.QueueBroker.Requeue | node/queue.go:397-406 | returns the task and frees the slot, or changes nothing |
| Broker.QueueBroker.Release | node/queue.go:410-419 | frees everything the instance holds, and its slot |
| Broker.QueueKeepsItsPromises | node/queue.go:186-330 | in every run, restarts included, the listing is exact, every task is counted once, a queued task was handed out at most MaxAttempts times since it was enqueued, and never again before the previous lease lapsed or was given back |
| Broker.CarefulCallsStayVisible | node/queue.go:238-246 | a claimed task stays the one in its holder's slot through a call if and only if an acknowledgement names a queued task or comes from an instance holding none, and a restart finds none held |
| Broker.CarefulRunsStayVisible | node/queue.go:367-419 | in every run of such calls a claimed task is the one in its holder's slot |
| Broker.StaleAckHidesClaim | node/queue.go:385-394 | in the run in which an instance takes and acknowledges one task, takes another and retries the first acknowledgement, it still holds the second and no longer sees it |
| Broker.Agents.Reserve | node/agent.go:215-231 | a replayed reservation keeps what was spent |
| Broker.Agents.Spend | node/agent.go:239-250 | consumption never shrinks, and going on is allowed exactly below the ceiling |
| Leases.LeaseManager.Acquire | control/lease.go:56-88 | claims every target or none, and fails exactly when another proposal holds one of them |
| Leases.LeaseManager.Release | control/lease.go:92-100 | drops exactly the leases under the id |
| Leases.LeaseManager.Holder | control/lease.go:103-111 | reports a lease exactly while it is live |
| Leases.LeasesAreExclusive | control/lease.go:56-111 | over every interleaving of acquisitions, careful releases and a clock that does not run backwards, no two proposals hold live grants on one target |
| Leases.StepStaysBacked | control/lease.go:56-111 | a step keeps every hold backed by the table if and only if it is not a release under an id that the table keeps for a target someone holds by an earlier grant |
| Leases.CarefulExactly | control/lease.go:92-100 | such a release is exactly one after which some acquisition breaks exclusivity |
| Leases.CarelessRunsLoseTarget | control/lease.go:92-100 | the first such release of a run is one acquisition away from two holders of one target |
| Leases.SingleGrantsAreExclusive | control/lease.go:56-111 | if every proposal acquires only while it has no unreleased grant, no two proposals hold one target in any interleaving, whatever is released |
| Leases.SingleGrantsAreCareful | control/lease.go:92-100 | with one unreleased grant for each proposal every release is careful |
| Leases.RetryThenReleaseLosesTarget | control/lease.go:71-74 | the run in which a proposal acquires a target twice and releases the second grant, and another acquires it, ends with two holders |
| Leases.LeaseIDNamesProposal | control/lease.go:79-79 | a lease id belongs to one proposal, whenever it was granted |
| Leases.ReleaseKeepsOthers | control/lease.go:92-100 | releasing one proposal's lease keeps every lease of another |
| Dispatch.Dispatcher.Dispatch | node/dispatcher.go:99-168 | verified requests are answered from the ledger, refused, or executed once, noted and stored, as far as each step succeeds |
| Dispatch.NeverExecutedAgain | node/dispatcher.go:129-135 | once a result is stored it survives every later run, restarts included, and its key is never executed again |
| Dispatch.ExecutedAsOftenAsLost | node/dispatcher.go:129-168 | over every run, restarts included, a key is executed once for each attempt that got through while the runtime, the desired state or the disk failed, and once more exactly when its result came to be stored |
| Dispatch.StoredIsFinal | node/dispatcher.go:129-135 | after any run, a request under a key with a stored result runs nothing and is answered with it exactly when it is verified and asks for the very work the result was stored for |
| Dispatch.WorkIsSettled | node/dispatcher.go:129-135 | along every run, restarts included, the work behind a key is settled when its result is stored, and each stored digest is the digest of that work |
| Dispatch.LeasesAreRespected | node/dispatcher.go:239-266 | over every run nothing is executed on a target under another lease than the recorded one while that claim is live |
| Dispatch.FileLedger.Replay | node/file_ledger.go:50-79 | replay rebuilds the map, and refuses exactly incomplete lines and keys with two digests |
| Dispatch.FileLedger.Put | node/file_ledger.go:88-107 | a key is stored once, and memory stays what replaying the file gives |
| Channel.StreamRoundTrip | node/channel.go:115-189 | whatever is written and read, in whatever sizes, delivered bytes are a prefix of the bytes sent, no record is refused, and everything has arrived exactly when nothing is buffered and no whole frame is on the wire |
| Channel.ReadsMakeProgress | node/channel.go:146-160 | a read with room in its buffer delivers something exactly when something sent is not yet delivered |
| Channel.NoncesAreFresh | node/channel.go:108-112 | no nonce repeats under a key if and only if the session has at most 2^64 records |
| Channel.FrameParses | node/channel.go:162-189 | every frame a write makes is within the reader's limit, authentic and parsed back to its chunk |
| Channel.WriteSendsAll | node/channel.go:115-143 | a write sends a prefix of its plaintext, and all of it exactly when the transport has the room |
| Channel.SecureConn.Write | node/channel.go:115-143 | the chunking loop leaves the wire, the counter and the count as the record-by-record write does |
| Channel.SecureConn.ReadRecord | node/channel.go:162-189 | takes exactly the next record, waits on an incomplete one, refuses an empty, oversized or unauthentic one |
| Channel.SecureConn.Read | node/channel.go:146-160 | fills the buffer from the pending plaintext, fetching one record only when there is none, and leaves the rest of the buffer alone |
| Channel.BigEndianRoundTrip | node/channel.go:133-135 | a length that fits its width is read back as written |
| Cron.Next | control/schedule.go:231-246 | returns the least matching minute after the argument and before the four-year limit, or none exactly when there is none |
| Cron.Due | control/schedule.go:254-264 | with a past run, due exactly when some slot before the limit falls after it and no later than now; with none, exactly when the current minute matches |
| Cron.LeapDayBeyondLimit | control/schedule.go:231-246 | a leap-day job last run in its own slot of a leap year before a skipped one, such as 2096, is due at no later time: the limit rolls over to the first of March four years on, and its next slot is eight years on |
| Cron.EitherDayMatches | control/schedule.go:201-223 | both day fields must match if either is a wildcard, and either suffices if both are restricted |
| Cron.ParseField | control/schedule.go:267-314 | yields exactly the values some part covers, and fails exactly when a part is unusable |
| Calendar.DateRoundTrip | control/schedule.go:236-237 | a day number is the day number of its date, and the day after that date is the next number |
| Calendar.DayRoundTrip | control/schedule.go:233-233 | every date is the date of its day number |
| Calendar.YearStartClosed | control/schedule.go:233-233 | counting years one by one gives the closed form of the Gregorian calendar |
| CanaryRollout.ValidateCanary | control/canary.go:32-60 | accepts exactly the strictly increasing ladders within 1 to 100 that end at 100 |
| CanaryRollout.EvaluateCanary | control/canary.go:97-171 | the authorized share is 100 with nothing else serving, 0 with nothing new serving, and otherwise the greatest earned step not above the ready percentage, or the first; whatever the order of the map |
| CanaryRollout.Tally | control/canary.go:108-127 | the single pass counts both sides and finds the shortest readiness of the new one |
| CanaryRollout.ClimbLadder | control/canary.go:153-169 | picks the greatest step that the proportion supports and the hold has earned |
| CanaryRollout.StepFollowsReadiness | control/canary.go:91-171 | with less readiness or a shorter hold the share never grows |
| CanaryRollout.ProportionMonotone | control/canary.go:148-149 | more ready replicas of the new version never lower its percentage, which stays below 100 while others serve |
| CanaryRollout.ShareAcross | control/canary.go:229-251 | on a side with a positive share every weight is at least 1, weights differ by at most 1 and sum to the larger of share and endpoints |
| CanaryRollout.WeightEndpoints | control/canary.go:179-225 | each side with a share gets it fairly, a side without one is left out, and with one side empty the other is weighted equally |
| CanaryRollout.PartitionIsComplete | control/canary.go:201-208 | every endpoint falls on exactly one side |
| CanaryRollout.SplitTotalsHundred | control/canary.go:219-220 | the split totals 100 if and only if no side with a positive share has more endpoints than share |
| CanaryRollout.CrowdedSideOverflows | control/canary.go:241-245 | a ladder that begins at 99 authorizes 99 while both versions serve, and then one new and two old endpoints total 101 |

## Left out

- Signing, key derivation, enrollment, attestation and image signatures: foreign cryptography; "verified" and "provenance" are inputs.
- SQLite, files, fsync and renames: a transaction, a persist or an append happens whole or not at all; only a sink, a transport and a ledger disk that refuse are modelled.
- containerd, networking, gateways, Postgres, HTTP and sockets: plumbing that decides nothing modelled here.
- Text output, diagnosis and model prompts: they change no state.
- Goal syntax, JSON and command lines: a goal is taken as validated and cron fields as split into parts.
- The network, rollout, remediation and storage agents: their plans are covered by the results on arbitrary accepted plans; only the placement agent's own reasoning is modelled.
- Which probes the engine registers: probe answers are arbitrary, so every choice is covered.
- Pacing reports and the order in which disruptions are listed: they choose words, not outcomes.
- Token issue, tool authorization and agent workspaces: would only add map lookups.
- Goroutines and locks: every operation that takes a lock is one step.
- Exactness.PlanExecutesAsSimulated: leaves out simulated snapshots and dry-run prunes, which differ from what is executed, as SnapshotDiffers and DryRunPruneDiffers show, and the fields that simulation does not predict.
- Exactness.AuthorizedPlanIsExact: the same.
- BudgetAccounting.BudgetsAgreeExactly: for budgets and reservations that are not negative, as validation and the projection leave them.
- Governor.BudgetAlongRuns: for windows no longer than the one-hour retention; evidence is dated no earlier than the decision it follows.
- Governor.DomainsAlongRuns: one way only; Cooldown.CooldownAlongRuns and Cooldown.TangledRunsBreak are exact for reports the executor makes. For cooldowns no longer than the one-hour retention, evidence dated as above, and disruptions reported only for actions that asked for them.
- Loop.EngineKeepsBudget: executors that report another disruption than the one asked for, or date it before the decision, are outside it.
- Admission.AdmittedIsValid: schedules, privileges and the checks of a goal against the nodes of the world are not modelled.
- Acceptance.AcceptedExactly: says when each action is valid in turn; limits on whole plans are in the other results on accepted plans.
- Placement.Propose: the kernel checks and the turn order are proved for goals without volumes; a volume pins the node whatever the candidates are. Goals are taken as validated, so secret and volume names are distinct.
- Loop.Engine.Run: the lease taken before a plan is executed is a yes-or-no answer here; Leases models it.
- Channel.SecureConn.Write: not to be called again after a write that failed, since the stream is then cut within a frame.
- Dispatch.LeasesAreRespected: speaks of the claim recorded last since the node started; a restart forgets claims, and a later envelope may shorten one.
- WorkQueue.Queue.Claim: the disk is taken to accept the file; a claim whose persist failed is not modelled.
- WorkQueue.Queue.StalledTasks: the final sort of the result is not modelled; the contents are exact.
- CanaryRollout.WeightEndpoints: the final sort by allocation is not modelled; weights do not depend on it.
- Cron.ParseField: splitting a field at commas and reading its numbers are taken as done.
- Leases.LeaseManager.Acquire: targets are claimed in the order given, not sorted first; the result is the same.
