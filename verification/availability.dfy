/** The availability floor: what an accepted plan may take out of service. */
module Availability {
  import opened Types
  import opened Projection
  import opened Executor
  import opened Kernel
  import opened Exactness
  import opened Plans
  import Sums

  /** Nothing is ready that does not run. */
  ghost predicate ReadyRuns(w: World) {
    forall id :: id in w.allocations && w.allocations[id].ready ==> w.allocations[id].phase == Running
  }

  // ---- Readiness along runs of evidence ----

  lemma AllocationStepKeepsReadyRuns(a: Allocation, e: Evidence, f: AllocationFact)
    requires (a.ready ==> a.phase == Running) && AllocationStep(a, e, f).Ok?
    ensures var after := AllocationStep(a, e, f).value; after.ready ==> after.phase == Running
  {
  }

  lemma AllocationEvidenceKeepsReadyRuns(w: World, e: Evidence, f: AllocationFact, id: Id)
    requires ReadyRuns(w) && ProjectAllocation(w, e, f).Ok? && id in ProjectAllocation(w, e, f).value.allocations
    ensures var after := ProjectAllocation(w, e, f).value.allocations[id]; after.ready ==> after.phase == Running
  {
    if id == e.target && id in w.allocations && !f.AllocationCreated? && !f.AllocationDeleted? {
      AllocationStepKeepsReadyRuns(w.allocations[id], e, f);
    }
  }

  lemma VolumeEvidenceKeepsReadiness(w: World, e: Evidence, f: VolumeFact, id: Id)
    requires ProjectVolume(w, e, f).Ok? && id in ProjectVolume(w, e, f).value.allocations
    ensures id in w.allocations && ProjectVolume(w, e, f).value.allocations[id] ==
            w.allocations[id].(volumes := ProjectVolume(w, e, f).value.allocations[id].volumes)
  {
  }

  lemma ProjectKeepsReadyRuns(w: World, e: Evidence)
    requires ReadyRuns(w) && Project(w, e).Ok?
    ensures ReadyRuns(Project(w, e).value)
  {
    match e.fact
    case OfAllocation(f) =>
      forall id | id in ProjectAllocation(w, e, f).value.allocations { AllocationEvidenceKeepsReadyRuns(w, e, f, id); }
    case OfVolume(f) =>
      forall id | id in ProjectVolume(w, e, f).value.allocations { VolumeEvidenceKeepsReadiness(w, e, f, id); }
    case _ =>
  }

  /** Along every run of evidence, ready implies running. */
  lemma {:induction false} ReadyRunsAlongRuns(w: World, run: seq<Evidence>)
    requires ReadyRuns(w) && Replay(w, run).Ok?
    ensures ReadyRuns(Replay(w, run).value)
  {
    if run != [] {
      ReadyRunsAlongRuns(w, run[..|run| - 1]);
      ProjectKeepsReadyRuns(Replay(w, run[..|run| - 1]).value, run[|run| - 1]);
    }
  }

  // ---- Readiness along simulated and executed plans ----

  /** Whether an allocation is ready, and until when, after an action: only a stop takes it away. */
  predicate KeepsReadiness(before: map<Id, Allocation>, after: map<Id, Allocation>, id: Id, stopped: bool) {
    && id in after
    && (after[id].ready <==> !stopped && id in before && before[id].ready)
    && after[id].readyExpiresAt == (if id in before then before[id].readyExpiresAt else 0)
    && (id in before ==> after[id].workload == before[id].workload)
  }

  predicate StopsIt(a: Action, id: Id) { a.kind.StopAllocation? && a.target == id }

  lemma OnAllocationKeepsReadiness(w: World, a: Action, id: Id)
    requires !a.kind.StartAllocation? && SimulateOn(w, a).Ok? && id in SimulateOn(w, a).value.allocations
    ensures KeepsReadiness(w.allocations, SimulateOn(w, a).value.allocations, id, StopsIt(a, id))
  {
  }

  ghost predicate LeavesServing(w: World, after: World, id: Id) {
    id in after.allocations ==>
      && id in w.allocations && after.allocations[id].phase == w.allocations[id].phase
      && KeepsReadiness(w.allocations, after.allocations, id, false)
  }

  lemma AttachKeepsServing(w: World, a: Action, id: Id, after: World)
    requires SimulateAttach(w, a) == Ok(after)
    ensures LeavesServing(w, after, id)
  {
  }

  lemma DetachKeepsServing(w: World, a: Action, id: Id, after: World)
    requires SimulateDetach(w, a) == Ok(after)
    ensures LeavesServing(w, after, id)
  {
  }

  lemma DeleteKeepsServing(w: World, a: Action, id: Id, after: World)
    requires SimulateDelete(w, a) == Ok(after)
    ensures LeavesServing(w, after, id)
  {
    assert after.allocations == w.allocations - {a.target};
  }

  /** Attaching, detaching and deleting leave the other fields of every surviving allocation alone. */
  lemma MountsKeepReadiness(w: World, a: Action, id: Id, after: World)
    requires SimulateAttach(w, a) == Ok(after) || SimulateDetach(w, a) == Ok(after) || SimulateDelete(w, a) == Ok(after)
    requires id in after.allocations
    ensures id in w.allocations && after.allocations[id].phase == w.allocations[id].phase
    ensures KeepsReadiness(w.allocations, after.allocations, id, false)
  {
    if SimulateAttach(w, a) == Ok(after) { AttachKeepsServing(w, a, id, after); }
    else if SimulateDetach(w, a) == Ok(after) { DetachKeepsServing(w, a, id, after); }
    else { DeleteKeepsServing(w, a, id, after); }
  }

  lemma CreateKeepsReadiness(w: World, a: Action, id: Id, after: World)
    requires SimulateCreate(w, a) == Ok(after) && a.target !in w.allocations && id in after.allocations
    ensures KeepsReadiness(w.allocations, after.allocations, id, false)
  {
  }

  lemma UntouchedKeepsReadiness(w: World, id: Id, after: World)
    requires after.allocations == w.allocations && id in after.allocations
    ensures KeepsReadiness(w.allocations, after.allocations, id, false)
  {
  }

  predicate TouchesAllocations(kind: ActionKind) {
    !ActsOnNode(kind) && !kind.PublishRoute? && (ActsOnVolume(kind) ==> kind.AttachVolume? || kind.DetachVolume?)
  }

  lemma OthersLeaveAllocations(w: World, a: Action)
    requires Simulate(w, a).Ok? && !TouchesAllocations(a.kind)
    ensures Simulate(w, a).value.allocations == w.allocations
  {
    if ActsOnNode(a.kind) {
      assert Simulate(w, a) == SimulateOnNode(w, a);
    } else if ActsOnVolume(a.kind) {
      assert Simulate(w, a) == SimulateOnVolume(w, a);
    }
  }

  lemma SimulateKeepsReadiness(w: World, a: Action, id: Id)
    requires !a.kind.StartAllocation? && Simulate(w, a).Ok? && id in Simulate(w, a).value.allocations
    requires a.kind.CreateAllocation? ==> a.target !in w.allocations
    ensures KeepsReadiness(w.allocations, Simulate(w, a).value.allocations, id, StopsIt(a, id))
  {
    var after := Simulate(w, a).value;
    if !TouchesAllocations(a.kind) {
      OthersLeaveAllocations(w, a);
      UntouchedKeepsReadiness(w, id, after);
    } else if a.kind.AttachVolume? || a.kind.DetachVolume? || a.kind.DeleteAllocation? {
      MountsKeepReadiness(w, a, id, after);
    } else if a.kind.CreateAllocation? {
      CreateKeepsReadiness(w, a, id, after);
    } else {
      OnAllocationKeepsReadiness(w, a, id);
    }
  }

  predicate StopEvidence(e: Evidence, id: Id) { e.target == id && e.fact == OfAllocation(AllocationStopped) }

  /** Evidence an executor reports about a plan without drains. */
  predicate Plain(f: AllocationFact) {
    !f.AllocationReady? && !f.AgentReady? && !f.AllocationFailed? && !f.AgentSpent? && !f.AllocationDrained?
  }

  lemma CreatedKeepsReadiness(w: World, e: Evidence, f: AllocationFact, id: Id, after: World)
    requires f.AllocationCreated? && id in after.allocations
    requires ProjectCreated(w, e, f.node, f.workload, f.image, f.replica, f.resources, f.budget) == Ok(after)
    ensures KeepsReadiness(w.allocations, after.allocations, id, false)
  {
  }

  lemma DeletedKeepsReadiness(w: World, e: Evidence, id: Id)
    requires id in ProjectDeleted(w, e).allocations
    ensures KeepsReadiness(w.allocations, ProjectDeleted(w, e).allocations, id, false)
  {
    var after := ProjectDeleted(w, e).allocations;
    assert after == w.allocations || after == w.allocations - {e.target};
  }

  lemma KnownKeepsReadiness(e: Evidence, f: AllocationFact, before: map<Id, Allocation>, id: Id)
    requires Plain(f) && e.target in before && AllocationStep(before[e.target], e, f).Ok? && id in before
    ensures KeepsReadiness(before, before[e.target := AllocationStep(before[e.target], e, f).value], id,
                           e.target == id && f.AllocationStopped?)
  {
    PlainStepKeepsReadiness(before[e.target], e, f);
  }

  lemma AllocationEvidenceKeepsReadiness(w: World, e: Evidence, f: AllocationFact, id: Id)
    requires e.fact == OfAllocation(f) && Plain(f) && ProjectAllocation(w, e, f).Ok?
    requires id in ProjectAllocation(w, e, f).value.allocations
    ensures KeepsReadiness(w.allocations, ProjectAllocation(w, e, f).value.allocations, id,
                           StopEvidence(e, id) && id in w.allocations)
  {
    if f.AllocationCreated? { CreatedKeepsReadiness(w, e, f, id, ProjectAllocation(w, e, f).value); }
    else if f.AllocationDeleted? { DeletedKeepsReadiness(w, e, id); }
    else if e.target in w.allocations { KnownKeepsReadiness(e, f, w.allocations, id); }
    else { UntouchedKeepsReadiness(w, id, w); }
  }

  lemma PlainStepKeepsReadiness(x: Allocation, e: Evidence, f: AllocationFact)
    requires Plain(f) && AllocationStep(x, e, f).Ok?
    ensures var after := AllocationStep(x, e, f).value;
            after.ready == (x.ready && !f.AllocationStopped?) && after.readyExpiresAt == x.readyExpiresAt &&
            after.workload == x.workload
  {
  }

  lemma ExecuteIsPlain(w: World, a: Action)
    requires Execute(w, a).Ok? && !a.kind.DrainAllocation?
    ensures var e := Execute(w, a).value;
            && (e.fact.OfAllocation? ==> Plain(e.fact.a))
            && (forall id :: StopEvidence(e, id) <==> StopsIt(a, id))
  {
  }

  lemma ProjectKeepsReadiness(w: World, e: Evidence, id: Id)
    requires Project(w, e).Ok? && id in Project(w, e).value.allocations && (e.fact.OfAllocation? ==> Plain(e.fact.a))
    ensures KeepsReadiness(w.allocations, Project(w, e).value.allocations, id, StopEvidence(e, id) && id in w.allocations)
  {
    match e.fact
    case OfAllocation(f) => AllocationEvidenceKeepsReadiness(w, e, f, id);
    case OfVolume(f) => VolumeEvidenceKeepsReadiness(w, e, f, id);
    case _ =>
  }

  lemma PerformKeepsReadiness(w: World, a: Action, at: Time, id: Id)
    requires !a.kind.DrainAllocation? && Perform(w, a, at).Ok? && id in Perform(w, a, at).value.allocations
    ensures KeepsReadiness(w.allocations, Perform(w, a, at).value.allocations, id, StopsIt(a, id) && id in w.allocations)
  {
    ExecuteIsPlain(w, a);
    ProjectKeepsReadiness(w, Stamp(Execute(w, a).value, at), id);
  }

  // ---- Phases ----

  function PhaseOf(m: map<Id, Allocation>, id: Id): Option<Phase> { if id in m then Some(m[id].phase) else None }

  /** The phase an action leaves an allocation in, executed or simulated. */
  function PhaseAfter(before: map<Id, Allocation>, a: Action, id: Id): Option<Phase> {
    if a.target != id then PhaseOf(before, id)
    else if a.kind.CreateAllocation? then Some(Created)
    else if a.kind.DeleteAllocation? then None
    else if a.kind.StartAllocation? then Some(Running)
    else if a.kind.StopAllocation? then Some(Stopped)
    else PhaseOf(before, id)
  }

  lemma MountedPhase(w: World, a: Action, id: Id, after: World)
    requires SimulateAttach(w, a) == Ok(after) || SimulateDetach(w, a) == Ok(after)
    ensures PhaseOf(after.allocations, id) == PhaseOf(w.allocations, id)
  {
  }

  lemma OnAllocationPhase(w: World, a: Action, id: Id, after: World)
    requires SimulateOn(w, a) == Ok(after)
    ensures PhaseOf(after.allocations, id) == PhaseAfter(w.allocations, a, id)
  {
    if id == a.target { assert after.allocations[id] == SimulateAllocation(w.allocations[id], a).value; }
  }

  lemma CreatedOrDeletedPhase(w: World, a: Action, id: Id, after: World)
    requires (a.kind.CreateAllocation? && SimulateCreate(w, a) == Ok(after)) ||
             (a.kind.DeleteAllocation? && SimulateDelete(w, a) == Ok(after))
    ensures PhaseOf(after.allocations, id) == PhaseAfter(w.allocations, a, id)
  {
    if a.kind.DeleteAllocation? { assert after.allocations == w.allocations - {a.target}; }
  }

  lemma SimulatedPhase(w: World, a: Action, id: Id, after: World)
    requires Simulate(w, a) == Ok(after)
    ensures PhaseOf(after.allocations, id) == PhaseAfter(w.allocations, a, id)
  {
    if !TouchesAllocations(a.kind) { OthersLeaveAllocations(w, a); }
    else if a.kind.AttachVolume? || a.kind.DetachVolume? { MountedPhase(w, a, id, after); }
    else if a.kind.CreateAllocation? || a.kind.DeleteAllocation? { CreatedOrDeletedPhase(w, a, id, after); }
    else { OnAllocationPhase(w, a, id, after); }
  }

  // ---- The floor in the simulated world ----

  lemma MountsKeepReadyRuns(w: World, a: Action, after: World)
    requires SimulateAttach(w, a) == Ok(after) || SimulateDetach(w, a) == Ok(after) || SimulateDelete(w, a) == Ok(after)
    requires ReadyRuns(w)
    ensures ReadyRuns(after)
  {
    forall id | id in after.allocations { MountsKeepReadiness(w, a, id, after); }
  }

  lemma CreateKeepsReadyRuns(w: World, a: Action, after: World)
    requires ReadyRuns(w) && SimulateCreate(w, a) == Ok(after)
    ensures ReadyRuns(after)
  {
  }

  lemma SimulateKeepsReadyRuns(w: World, a: Action)
    requires ReadyRuns(w) && Simulate(w, a).Ok?
    ensures ReadyRuns(Simulate(w, a).value)
  {
    var after := Simulate(w, a).value;
    if !TouchesAllocations(a.kind) { OthersLeaveAllocations(w, a); }
    else if a.kind.AttachVolume? || a.kind.DetachVolume? || a.kind.DeleteAllocation? { MountsKeepReadyRuns(w, a, after); }
    else if a.kind.CreateAllocation? { CreateKeepsReadyRuns(w, a, after); }
    else { OnAllocationKeepsReadyRuns(w, a); }
  }

  lemma OnAllocationKeepsReadyRuns(w: World, a: Action)
    requires ReadyRuns(w) && SimulateOn(w, a).Ok?
    ensures ReadyRuns(SimulateOn(w, a).value)
  {
    var x := w.allocations[a.target];
    assert x.ready ==> x.phase == Running;
    assert var y := SimulateAllocation(x, a).value; y.ready ==> y.phase == Running;
  }

  lemma StartKeepsServing(goal: Goal, w: World, a: Action, now: Time, id: Id)
    requires a.kind.StartAllocation? && Simulate(w, a).Ok? && id in Serving(goal, w, now)
    ensures id in Serving(goal, Simulate(w, a).value, now)
  {
    assert Simulate(w, a) == SimulateOn(w, a);
  }

  /** An allocation that serves goes on serving through any valid action but its own stop. */
  lemma ActionKeepsServing(goal: Goal, w: World, a: Action, now: Time, id: Id)
    requires ReadyRuns(w) && Simulate(w, a).Ok? && id in Serving(goal, w, now) && !StopsIt(a, id)
    requires a.kind.CreateAllocation? ==> a.target !in w.allocations
    requires a.kind.DeleteAllocation? && a.target in w.allocations ==> w.allocations[a.target].phase != Running
    ensures id in Serving(goal, Simulate(w, a).value, now)
  {
    if a.kind.StartAllocation? {
      StartKeepsServing(goal, w, a, now, id);
    } else {
      SimulatedPhase(w, a, id, Simulate(w, a).value);
      SimulateKeepsReadiness(w, a, id);
    }
  }

  /** The part of validation the floor rests on. */
  ghost predicate RespectsFloor(goal: Goal, w: World, a: Action, now: Time) {
    && (a.kind.CreateAllocation? ==> a.target !in w.allocations)
    && (a.kind.DeleteAllocation? ==> a.target in w.allocations && w.allocations[a.target].phase != Running)
    && (a.kind.StopAllocation? && a.target in Serving(goal, w, now) ==>
          |Serving(goal, w, now)| - 1 >= DisruptionFloor(goal))
  }

  lemma ValidRespectsFloor(goal: Goal, w: World, a: Action, now: Time)
    requires Validate(goal, w, a, now)
    ensures RespectsFloor(goal, w, a, now)
  {
  }

  lemma StepKeepsFloor(goal: Goal, w: World, a: Action, now: Time)
    requires ReadyRuns(w) && RespectsFloor(goal, w, a, now) && Simulate(w, a).Ok?
    ensures |Serving(goal, Simulate(w, a).value, now)| >= Min(|Serving(goal, w, now)|, DisruptionFloor(goal))
  {
    var before, after := Serving(goal, w, now), Serving(goal, Simulate(w, a).value, now);
    var kept := if a.kind.StopAllocation? then before - {a.target} else before;
    forall id | id in kept ensures id in after { ActionKeepsServing(goal, w, a, now, id); }
    Sums.Subset(kept, after);
    if a.kind.StopAllocation? && a.target !in before { assert kept == before; }
  }

  /** Any accepted plan, whatever it mixes, leaves at least min(serving before, replicas - 1) replicas of the
      goal's workload serving in the world it was simulated to. */
  lemma {:induction false} PlanKeepsFloor(goal: Goal, grants: set<ActionKind>, w: World, plan: seq<Action>, now: Time)
    requires ReadyRuns(w) && RunPlan(goal, grants, w, plan, now).Ok?
    ensures ReadyRuns(RunPlan(goal, grants, w, plan, now).value)
    ensures |Serving(goal, RunPlan(goal, grants, w, plan, now).value, now)| >=
            Min(|Serving(goal, w, now)|, DisruptionFloor(goal))
    decreases |plan|
  {
    if plan != [] {
      var k := |plan| - 1;
      PlanKeepsFloor(goal, grants, w, plan[..k], now);
      ValidInTurn(goal, grants, w, plan, now, k);
      LastStepKeepsFloor(goal, RunPlan(goal, grants, w, plan[..k], now).value, plan[k], now);
    }
  }

  lemma LastStepKeepsFloor(goal: Goal, sim: World, a: Action, now: Time)
    requires ReadyRuns(sim) && Validate(goal, sim, a, now) && Simulate(sim, a).Ok?
    ensures ReadyRuns(Simulate(sim, a).value)
    ensures |Serving(goal, Simulate(sim, a).value, now)| >= Min(|Serving(goal, sim, now)|, DisruptionFloor(goal))
  {
    ValidRespectsFloor(goal, sim, a, now);
    StepKeepsFloor(goal, sim, a, now);
    SimulateKeepsReadyRuns(sim, a);
  }

  // ---- Phases of the executed world ----

  /** The phase that evidence leaves an allocation in. */
  function PhaseGiven(before: map<Id, Allocation>, e: Evidence, id: Id): Option<Phase> {
    if !e.fact.OfAllocation? || e.target != id then PhaseOf(before, id)
    else
      match e.fact.a
      case AllocationCreated(_, _, _, _, _, _) => if id in before then PhaseOf(before, id) else Some(Created)
      case AllocationDeleted => None
      case AllocationRunning => Some(Running)
      case AllocationStopped => Some(Stopped)
      case AllocationFailed(_, _) => Some(Stopped)
      case _ => PhaseOf(before, id)
  }

  lemma DeletedPhase(w: World, e: Evidence, id: Id)
    requires e.fact == OfAllocation(AllocationDeleted)
    ensures PhaseOf(ProjectDeleted(w, e).allocations, id) == PhaseGiven(w.allocations, e, id)
  {
    var after := ProjectDeleted(w, e).allocations;
    assert after == w.allocations || after == w.allocations - {e.target};
  }

  lemma AllocationEvidencePhase(w: World, e: Evidence, f: AllocationFact, id: Id, after: World)
    requires e.fact == OfAllocation(f) && ProjectAllocation(w, e, f) == Ok(after)
    ensures PhaseOf(after.allocations, id) == PhaseGiven(w.allocations, e, id)
  {
    if f.AllocationDeleted? { DeletedPhase(w, e, id); }
  }

  lemma VolumeEvidencePhase(w: World, e: Evidence, f: VolumeFact, id: Id, after: World)
    requires ProjectVolume(w, e, f) == Ok(after)
    ensures PhaseOf(after.allocations, id) == PhaseOf(w.allocations, id)
  {
    assert after.allocations.Keys == w.allocations.Keys;
  }

  lemma ProjectedPhase(w: World, e: Evidence, id: Id, after: World)
    requires Project(w, e) == Ok(after)
    ensures PhaseOf(after.allocations, id) == PhaseGiven(w.allocations, e, id)
  {
    match e.fact
    case OfAllocation(f) => AllocationEvidencePhase(w, e, f, id, ProjectAllocation(w, e, f).value);
    case OfVolume(f) => VolumeEvidencePhase(w, e, f, id, ProjectVolume(w, e, f).value);
    case _ =>
  }

  /** Evidence reported for an action gives the phase that the action was asked for. */
  lemma ExecutedPhase(w: World, a: Action, id: Id, e: Evidence)
    requires Execute(w, a) == Ok(e) && (a.kind.CreateAllocation? ==> a.target !in w.allocations)
    ensures PhaseGiven(w.allocations, e, id) == PhaseAfter(w.allocations, a, id)
  {
  }

  lemma PerformedPhase(w: World, a: Action, at: Time, id: Id, after: World)
    requires Perform(w, a, at) == Ok(after) && (a.kind.CreateAllocation? ==> a.target !in w.allocations)
    ensures PhaseOf(after.allocations, id) == PhaseAfter(w.allocations, a, id)
  {
    var e := Execute(w, a).value;
    ExecutedPhase(w, a, id, e);
    ProjectedPhase(w, Stamp(e, at), id, after);
  }

  ghost predicate SamePhases(w: World, sim: World) {
    forall id :: PhaseOf(w.allocations, id) == PhaseOf(sim.allocations, id)
  }

  lemma StepKeepsPhases(w: World, sim: World, a: Action, at: Time, w': World, sim': World)
    requires SamePhases(w, sim) && Perform(w, a, at) == Ok(w') && Simulate(sim, a) == Ok(sim')
    requires a.kind.CreateAllocation? ==> a.target !in sim.allocations
    ensures SamePhases(w', sim')
  {
    assert PhaseOf(w.allocations, a.target) == PhaseOf(sim.allocations, a.target);
    forall id ensures PhaseOf(w'.allocations, id) == PhaseOf(sim'.allocations, id) {
      PerformedPhase(w, a, at, id, w');
      SimulatedPhase(sim, a, id, sim');
      assert PhaseOf(w.allocations, id) == PhaseOf(sim.allocations, id);
    }
  }

  // ---- What serves in the executed world ----

  predicate TakesOut(kind: ActionKind) { kind.StopAllocation? || kind.DrainAllocation? }

  function Withdrawn(plan: seq<Action>): set<Id> { set i | 0 <= i < |plan| && TakesOut(plan[i].kind) :: plan[i].target }

  function WithdrawnBy(a: Action): set<Id> { if TakesOut(a.kind) then {a.target} else {} }

  lemma WithdrawnSnoc(plan: seq<Action>)
    requires plan != []
    ensures Withdrawn(plan) == Withdrawn(plan[..|plan| - 1]) + WithdrawnBy(plan[|plan| - 1])
  {
    var k := |plan| - 1;
    forall id | id in Withdrawn(plan) ensures id in Withdrawn(plan[..k]) + WithdrawnBy(plan[k]) {
      var i :| 0 <= i < |plan| && TakesOut(plan[i].kind) && plan[i].target == id;
      if i < k { assert plan[..k][i] == plan[i]; }
    }
    forall id | id in Withdrawn(plan[..k]) ensures id in Withdrawn(plan) {
      var i :| 0 <= i < k && TakesOut(plan[..k][i].kind) && plan[..k][i].target == id;
      assert plan[i] == plan[..k][i];
    }
  }

  lemma ServingAfter(goal: Goal, w: World, a: Action, at: Time, now: Time, id: Id, after: World)
    requires ReadyRuns(w) && Perform(w, a, at) == Ok(after) && !a.kind.DrainAllocation?
    requires a.kind.CreateAllocation? ==> a.target !in w.allocations
    requires a.kind.DeleteAllocation? ==> PhaseOf(w.allocations, a.target) != Some(Running)
    ensures id in Serving(goal, after, now) <==> id in Serving(goal, w, now) && !StopsIt(a, id)
  {
    PerformedPhase(w, a, at, id, after);
    if id in after.allocations { PerformKeepsReadiness(w, a, at, id); }
  }

  /** A stop and a drain take exactly their target out of service; nothing else does, and nothing comes in. */
  lemma StepService(goal: Goal, w: World, a: Action, at: Time, now: Time, after: World)
    requires ReadyRuns(w) && Perform(w, a, at) == Ok(after)
    requires a.kind.CreateAllocation? ==> a.target !in w.allocations
    requires a.kind.DeleteAllocation? ==> PhaseOf(w.allocations, a.target) != Some(Running)
    ensures Serving(goal, after, now) == Serving(goal, w, now) - WithdrawnBy(a)
  {
    if a.kind.DrainAllocation? {
      ExecutedDrainTargets(w, a);
      DrainTakesOutOfService(goal, w, a, now, at);
    } else {
      forall id ensures id in Serving(goal, after, now) <==> id in Serving(goal, w, now) - WithdrawnBy(a) {
        ServingAfter(goal, w, a, at, now, id, after);
      }
    }
  }

  lemma ExecutedDrainTargets(w: World, a: Action)
    requires a.kind.DrainAllocation? && Execute(w, a).Ok?
    ensures a.target in w.allocations
  {
  }

  lemma PerformKeepsReadyRuns(w: World, a: Action, at: Time)
    requires ReadyRuns(w) && Perform(w, a, at).Ok?
    ensures ReadyRuns(Perform(w, a, at).value)
  {
    ProjectKeepsReadyRuns(w, Stamp(Execute(w, a).value, at));
  }

  /** An executed world on the way through an accepted plan. */
  ghost predicate InStep(goal: Goal, w: World, executed: World, sim: World, out: set<Id>, now: Time) {
    ReadyRuns(executed) && SamePhases(executed, sim) && Serving(goal, executed, now) == Serving(goal, w, now) - out
  }

  lemma StaysInStep(goal: Goal, w: World, x: World, sim: World, out: set<Id>, a: Action, at: Time, now: Time,
                    x': World, sim': World)
    requires InStep(goal, w, x, sim, out, now) && RespectsFloor(goal, sim, a, now)
    requires Perform(x, a, at) == Ok(x') && Simulate(sim, a) == Ok(sim')
    ensures InStep(goal, w, x', sim', out + WithdrawnBy(a), now)
  {
    assert PhaseOf(x.allocations, a.target) == PhaseOf(sim.allocations, a.target);
    StepKeepsPhases(x, sim, a, at, x', sim');
    PerformKeepsReadyRuns(x, a, at);
    StepService(goal, x, a, at, now, x');
    assert Serving(goal, w, now) - out - WithdrawnBy(a) == Serving(goal, w, now) - (out + WithdrawnBy(a));
  }

  lemma {:induction false} ExecutionStaysInStep(goal: Goal, grants: set<ActionKind>, w: World, plan: seq<Action>, now: Time,
                                                times: seq<Time>)
    requires ReadyRuns(w) && |times| == |plan| && RunPlan(goal, grants, w, plan, now).Ok? && PerformAll(w, plan, times).Ok?
    ensures InStep(goal, w, PerformAll(w, plan, times).value, RunPlan(goal, grants, w, plan, now).value, Withdrawn(plan), now)
    decreases |plan|
  {
    if plan == [] {
      assert Serving(goal, w, now) - {} == Serving(goal, w, now);
    } else {
      var k := |plan| - 1;
      ExecutionStaysInStep(goal, grants, w, plan[..k], now, times[..k]);
      var x, sim := PerformAll(w, plan[..k], times[..k]).value, RunPlan(goal, grants, w, plan[..k], now).value;
      ValidRespectsFloor(goal, sim, plan[k], now);
      StaysInStep(goal, w, x, sim, Withdrawn(plan[..k]), plan[k], times[k], now,
                  PerformAll(w, plan, times).value, RunPlan(goal, grants, w, plan, now).value);
      WithdrawnSnoc(plan);
    }
  }

  /** Carrying out any accepted plan takes out of service exactly what it stops or drains, and brings nothing
      into service: what a plan starts is not serving until a probe says so. */
  lemma ExecutedService(goal: Goal, grants: set<ActionKind>, w: World, plan: seq<Action>, now: Time, times: seq<Time>)
    requires ReadyRuns(w) && |times| == |plan| && RunPlan(goal, grants, w, plan, now).Ok? && PerformAll(w, plan, times).Ok?
    ensures Serving(goal, PerformAll(w, plan, times).value, now) == Serving(goal, w, now) - Withdrawn(plan)
  {
    ExecutionStaysInStep(goal, grants, w, plan, now, times);
  }

  // ---- The floor in the executed world ----

  ghost predicate FloorKept(goal: Goal, before: World, after: World, now: Time) {
    |Serving(goal, after, now)| >= Min(|Serving(goal, before, now)|, DisruptionFloor(goal))
  }

  /** How many serving replicas may go. */
  function Spare(goal: Goal, w: World, now: Time): int { Max(0, |Serving(goal, w, now)| - DisruptionFloor(goal)) }

  /** Carrying out an accepted plan keeps the floor if and only if it stops or drains no more serving replicas
      than can be spared. */
  lemma ExecutionKeepsFloor(goal: Goal, grants: set<ActionKind>, w: World, plan: seq<Action>, now: Time, times: seq<Time>)
    requires ReadyRuns(w) && |times| == |plan| && RunPlan(goal, grants, w, plan, now).Ok? && PerformAll(w, plan, times).Ok?
    ensures FloorKept(goal, w, PerformAll(w, plan, times).value, now) <==>
            |Serving(goal, w, now) * Withdrawn(plan)| <= Spare(goal, w, now)
  {
    ExecutedService(goal, grants, w, plan, now, times);
    Removed(Serving(goal, w, now), Withdrawn(plan));
  }

  lemma Removed(all: set<Id>, out: set<Id>)
    ensures |all - out| == |all| - |all * out|
  {
    assert all == (all - out) + all * out;
  }

  // ---- Plans without starts and drains ----

  ghost predicate StartsOrDrainsNothing(plan: seq<Action>) {
    forall i :: 0 <= i < |plan| ==> !plan[i].kind.StartAllocation? && !plan[i].kind.DrainAllocation?
  }

  lemma SimulatedServing(goal: Goal, w: World, a: Action, now: Time, id: Id, after: World)
    requires ReadyRuns(w) && RespectsFloor(goal, w, a, now) && Simulate(w, a) == Ok(after) && !a.kind.StartAllocation?
    ensures id in Serving(goal, after, now) <==> id in Serving(goal, w, now) && !StopsIt(a, id)
  {
    SimulatedPhase(w, a, id, after);
    if id in after.allocations { SimulateKeepsReadiness(w, a, id); }
  }

  lemma SimulatedStepService(goal: Goal, w: World, a: Action, now: Time, after: World)
    requires ReadyRuns(w) && Validate(goal, w, a, now) && Simulate(w, a) == Ok(after)
    requires !a.kind.StartAllocation? && !a.kind.DrainAllocation?
    ensures Serving(goal, after, now) == Serving(goal, w, now) - WithdrawnBy(a) && ReadyRuns(after)
  {
    ValidRespectsFloor(goal, w, a, now);
    SimulateKeepsReadyRuns(w, a);
    forall id ensures id in Serving(goal, after, now) <==> id in Serving(goal, w, now) - WithdrawnBy(a) {
      SimulatedServing(goal, w, a, now, id, after);
    }
  }

  lemma {:induction false} SimulatedService(goal: Goal, grants: set<ActionKind>, w: World, plan: seq<Action>, now: Time)
    requires ReadyRuns(w) && RunPlan(goal, grants, w, plan, now).Ok? && StartsOrDrainsNothing(plan)
    ensures ReadyRuns(RunPlan(goal, grants, w, plan, now).value)
    ensures Serving(goal, RunPlan(goal, grants, w, plan, now).value, now) == Serving(goal, w, now) - Withdrawn(plan)
    decreases |plan|
  {
    if plan == [] {
      assert Serving(goal, w, now) - {} == Serving(goal, w, now);
    } else {
      var k := |plan| - 1;
      SimulatedService(goal, grants, w, plan[..k], now);
      SimulatedStepService(goal, RunPlan(goal, grants, w, plan[..k], now).value, plan[k], now,
                           RunPlan(goal, grants, w, plan, now).value);
      WithdrawnSnoc(plan);
    }
  }

  /** Without starts and drains the kernel's own check of the floor is enough. */
  lemma PlainPlanKeepsFloor(goal: Goal, grants: set<ActionKind>, w: World, plan: seq<Action>, now: Time, times: seq<Time>)
    requires ReadyRuns(w) && |times| == |plan| && RunPlan(goal, grants, w, plan, now).Ok? && PerformAll(w, plan, times).Ok?
    requires StartsOrDrainsNothing(plan)
    ensures FloorKept(goal, w, PerformAll(w, plan, times).value, now)
  {
    ExecutedService(goal, grants, w, plan, now, times);
    SimulatedService(goal, grants, w, plan, now);
    PlanKeepsFloor(goal, grants, w, plan, now);
  }

  lemma DrainSimulatedInService(goal: Goal, w: World, a: Action, now: Time)
    requires a.kind.DrainAllocation? && a.target in w.allocations
    ensures Simulate(w, a).Ok? && Serving(goal, Simulate(w, a).value, now) == Serving(goal, w, now)
  {
    assert Simulate(w, a) == SimulateOn(w, a);
  }

  lemma DrainedProjection(goal: Goal, w: World, e: Evidence, now: Time)
    requires e.fact == OfAllocation(AllocationDrained) && e.target in w.allocations
    ensures Project(w, e).Ok? && Serving(goal, Project(w, e).value, now) == Serving(goal, w, now) - {e.target}
  {
    var x := AllocationStep(w.allocations[e.target], e, AllocationDrained).value;
    assert Project(w, e).value.allocations == w.allocations[e.target := x];
  }

  lemma ExecuteDrain(w: World, a: Action)
    requires a.kind.DrainAllocation? && a.target in w.allocations
    ensures Execute(w, a) == Ok(Evidence(a.target, 0, 0, OfAllocation(AllocationDrained)))
  {
  }

  /** A drain is where the two worlds part: it is simulated as leaving its target in service, and
      executed as taking it out, without the floor being asked. */
  lemma DrainTakesOutOfService(goal: Goal, w: World, a: Action, now: Time, at: Time)
    requires a.kind.DrainAllocation? && a.target in w.allocations
    ensures Perform(w, a, at).Ok? && Serving(goal, Perform(w, a, at).value, now) == Serving(goal, w, now) - {a.target}
  {
    ExecuteDrain(w, a);
    DrainedProjection(goal, w, Stamp(Execute(w, a).value, at), now);
  }
}
