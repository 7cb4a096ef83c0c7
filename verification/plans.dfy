/** What acceptance of a plan guarantees over the whole plan: no transfer of a volume quiesced on the
    way, no overcommitted node, no start without being the only writer. */
module Plans {
  import opened Types
  import opened Projection
  import opened Executor
  import opened Kernel
  import opened Fencing
  import opened Exactness
  import Accounting

  /** Every action of an accepted plan was valid in the world simulated before it. */
  lemma {:induction false} ValidInTurn(goal: Goal, grants: set<ActionKind>, w: World, plan: seq<Action>, now: Time, k: nat)
    requires RunPlan(goal, grants, w, plan, now).Ok? && k < |plan|
    ensures RunPlan(goal, grants, w, plan[..k], now).Ok?
    ensures Validate(goal, RunPlan(goal, grants, w, plan[..k], now).value, plan[k], now)
    decreases |plan|
  {
    if k < |plan| - 1 {
      var front := plan[..|plan| - 1];
      ValidInTurn(goal, grants, w, front, now, k);
      assert front[..k] == plan[..k];
    }
  }

  lemma {:induction false} FeasibleInTurn(w: World, plan: seq<Action>, k: nat)
    requires FeasiblePlan(w, plan) && k < |plan|
    ensures FeasiblePlan(w, plan[..k]) && SimulateAll(w, plan[..k]).Ok?
    ensures Feasible(SimulateAll(w, plan[..k]).value, plan[k])
    decreases |plan|
  {
    if k < |plan| - 1 {
      var front := plan[..|plan| - 1];
      FeasibleInTurn(w, front, k);
      assert front[..k] == plan[..k];
    }
  }

  // ---- Moving a volume takes more than one plan ----

  ghost predicate Quieted(w: World, name: Id) {
    name in w.volumes && w.volumes[name].handoff.Some? && w.volumes[name].handoff.value.phase == Quiescent
  }

  predicate ActsOn(a: Action, kind: ActionKind, name: Id) {
    a.kind == kind && a.volume.Some? && a.volume.value.name == name
  }

  lemma VolumeKeepsQuiet(v: Volume, a: Action)
    requires v.handoff.Some? && v.handoff.value.phase == Quiescent && !a.kind.TransferVolume? && !a.kind.AdoptVolume?
    ensures var after := SimulateVolume(v, a).handoff; after.Some? && after.value.phase == Quiescent
  {
  }

  lemma VolumeActionKeepsQuiet(w: World, a: Action, name: Id)
    requires Quieted(w, name) && a.volume.Some? && VolumeFeasible(w, a, a.volume.value.name) && SimulateOnVolume(w, a).Ok?
    requires ActsOnVolume(a.kind)
    ensures Quieted(SimulateOnVolume(w, a).value, name)
  {
    if a.volume.value.name == name && !a.kind.CreateVolume? { VolumeKeepsQuiet(w.volumes[name], a); }
  }

  lemma QuietedStays(w: World, a: Action, name: Id)
    requires Quieted(w, name) && Feasible(w, a) && Simulate(w, a).Ok?
    ensures Quieted(Simulate(w, a).value, name)
  {
    if a.kind.AttachVolume? {
    } else if a.kind.DetachVolume? {
    } else if ActsOnVolume(a.kind) {
      VolumeActionKeepsQuiet(w, a, name);
    } else if ActsOnNode(a.kind) {
    } else if a.kind.CreateAllocation? {
    } else if a.kind.DeleteAllocation? {
    } else if a.kind.PublishRoute? {
    } else {
      assert Simulate(w, a) == SimulateOn(w, a);
    }
  }

  lemma QuiesceQuiets(w: World, a: Action, name: Id)
    requires ActsOn(a, QuiesceVolume, name) && Feasible(w, a)
    ensures Simulate(w, a).Ok? && Quieted(Simulate(w, a).value, name)
  {
  }

  lemma {:induction false} QuietedAfterQuiesce(w: World, plan: seq<Action>, i: nat, name: Id)
    requires FeasiblePlan(w, plan) && i < |plan| && ActsOn(plan[i], QuiesceVolume, name) && SimulateAll(w, plan).Ok?
    ensures Quieted(SimulateAll(w, plan).value, name)
    decreases |plan|
  {
    var k := |plan| - 1;
    var sim := SimulateAll(w, plan[..k]).value;
    if i == k {
      QuiesceQuiets(sim, plan[k], name);
    } else {
      QuietedAfterQuiesce(w, plan[..k], i, name);
      QuietedStays(sim, plan[k], name);
    }
  }

  /** No accepted plan transfers a volume it has quiesced: the snapshot in between must be observed, not
      simulated. */
  lemma NoTransferAfterQuiesce(goal: Goal, grants: set<ActionKind>, w: World, plan: seq<Action>, now: Time,
                               i: nat, j: nat, name: Id)
    requires GoalValid(goal) && RunPlan(goal, grants, w, plan, now).Ok?
    requires i < j < |plan| && ActsOn(plan[i], QuiesceVolume, name)
    ensures !ActsOn(plan[j], TransferVolume, name) && !ActsOn(plan[j], AdoptVolume, name)
  {
    AcceptedIsFeasible(goal, grants, w, plan, now);
    FeasibleInTurn(w, plan, j);
    assert plan[..j][i] == plan[i];
    QuietedAfterQuiesce(w, plan[..j], i, name);
    QuietedCannotMove(SimulateAll(w, plan[..j]).value, plan[j], name);
  }

  lemma QuietedCannotMove(w: World, a: Action, name: Id)
    requires Quieted(w, name) && Feasible(w, a)
    ensures !ActsOn(a, TransferVolume, name) && !ActsOn(a, AdoptVolume, name)
  {
  }

  // ---- Capacity ----

  /** Every node stays within what it has, and counts nothing backwards. */
  ghost predicate Capped(w: World) {
    && (forall n :: n in w.nodes ==> w.nodes[n].used.Fits(w.nodes[n].capacity) && Accounting.Natural(w.nodes[n].capacity))
    && (forall a :: a in w.allocations ==> Accounting.Natural(w.allocations[a].resources))
  }

  /** The action does not create more than its node can take. */
  ghost predicate LeavesRoom(w: World, a: Action) {
    a.kind.CreateAllocation? && a.node in w.nodes ==>
      Accounting.Natural(a.resources) && w.nodes[a.node].used.Add(a.resources).Fits(w.nodes[a.node].capacity)
  }

  lemma ValidLeavesRoom(goal: Goal, w: World, a: Action, now: Time)
    requires GoalValid(goal) && Validate(goal, w, a, now)
    ensures LeavesRoom(w, a)
  {
  }

  lemma CreateStaysCapped(w: World, a: Action)
    requires Capped(w) && a.kind.CreateAllocation? && LeavesRoom(w, a) && SimulateCreate(w, a).Ok?
    ensures Capped(SimulateCreate(w, a).value)
  {
  }

  lemma DeleteStaysCapped(w: World, a: Action)
    requires Capped(w) && SimulateDelete(w, a).Ok?
    ensures Capped(SimulateDelete(w, a).value)
  {
  }

  lemma AttachStaysCapped(w: World, a: Action)
    requires Capped(w)
    ensures SimulateAttach(w, a).Ok? ==> Capped(SimulateAttach(w, a).value)
    ensures SimulateDetach(w, a).Ok? ==> Capped(SimulateDetach(w, a).value)
  {
  }

  lemma OnAllocationStaysCapped(w: World, a: Action)
    requires Capped(w) && SimulateOn(w, a).Ok?
    ensures Capped(SimulateOn(w, a).value)
  {
    SizeIsKept(w.allocations[a.target], a);
  }

  lemma SizeIsKept(x: Allocation, a: Action)
    requires SimulateAllocation(x, a).Ok?
    ensures SimulateAllocation(x, a).value.resources == x.resources
  {
  }

  lemma OnNodeStaysCapped(w: World, a: Action)
    requires Capped(w) && SimulateOnNode(w, a).Ok?
    ensures Capped(SimulateOnNode(w, a).value)
  {
  }

  lemma SimulateStaysCapped(w: World, a: Action)
    requires Capped(w) && LeavesRoom(w, a) && Simulate(w, a).Ok?
    ensures Capped(Simulate(w, a).value)
  {
    if a.kind.AttachVolume? || a.kind.DetachVolume? {
      AttachStaysCapped(w, a);
    } else if ActsOnVolume(a.kind) {
    } else if ActsOnNode(a.kind) {
      OnNodeStaysCapped(w, a);
    } else if a.kind.CreateAllocation? {
      CreateStaysCapped(w, a);
    } else if a.kind.DeleteAllocation? {
      DeleteStaysCapped(w, a);
    } else if a.kind.PublishRoute? {
    } else {
      OnAllocationStaysCapped(w, a);
    }
  }

  /** An accepted plan that starts within capacity keeps every node within capacity at every step. */
  lemma {:induction false} PlanStaysCapped(goal: Goal, grants: set<ActionKind>, w: World, plan: seq<Action>, now: Time, k: nat)
    requires GoalValid(goal) && Capped(w) && RunPlan(goal, grants, w, plan, now).Ok? && k <= |plan|
    ensures RunPlan(goal, grants, w, plan[..k], now).Ok? && Capped(RunPlan(goal, grants, w, plan[..k], now).value)
    decreases k
  {
    PlanPrefix(goal, grants, w, plan, now, k);
    if k > 0 {
      PlanStaysCapped(goal, grants, w, plan, now, k - 1);
      ValidInTurn(goal, grants, w, plan, now, k - 1);
      var sim := RunPlan(goal, grants, w, plan[..k - 1], now).value;
      ValidLeavesRoom(goal, sim, plan[k - 1], now);
      assert plan[..k][..k - 1] == plan[..k - 1];
      SimulateStaysCapped(sim, plan[k - 1]);
    }
  }

  /** So does its execution. */
  lemma ExecutionStaysCapped(goal: Goal, grants: set<ActionKind>, w: World, plan: seq<Action>, now: Time,
                             times: seq<Time>, k: nat, n: Id)
    requires GoalValid(goal) && WellFormed(w) && Capped(w) && k <= |plan| == |times|
    requires RunPlan(goal, grants, w, plan, now).Ok? && AllFaithful(plan) && AllNamed(plan)
    ensures PerformAll(w, plan[..k], times[..k]).Ok?
    ensures var reached := PerformAll(w, plan[..k], times[..k]).value;
            n in reached.nodes ==> reached.nodes[n].used.Fits(reached.nodes[n].capacity)
  {
    PlanStaysCapped(goal, grants, w, plan, now, k);
    PlanExecutesAsSimulated(goal, grants, w, plan[..k], now, times[..k]);
    var sim := RunPlan(goal, grants, w, plan[..k], now).value;
    var reached := PerformAll(w, plan[..k], times[..k]).value;
    if n in reached.nodes { assert SameNode(reached.nodes[n], sim.nodes[n]); }
  }

  // ---- Starting only as the sole writer ----

  lemma PerformFences(w: World, a: Action, at: Time)
    requires Fenced(w) && Perform(w, a, at).Ok?
    ensures Fenced(Perform(w, a, at).value)
  {
    ProjectFences(w, Stamp(Execute(w, a).value, at));
  }

  lemma {:induction false} ExecutionFences(w: World, plan: seq<Action>, times: seq<Time>)
    requires Fenced(w) && |times| == |plan| && PerformAll(w, plan, times).Ok?
    ensures Fenced(PerformAll(w, plan, times).value)
    decreases |plan|
  {
    if plan != [] {
      var k := |plan| - 1;
      ExecutionFences(w, plan[..k], times[..k]);
      PerformFences(PerformAll(w, plan[..k], times[..k]).value, plan[k], times[k]);
    }
  }

  lemma StartHoldsVolumes(goal: Goal, w: World, a: Action, now: Time, i: nat)
    requires Validate(goal, w, a, now) && a.kind.StartAllocation? && i < |goal.workload.volumes|
    ensures Writes(w, a.target, goal.workload.volumes[i].name)
  {
    assert HoldsVolumes(goal, w, a.target);
  }

  lemma WritesInBoth(w: World, sim: World, a: Id, v: Id)
    requires Agree(w, sim) && Writes(sim, a, v)
    ensures Writes(w, a, v)
  {
    assert SameAllocation(w.allocations[a], sim.allocations[a]);
    assert SameVolume(w.volumes[v], sim.volumes[v]);
  }

  /** When an accepted plan comes to start an allocation, that allocation is, in the world the execution
      has reached, the one and only writer of every volume its goal declares. */
  lemma StartedAsSoleWriter(goal: Goal, grants: set<ActionKind>, w: World, plan: seq<Action>, now: Time,
                            times: seq<Time>, k: nat, i: nat)
    requires GoalValid(goal) && WellFormed(w) && Fenced(w) && k < |plan| == |times| && i < |goal.workload.volumes|
    requires RunPlan(goal, grants, w, plan, now).Ok? && AllFaithful(plan) && AllNamed(plan)
    requires plan[k].kind.StartAllocation?
    ensures PerformAll(w, plan[..k], times[..k]).Ok?
    ensures var reached, v := PerformAll(w, plan[..k], times[..k]).value, goal.workload.volumes[i].name;
            Writes(reached, plan[k].target, v) && forall b :: Writes(reached, b, v) ==> b == plan[k].target
  {
    ValidInTurn(goal, grants, w, plan, now, k);
    var sim := RunPlan(goal, grants, w, plan[..k], now).value;
    StartHoldsVolumes(goal, sim, plan[k], now, i);
    PlanExecutesAsSimulated(goal, grants, w, plan[..k], now, times[..k]);
    ExecutionFences(w, plan[..k], times[..k]);
    var reached, v := PerformAll(w, plan[..k], times[..k]).value, goal.workload.volumes[i].name;
    WritesInBoth(reached, sim, plan[k].target, v);
    forall b | Writes(reached, b, v) ensures b == plan[k].target { OneWriter(reached, b, plan[k].target, v); }
  }
}
