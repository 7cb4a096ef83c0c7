/** Agent budgets: what a node reports as reserved against the budgets of the allocations placed on it. Deletion
    gives a budget back in simulation and not in the projection. */
module BudgetAccounting {
  import opened Types
  import opened Sums
  import opened Projection
  import opened Executor
  import opened Kernel
  import opened Exactness
  import Plans

  datatype Dimension = Tokens | Cost | Wall | Calls

  function Part(b: Budget, d: Dimension): int {
    match d
    case Tokens => b.tokens
    case Cost => b.cost
    case Wall => b.wall
    case Calls => b.calls
  }

  ghost function BudgetsOn(allocations: map<Id, Allocation>, node: Id, d: Dimension): map<Id, int> {
    map id | id in allocations && allocations[id].node == node :: Part(allocations[id].budget, d)
  }

  /** What the allocations placed on a node were promised, in one dimension. */
  ghost function Promised(allocations: map<Id, Allocation>, node: Id, d: Dimension): int {
    Sum(BudgetsOn(allocations, node, d))
  }

  lemma PromisedWithout(allocations: map<Id, Allocation>, node: Id, d: Dimension, id: Id)
    requires id in allocations
    ensures Promised(allocations, node, d) ==
            Promised(allocations - {id}, node, d) + if allocations[id].node == node then Part(allocations[id].budget, d) else 0
  {
    var all := BudgetsOn(allocations, node, d);
    assert BudgetsOn(allocations - {id}, node, d) == all - {id};
    if allocations[id].node == node { SumSplit(all, id); } else { assert all - {id} == all; }
  }

  lemma PromisedWith(allocations: map<Id, Allocation>, node: Id, d: Dimension, id: Id, a: Allocation)
    requires id !in allocations
    ensures Promised(allocations[id := a], node, d) ==
            Promised(allocations, node, d) + if a.node == node then Part(a.budget, d) else 0
  {
    PromisedWithout(allocations[id := a], node, d, id);
    assert allocations[id := a] - {id} == allocations;
  }

  ghost predicate SameBudgets(x: map<Id, Allocation>, y: map<Id, Allocation>) {
    x.Keys == y.Keys && forall a :: a in x ==> x[a].node == y[a].node && x[a].budget == y[a].budget
  }

  lemma SameBudgetsPromiseSame(x: map<Id, Allocation>, y: map<Id, Allocation>, node: Id, d: Dimension)
    requires SameBudgets(x, y)
    ensures Promised(x, node, d) == Promised(y, node, d)
  {
    assert BudgetsOn(x, node, d) == BudgetsOn(y, node, d);
  }

  /** Reserved, less what was promised to the placed allocations. */
  ghost function Idle(w: World, n: Id, d: Dimension): int
    requires n in w.nodes
  {
    Part(w.nodes[n].budgetUsed, d) - Promised(w.allocations, n, d)
  }

  ghost predicate NamedNodes(w: World) { forall n :: n in w.nodes ==> w.nodes[n].id == n }

  // ---- The projection never gives a budget back ----

  /** What the deletion that evidence reports leaves reserved on a node. */
  function Stranded(w: World, e: Evidence, n: Id, d: Dimension): int {
    if e.fact == OfAllocation(AllocationDeleted) && e.target in w.allocations && w.allocations[e.target].node == n
    then Part(w.allocations[e.target].budget, d) else 0
  }

  ghost predicate Grows(w: World, after: World, n: Id, d: Dimension, more: int)
    requires n in w.nodes
  {
    n in after.nodes && Idle(after, n, d) == Idle(w, n, d) + more
  }

  lemma CreateKeepsIdle(w: World, e: Evidence, f: AllocationFact, n: Id, d: Dimension, after: World)
    requires NamedNodes(w) && f.AllocationCreated? && n in w.nodes
    requires ProjectCreated(w, e, f.node, f.workload, f.image, f.replica, f.resources, f.budget) == Ok(after)
    ensures Grows(w, after, n, d, 0)
  {
    if e.target !in w.allocations {
      PromisedWith(w.allocations, n, d, e.target,
                   Fresh(e.target, f.workload, f.replica, w.nodes[f.node].id, f.image, f.resources, f.budget));
    }
  }

  lemma DeleteStrands(w: World, e: Evidence, n: Id, d: Dimension)
    requires n in w.nodes && e.fact == OfAllocation(AllocationDeleted)
    ensures Grows(w, ProjectDeleted(w, e), n, d, Stranded(w, e, n, d))
  {
    if e.target in w.allocations { PromisedWithout(w.allocations, n, d, e.target); }
  }

  lemma StepKeepsBudget(x: Allocation, e: Evidence, f: AllocationFact)
    requires AllocationStep(x, e, f).Ok?
    ensures var y := AllocationStep(x, e, f).value; y.node == x.node && y.budget == x.budget
  {
  }

  lemma OtherEvidenceKeepsBudgets(w: World, e: Evidence, f: AllocationFact, after: World)
    requires ProjectAllocation(w, e, f) == Ok(after) && !f.AllocationCreated? && !f.AllocationDeleted?
    ensures after.nodes == w.nodes && SameBudgets(w.allocations, after.allocations)
  {
    if e.target in w.allocations {
      StepKeepsBudget(w.allocations[e.target], e, f);
      PutKeepsBudgets(w.allocations, e.target, AllocationStep(w.allocations[e.target], e, f).value);
    }
  }

  lemma PutKeepsBudgets(all: map<Id, Allocation>, id: Id, x: Allocation)
    requires id in all && x.node == all[id].node && x.budget == all[id].budget
    ensures SameBudgets(all, all[id := x])
  {
  }

  lemma VolumeEvidenceKeepsBudgets(w: World, e: Evidence, f: VolumeFact, after: World)
    requires ProjectVolume(w, e, f) == Ok(after)
    ensures after.nodes == w.nodes && SameBudgets(w.allocations, after.allocations)
  {
    if f.VolumeAttached? {
      PutKeepsBudgets(w.allocations, f.allocation, after.allocations[f.allocation]);
    } else if f.VolumeDetached? && after != w && w.volumes[e.target].owner in w.allocations {
      var owner := w.volumes[e.target].owner;
      PutKeepsBudgets(w.allocations, owner, after.allocations[owner]);
    }
  }

  lemma NodeEvidenceKeepsBudgets(w: World, e: Evidence, f: NodeFact, after: World, n: Id)
    requires ProjectNode(w, e, f) == Ok(after) && n in w.nodes
    ensures after.allocations == w.allocations && n in after.nodes && after.nodes[n].budgetUsed == w.nodes[n].budgetUsed
  {
  }

  lemma AllocationEvidenceStrands(w: World, e: Evidence, f: AllocationFact, n: Id, d: Dimension, after: World)
    requires NamedNodes(w) && n in w.nodes && e.fact == OfAllocation(f) && ProjectAllocation(w, e, f) == Ok(after)
    ensures Grows(w, after, n, d, Stranded(w, e, n, d))
  {
    if f.AllocationCreated? {
      CreateKeepsIdle(w, e, f, n, d, after);
    } else if f.AllocationDeleted? {
      DeleteStrands(w, e, n, d);
    } else {
      OtherEvidenceKeepsBudgets(w, e, f, after);
      SameBudgetsPromiseSame(w.allocations, after.allocations, n, d);
    }
  }

  lemma VolumeEvidenceStrands(w: World, e: Evidence, f: VolumeFact, n: Id, d: Dimension, after: World)
    requires n in w.nodes && ProjectVolume(w, e, f) == Ok(after)
    ensures Grows(w, after, n, d, 0)
  {
    VolumeEvidenceKeepsBudgets(w, e, f, after);
    SameBudgetsPromiseSame(w.allocations, after.allocations, n, d);
  }

  lemma IntoStrands(w: World, e: Evidence, n: Id, d: Dimension, mid: World)
    requires NamedNodes(w) && n in w.nodes && ProjectInto(w, e) == Ok(mid)
    ensures Grows(w, mid, n, d, Stranded(w, e, n, d))
  {
    match e.fact
    case OfNode(f) => NodeEvidenceKeepsBudgets(w, e, f, mid, n);
    case OfVolume(f) => VolumeEvidenceStrands(w, e, f, n, d, mid);
    case OfAllocation(f) => AllocationEvidenceStrands(w, e, f, n, d, mid);
    case OfWorld(f) => OtherFactsKeep(w, e, f, mid);
  }

  lemma OtherFactsKeep(w: World, e: Evidence, f: WorldFact, after: World)
    requires ProjectOther(w, e, f) == Ok(after)
    ensures after.nodes == w.nodes && after.allocations == w.allocations
  {
  }

  lemma ProjectStrands(w: World, e: Evidence, n: Id, d: Dimension)
    requires NamedNodes(w) && n in w.nodes && Project(w, e).Ok?
    ensures Grows(w, Project(w, e).value, n, d, Stranded(w, e, n, d))
  {
    IntoStrands(w, e, n, d, ProjectInto(w, e).value);
    Restamped(w, ProjectInto(w, e).value, Project(w, e).value, n, d, Stranded(w, e, n, d));
  }

  lemma Restamped(w: World, mid: World, after: World, n: Id, d: Dimension, more: int)
    requires n in w.nodes && Grows(w, mid, n, d, more) && after.nodes == mid.nodes && after.allocations == mid.allocations
    ensures Grows(w, after, n, d, more)
  {
  }

  /** What the deletions of a run leave reserved on a node. */
  function StrandedAlong(w: World, run: seq<Evidence>, n: Id, d: Dimension): int {
    if run == [] then 0
    else
      var front := run[..|run| - 1];
      StrandedAlong(w, front, n, d) +
      match Replay(w, front) case Ok(mid) => Stranded(mid, run[|run| - 1], n, d) case Err => 0
  }

  /** Over every run of evidence, the reserved budget less what is promised to placed allocations grows by exactly
      the budgets of the allocations that were deleted. */
  lemma {:induction false} BudgetsAreStranded(w: World, run: seq<Evidence>, n: Id, d: Dimension)
    requires NamedNodes(w) && n in w.nodes && Replay(w, run).Ok?
    ensures NamedNodes(Replay(w, run).value) && Grows(w, Replay(w, run).value, n, d, StrandedAlong(w, run, n, d))
  {
    if run != [] {
      var k := |run| - 1;
      BudgetsAreStranded(w, run[..k], n, d);
      var mid := Replay(w, run[..k]).value;
      ProjectStrands(mid, run[k], n, d);
      forall m | m in Project(mid, run[k]).value.nodes { ProjectKeepsNames(mid, run[k], m); }
    }
  }

  /** What an action leaves reserved on a node although the allocation is gone. */
  function StrandedBy(allocations: map<Id, Allocation>, a: Action, n: Id, d: Dimension): int {
    if a.kind.DeleteAllocation? && a.target in allocations && allocations[a.target].node == n
    then Part(allocations[a.target].budget, d) else 0
  }

  // ---- Simulation conserves budgets ----

  ghost predicate NaturalBudgets(allocations: map<Id, Allocation>, d: Dimension) {
    forall a :: a in allocations ==> Part(allocations[a].budget, d) >= 0
  }

  lemma PromisedIsNatural(allocations: map<Id, Allocation>, n: Id, d: Dimension)
    requires NaturalBudgets(allocations, d)
    ensures Promised(allocations, n, d) >= 0
  {
    SumIsNatural(BudgetsOn(allocations, n, d));
  }

  /** The node reserves at least what is promised to the allocations on it. */
  ghost predicate Backed(w: World, n: Id, d: Dimension) {
    n in w.nodes && NaturalBudgets(w.allocations, d) && Idle(w, n, d) >= 0
  }

  ghost predicate SimulationKeeps(w: World, after: World, n: Id, d: Dimension)
    requires n in w.nodes
  {
    n in after.nodes && NaturalBudgets(after.allocations, d) && Idle(after, n, d) == Idle(w, n, d)
  }

  lemma SimulatedCreateKeeps(w: World, a: Action, n: Id, d: Dimension, after: World)
    requires Backed(w, n, d) && a.target !in w.allocations && Part(a.budget, d) >= 0 && SimulateCreate(w, a) == Ok(after)
    ensures SimulationKeeps(w, after, n, d)
  {
    PromisedWith(w.allocations, n, d, a.target,
                 Fresh(a.target, a.workload, a.replica, a.node, a.image, a.resources, a.budget));
  }

  lemma SimulatedDeleteKeeps(w: World, a: Action, n: Id, d: Dimension, after: World)
    requires Backed(w, n, d) && SimulateDelete(w, a) == Ok(after)
    ensures SimulationKeeps(w, after, n, d)
  {
    PromisedWithout(w.allocations, n, d, a.target);
    PromisedIsNatural(w.allocations - {a.target}, n, d);
    var x := w.allocations[a.target];
    if x.node == n { ReleasedPart(w.nodes[n].budgetUsed, x.budget, d); }
  }

  lemma ReleasedPart(used: Budget, b: Budget, d: Dimension)
    ensures Part(used.Subtract(b), d) == Max(0, Part(used, d) - Part(b, d))
  {
  }

  lemma SimulatedMountKeeps(w: World, a: Action, after: World)
    requires SimulateAttach(w, a) == Ok(after) || SimulateDetach(w, a) == Ok(after)
    ensures after.nodes == w.nodes && SameBudgets(w.allocations, after.allocations)
  {
  }

  lemma SimulatedOnKeeps(w: World, a: Action, after: World)
    requires SimulateOn(w, a) == Ok(after)
    ensures after.nodes == w.nodes && SameBudgets(w.allocations, after.allocations)
  {
    SimulatedAllocationKeeps(w.allocations[a.target], a);
  }

  lemma SimulatedAllocationKeeps(x: Allocation, a: Action)
    requires SimulateAllocation(x, a).Ok?
    ensures var y := SimulateAllocation(x, a).value; y.node == x.node && y.budget == x.budget
  {
  }

  lemma SimulatedNodeBudget(x: Node, a: Action)
    ensures SimulateNode(x, a).budgetUsed == x.budgetUsed
  {
  }

  lemma SimulatedNodeKeeps(w: World, a: Action, n: Id, after: World)
    requires SimulateOnNode(w, a) == Ok(after) && n in w.nodes
    ensures after.allocations == w.allocations && n in after.nodes && after.nodes[n].budgetUsed == w.nodes[n].budgetUsed
  {
    SimulatedNodeBudget(w.nodes[n], a);
  }

  lemma SameBudgetsKeep(w: World, after: World, n: Id, d: Dimension)
    requires Backed(w, n, d) && SameBudgets(w.allocations, after.allocations)
    requires n in after.nodes && after.nodes[n].budgetUsed == w.nodes[n].budgetUsed
    ensures SimulationKeeps(w, after, n, d)
  {
    SameBudgetsPromiseSame(w.allocations, after.allocations, n, d);
  }

  /** A simulated action leaves the reserved budget less what is promised where it was. */
  lemma SimulateKeepsIdle(w: World, a: Action, n: Id, d: Dimension, after: World)
    requires Backed(w, n, d) && Simulate(w, a) == Ok(after)
    requires a.kind.CreateAllocation? ==> a.target !in w.allocations && Part(a.budget, d) >= 0
    ensures SimulationKeeps(w, after, n, d)
  {
    if a.kind.CreateAllocation? {
      SimulatedCreateKeeps(w, a, n, d, after);
    } else if a.kind.DeleteAllocation? {
      SimulatedDeleteKeeps(w, a, n, d, after);
    } else {
      OthersKeepBudgets(w, a, n, after);
      SameBudgetsKeep(w, after, n, d);
    }
  }

  lemma OthersKeepBudgets(w: World, a: Action, n: Id, after: World)
    requires Simulate(w, a) == Ok(after) && n in w.nodes && !a.kind.CreateAllocation? && !a.kind.DeleteAllocation?
    ensures SameBudgets(w.allocations, after.allocations)
    ensures n in after.nodes && after.nodes[n].budgetUsed == w.nodes[n].budgetUsed
  {
    if a.kind.AttachVolume? || a.kind.DetachVolume? { SimulatedMountKeeps(w, a, after); }
    else if ActsOnNode(a.kind) { SimulatedNodeKeeps(w, a, n, after); }
    else if ActsOnVolume(a.kind) { assert Simulate(w, a) == SimulateOnVolume(w, a); }
    else if !a.kind.PublishRoute? { SimulatedOnKeeps(w, a, after); }
  }

  /** What a simulated deletion gives back on a node: the budget of the allocation, as far as it is reserved. */
  function GivenBack(w: World, a: Action, n: Id, d: Dimension): int {
    if a.kind.DeleteAllocation? && a.target in w.allocations && w.allocations[a.target].node == n && n in w.nodes
    then Part(w.nodes[n].budgetUsed, d) - Max(0, Part(w.nodes[n].budgetUsed, d) - Part(w.allocations[a.target].budget, d)) else 0
  }

  ghost predicate Moves(w: World, a: Action, after: World, n: Id, d: Dimension)
    requires n in w.nodes
  {
    n in after.nodes && Idle(after, n, d) == Idle(w, n, d) + StrandedBy(w.allocations, a, n, d) - GivenBack(w, a, n, d)
  }

  lemma CreationMoves(w: World, a: Action, n: Id, d: Dimension, after: World)
    requires n in w.nodes && a.kind.CreateAllocation? && a.target !in w.allocations && SimulateCreate(w, a) == Ok(after)
    ensures Moves(w, a, after, n, d)
  {
    PromisedWith(w.allocations, n, d, a.target,
                 Fresh(a.target, a.workload, a.replica, a.node, a.image, a.resources, a.budget));
  }

  lemma DeletionMoves(w: World, a: Action, n: Id, d: Dimension, after: World)
    requires n in w.nodes && a.kind.DeleteAllocation? && SimulateDelete(w, a) == Ok(after)
    ensures Moves(w, a, after, n, d)
  {
    PromisedWithout(w.allocations, n, d, a.target);
    var x := w.allocations[a.target];
    if x.node == n { ReleasedPart(w.nodes[n].budgetUsed, x.budget, d); }
  }

  /** Whatever a node reserves, a simulated action changes it, less what is promised, by the promise that falls away
      less what is given back. */
  lemma SimulationGivesBack(w: World, a: Action, n: Id, d: Dimension, after: World)
    requires n in w.nodes && Simulate(w, a) == Ok(after) && (a.kind.CreateAllocation? ==> a.target !in w.allocations)
    ensures Moves(w, a, after, n, d)
  {
    if a.kind.CreateAllocation? {
      CreationMoves(w, a, n, d, after);
    } else if a.kind.DeleteAllocation? {
      DeletionMoves(w, a, n, d, after);
    } else {
      OthersKeepBudgets(w, a, n, after);
      SameBudgetsPromiseSame(w.allocations, after.allocations, n, d);
    }
  }

  // ---- An accepted plan, simulated and executed ----

  lemma ExecutedDeletion(w: World, a: Action, e: Evidence)
    requires Execute(w, a) == Ok(e)
    ensures e.fact == OfAllocation(AllocationDeleted) <==> a.kind.DeleteAllocation?
    ensures a.kind.DeleteAllocation? ==> e.target == a.target
  {
  }

  lemma PerformStrands(w: World, a: Action, at: Time, n: Id, d: Dimension)
    requires NamedNodes(w) && n in w.nodes && Perform(w, a, at).Ok?
    ensures Grows(w, Perform(w, a, at).value, n, d, StrandedBy(w.allocations, a, n, d))
  {
    var e := Execute(w, a).value;
    ExecutedDeletion(w, a, e);
    ProjectStrands(w, Stamp(e, at), n, d);
  }

  /** No dimension of the budget in the goal is negative. */
  predicate BudgetNatural(goal: Goal, d: Dimension) {
    goal.workload.runtime.Some? ==> Part(goal.workload.runtime.value.budget, d) >= 0
  }

  lemma ValidKeepsIdle(goal: Goal, sim: World, a: Action, now: Time, n: Id, d: Dimension, after: World)
    requires BudgetNatural(goal, d) && Backed(sim, n, d) && Validate(goal, sim, a, now) && Simulate(sim, a) == Ok(after)
    ensures SimulationKeeps(sim, after, n, d)
  {
    SimulateKeepsIdle(sim, a, n, d, after);
  }

  lemma {:induction false} SimulatedPlanKeepsIdle(goal: Goal, grants: set<ActionKind>, w: World, plan: seq<Action>, now: Time,
                                                  n: Id, d: Dimension)
    requires BudgetNatural(goal, d) && Backed(w, n, d) && RunPlan(goal, grants, w, plan, now).Ok?
    ensures SimulationKeeps(w, RunPlan(goal, grants, w, plan, now).value, n, d)
    decreases |plan|
  {
    if plan != [] {
      var k := |plan| - 1;
      SimulatedPlanKeepsIdle(goal, grants, w, plan[..k], now, n, d);
      ValidKeepsIdle(goal, RunPlan(goal, grants, w, plan[..k], now).value, plan[k], now, n, d,
                     RunPlan(goal, grants, w, plan, now).value);
    }
  }

  /** What the deletions of a plan leave reserved on a node. */
  function StrandedByPlan(goal: Goal, grants: set<ActionKind>, w: World, plan: seq<Action>, now: Time, n: Id, d: Dimension): int
    requires RunPlan(goal, grants, w, plan, now).Ok?
  {
    if plan == [] then 0
    else
      var k := |plan| - 1;
      StrandedByPlan(goal, grants, w, plan[..k], now, n, d) +
      StrandedBy(RunPlan(goal, grants, w, plan[..k], now).value.allocations, plan[k], n, d)
  }

  /** What the simulated deletions of a plan give back on a node. */
  function GivenBackByPlan(goal: Goal, grants: set<ActionKind>, w: World, plan: seq<Action>, now: Time, n: Id, d: Dimension): int
    requires RunPlan(goal, grants, w, plan, now).Ok?
  {
    if plan == [] then 0
    else
      var k := |plan| - 1;
      GivenBackByPlan(goal, grants, w, plan[..k], now, n, d) + GivenBack(RunPlan(goal, grants, w, plan[..k], now).value, plan[k], n, d)
  }

  lemma ValidMoves(goal: Goal, sim: World, a: Action, now: Time, n: Id, d: Dimension, after: World)
    requires n in sim.nodes && Validate(goal, sim, a, now) && Simulate(sim, a) == Ok(after)
    ensures Moves(sim, a, after, n, d)
  {
    SimulationGivesBack(sim, a, n, d, after);
  }

  lemma {:induction false} SimulatedPlanGivesBack(goal: Goal, grants: set<ActionKind>, w: World, plan: seq<Action>, now: Time,
                                                  n: Id, d: Dimension)
    requires n in w.nodes && RunPlan(goal, grants, w, plan, now).Ok?
    ensures var sim := RunPlan(goal, grants, w, plan, now).value;
            && n in sim.nodes
            && Idle(sim, n, d) == Idle(w, n, d) + StrandedByPlan(goal, grants, w, plan, now, n, d) - GivenBackByPlan(goal, grants, w, plan, now, n, d)
    decreases |plan|
  {
    if plan != [] {
      var k := |plan| - 1;
      SimulatedPlanGivesBack(goal, grants, w, plan[..k], now, n, d);
      ValidMoves(goal, RunPlan(goal, grants, w, plan[..k], now).value, plan[k], now, n, d, RunPlan(goal, grants, w, plan, now).value);
    }
  }

  lemma AgreedBudgets(x: World, sim: World)
    requires Agree(x, sim)
    ensures SameBudgets(x.allocations, sim.allocations) && x.nodes.Keys == sim.nodes.Keys
  {
    forall a | a in x.allocations ensures x.allocations[a].node == sim.allocations[a].node &&
                                          x.allocations[a].budget == sim.allocations[a].budget
    {
      assert SameAllocation(x.allocations[a], sim.allocations[a]);
    }
  }

  lemma AgreedStranding(x: World, sim: World, a: Action, n: Id, d: Dimension)
    requires SameBudgets(x.allocations, sim.allocations)
    ensures StrandedBy(x.allocations, a, n, d) == StrandedBy(sim.allocations, a, n, d)
  {
  }

  lemma LastStrands(x: World, sim: World, a: Action, at: Time, n: Id, d: Dimension, before: int, start: int)
    requires WellFormed(x) && n in x.nodes && Agree(x, sim) && Perform(x, a, at).Ok? && Idle(x, n, d) == start + before
    ensures n in Perform(x, a, at).value.nodes
    ensures Idle(Perform(x, a, at).value, n, d) == start + before + StrandedBy(sim.allocations, a, n, d)
  {
    AgreedBudgets(x, sim);
    AgreedStranding(x, sim, a, n, d);
    PerformStrands(x, a, at, n, d);
  }

  lemma {:induction false} ExecutedPlanStrands(goal: Goal, grants: set<ActionKind>, w: World, plan: seq<Action>, now: Time,
                                               times: seq<Time>, n: Id, d: Dimension)
    requires GoalValid(goal) && WellFormed(w) && |times| == |plan| && AllFaithful(plan) && n in w.nodes
    requires RunPlan(goal, grants, w, plan, now).Ok? && PerformAll(w, plan, times).Ok?
    ensures n in PerformAll(w, plan, times).value.nodes
    ensures Idle(PerformAll(w, plan, times).value, n, d) == Idle(w, n, d) + StrandedByPlan(goal, grants, w, plan, now, n, d)
    decreases |plan|
  {
    if plan != [] {
      var k := |plan| - 1;
      ExecutedPlanStrands(goal, grants, w, plan[..k], now, times[..k], n, d);
      PlanExecutesAsSimulated(goal, grants, w, plan[..k], now, times[..k]);
      LastStrands(PerformAll(w, plan[..k], times[..k]).value, RunPlan(goal, grants, w, plan[..k], now).value, plan[k], times[k],
                  n, d, StrandedByPlan(goal, grants, w, plan[..k], now, n, d), Idle(w, n, d));
    }
  }

  /** After an accepted plan, the executed world reserves exactly what the simulated deletions gave back more than the
      simulated one. */
  lemma BudgetsDifferByDeletions(goal: Goal, grants: set<ActionKind>, w: World, plan: seq<Action>, now: Time,
                                 times: seq<Time>, n: Id, d: Dimension)
    requires GoalValid(goal) && WellFormed(w) && |times| == |plan| && AllFaithful(plan)
    requires n in w.nodes && RunPlan(goal, grants, w, plan, now).Ok? && PerformAll(w, plan, times).Ok?
    ensures var x, sim := PerformAll(w, plan, times).value, RunPlan(goal, grants, w, plan, now).value;
            && n in x.nodes && n in sim.nodes
            && Part(x.nodes[n].budgetUsed, d) ==
               Part(sim.nodes[n].budgetUsed, d) + GivenBackByPlan(goal, grants, w, plan, now, n, d)
  {
    var x, sim := PerformAll(w, plan, times).value, RunPlan(goal, grants, w, plan, now).value;
    ExecutedPlanStrands(goal, grants, w, plan, now, times, n, d);
    SimulatedPlanGivesBack(goal, grants, w, plan, now, n, d);
    PlanExecutesAsSimulated(goal, grants, w, plan, now, times);
    AgreedBudgets(x, sim);
    SameBudgetsPromiseSame(x.allocations, sim.allocations, n, d);
  }

  /** A node that reserves at least what is promised gets the budgets of the deleted allocations back in full. */
  lemma BackedGivesBackAll(goal: Goal, grants: set<ActionKind>, w: World, plan: seq<Action>, now: Time, n: Id, d: Dimension)
    requires BudgetNatural(goal, d) && Backed(w, n, d) && RunPlan(goal, grants, w, plan, now).Ok?
    ensures GivenBackByPlan(goal, grants, w, plan, now, n, d) == StrandedByPlan(goal, grants, w, plan, now, n, d)
  {
    SimulatedPlanGivesBack(goal, grants, w, plan, now, n, d);
    SimulatedPlanKeepsIdle(goal, grants, w, plan, now, n, d);
  }

  // ---- When they agree ----

  /** Nothing is reserved or promised below zero. */
  ghost predicate Natural(w: World, n: Id, d: Dimension) {
    n in w.nodes && NaturalBudgets(w.allocations, d) && Part(w.nodes[n].budgetUsed, d) >= 0
  }

  lemma CreationStaysNatural(w: World, a: Action, n: Id, d: Dimension, after: World)
    requires Natural(w, n, d) && SimulateCreate(w, a) == Ok(after) && Part(a.budget, d) >= 0
    ensures Natural(after, n, d)
  {
  }

  lemma DeletionStaysNatural(w: World, a: Action, n: Id, d: Dimension, after: World)
    requires Natural(w, n, d) && SimulateDelete(w, a) == Ok(after)
    ensures Natural(after, n, d)
  {
    var x := w.allocations[a.target];
    if x.node == n { ReleasedPart(w.nodes[n].budgetUsed, x.budget, d); }
  }

  lemma ValidStaysNatural(goal: Goal, sim: World, a: Action, now: Time, n: Id, d: Dimension, after: World)
    requires BudgetNatural(goal, d) && Natural(sim, n, d) && Validate(goal, sim, a, now) && Simulate(sim, a) == Ok(after)
    ensures Natural(after, n, d)
  {
    if a.kind.CreateAllocation? {
      CreationStaysNatural(sim, a, n, d, after);
    } else if a.kind.DeleteAllocation? {
      DeletionStaysNatural(sim, a, n, d, after);
    } else {
      OthersKeepBudgets(sim, a, n, after);
    }
  }

  lemma {:induction false} PlanStaysNatural(goal: Goal, grants: set<ActionKind>, w: World, plan: seq<Action>, now: Time, n: Id, d: Dimension)
    requires BudgetNatural(goal, d) && Natural(w, n, d) && RunPlan(goal, grants, w, plan, now).Ok?
    ensures Natural(RunPlan(goal, grants, w, plan, now).value, n, d)
    decreases |plan|
  {
    if plan != [] {
      var k := |plan| - 1;
      PlanStaysNatural(goal, grants, w, plan[..k], now, n, d);
      ValidStaysNatural(goal, RunPlan(goal, grants, w, plan[..k], now).value, plan[k], now, n, d, RunPlan(goal, grants, w, plan, now).value);
    }
  }

  /** The action deletes an allocation of the node that carries a budget, while the node reserves some. */
  predicate GivesBack(w: World, a: Action, n: Id, d: Dimension) {
    && a.kind.DeleteAllocation? && a.target in w.allocations && w.allocations[a.target].node == n && n in w.nodes
    && Part(w.allocations[a.target].budget, d) > 0 && Part(w.nodes[n].budgetUsed, d) > 0
  }

  lemma GivesBackExactly(w: World, a: Action, n: Id, d: Dimension)
    requires Natural(w, n, d)
    ensures GivenBack(w, a, n, d) >= 0 && (GivenBack(w, a, n, d) > 0 <==> GivesBack(w, a, n, d))
  {
  }

  /** No action of the plan does. */
  ghost predicate GivesBackNothing(goal: Goal, grants: set<ActionKind>, w: World, plan: seq<Action>, now: Time, n: Id, d: Dimension) {
    plan != [] ==>
      var k := |plan| - 1;
      && GivesBackNothing(goal, grants, w, plan[..k], now, n, d)
      && (RunPlan(goal, grants, w, plan[..k], now).Ok? ==> !GivesBack(RunPlan(goal, grants, w, plan[..k], now).value, plan[k], n, d))
  }

  lemma {:induction false} NothingGivenBack(goal: Goal, grants: set<ActionKind>, w: World, plan: seq<Action>, now: Time, n: Id, d: Dimension)
    requires BudgetNatural(goal, d) && Natural(w, n, d) && RunPlan(goal, grants, w, plan, now).Ok?
    ensures GivenBackByPlan(goal, grants, w, plan, now, n, d) >= 0
    ensures GivenBackByPlan(goal, grants, w, plan, now, n, d) == 0 <==> GivesBackNothing(goal, grants, w, plan, now, n, d)
    decreases |plan|
  {
    if plan != [] {
      var k := |plan| - 1;
      NothingGivenBack(goal, grants, w, plan[..k], now, n, d);
      PlanStaysNatural(goal, grants, w, plan[..k], now, n, d);
      GivesBackExactly(RunPlan(goal, grants, w, plan[..k], now).value, plan[k], n, d);
    }
  }

  /** The executed and the simulated world agree on a node's reserved budget if and only if the plan deletes no
      allocation of that node that carries a budget while the node reserves some. */
  lemma BudgetsAgreeExactly(goal: Goal, grants: set<ActionKind>, w: World, plan: seq<Action>, now: Time, times: seq<Time>,
                            n: Id, d: Dimension)
    requires GoalValid(goal) && BudgetNatural(goal, d) && WellFormed(w) && |times| == |plan| && AllFaithful(plan)
    requires Natural(w, n, d) && RunPlan(goal, grants, w, plan, now).Ok? && PerformAll(w, plan, times).Ok?
    ensures var x, sim := PerformAll(w, plan, times).value, RunPlan(goal, grants, w, plan, now).value;
            && n in x.nodes && n in sim.nodes
            && (Part(x.nodes[n].budgetUsed, d) == Part(sim.nodes[n].budgetUsed, d) <==>
                GivesBackNothing(goal, grants, w, plan, now, n, d))
  {
    BudgetsDifferByDeletions(goal, grants, w, plan, now, times, n, d);
    NothingGivenBack(goal, grants, w, plan, now, n, d);
  }

  lemma DeletionRuns(goal: Goal, w: World, a: Action, now: Time)
    requires a.id != "" && a.kind == DeleteAllocation && a.dependsOn == [] && DeleteAllowed(goal, w, a, now)
    ensures RunPlan(goal, ROLLOUT_GRANTS, w, [a], now) == SimulateDelete(w, a) && SimulateDelete(w, a).Ok?
  {
    assert [a][..0] == [] && Simulate(w, a) == SimulateDelete(w, a);
  }

  lemma DeletionPerforms(w: World, a: Action, at: Time)
    requires a.kind == DeleteAllocation && a.target in w.allocations
    ensures PerformAll(w, [a], [at]) == Perform(w, a, at) && Perform(w, a, at).Ok?
  {
    assert [a][..0] == [] && [at][..0] == [];
  }

  /** Deleting one allocation that carries a budget is an accepted plan, and it keeps that budget reserved, as far as
      it was. */
  lemma DeletionStrands(goal: Goal, w: World, a: Action, now: Time, at: Time, n: Id, d: Dimension)
    requires GoalValid(goal) && WellFormed(w) && n in w.nodes
    requires a.id != "" && a.kind == DeleteAllocation && a.dependsOn == [] && DeleteAllowed(goal, w, a, now)
    requires GivesBack(w, a, n, d)
    ensures RunPlan(goal, ROLLOUT_GRANTS, w, [a], now).Ok? && PerformAll(w, [a], [at]).Ok?
    ensures var x, sim := PerformAll(w, [a], [at]).value, RunPlan(goal, ROLLOUT_GRANTS, w, [a], now).value;
            && n in x.nodes && n in sim.nodes
            && Part(x.nodes[n].budgetUsed, d) ==
               Part(sim.nodes[n].budgetUsed, d) + Min(Part(w.allocations[a.target].budget, d), Part(w.nodes[n].budgetUsed, d))
  {
    DeletionRuns(goal, w, a, now);
    DeletionPerforms(w, a, at);
    GivenBackOnce(goal, w, a, now, n, d);
    BudgetsDifferByDeletions(goal, ROLLOUT_GRANTS, w, [a], now, [at], n, d);
  }

  lemma GivenBackOnce(goal: Goal, w: World, a: Action, now: Time, n: Id, d: Dimension)
    requires RunPlan(goal, ROLLOUT_GRANTS, w, [a], now).Ok?
    ensures GivenBackByPlan(goal, ROLLOUT_GRANTS, w, [a], now, n, d) == GivenBack(w, a, n, d)
  {
    assert [a][..0] == [];
    assert GivenBackByPlan(goal, ROLLOUT_GRANTS, w, [], now, n, d) == 0;
  }
}
