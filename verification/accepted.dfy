/** When the kernel accepts what the placement agent proposes (control/agents.go, control/policy.go). */
module Acceptance {
  import opened Types
  import opened Executor
  import opened Kernel
  import opened Exactness
  import opened ReplicaPlan
  import opened Placement
  import opened Admission
  import Names

  // ---- A plan whose actions come in turn ----

  /** Every action is valid in the world simulated before it. */
  ghost predicate AllValid(goal: Goal, w: World, plan: seq<Action>, now: Time)
    decreases |plan|
  {
    plan == [] ||
    var front := plan[..|plan| - 1];
    AllValid(goal, w, front, now) && SimulateAll(w, front).Ok? && Validate(goal, SimulateAll(w, front).value, plan[|plan| - 1], now)
  }

  /** What acceptance comes to for actions in turn. */
  ghost function Verdict(goal: Goal, w: World, plan: seq<Action>, now: Time): Result<World> {
    if AllValid(goal, w, plan, now) then SimulateAll(w, plan) else Err
  }

  ghost predicate Agree(goal: Goal, w: World, plan: seq<Action>, now: Time) {
    RunPlan(goal, PLACEMENT_GRANTS, w, plan, now) == Verdict(goal, w, plan, now)
  }

  lemma RunStep(goal: Goal, w: World, plan: seq<Action>, now: Time, done: seq<Action>, a: Action)
    requires plan == done + [a] && InTurn(PLACEMENT_GRANTS, done, a) && Agree(goal, w, done, now) && SimulateAll(w, done).Ok?
    ensures Agree(goal, w, plan, now)
  {
    assert plan[..|plan| - 1] == done && plan[|plan| - 1] == a;
  }

  lemma NothingRuns(goal: Goal, w: World, now: Time)
    ensures Agree(goal, w, [], now)
  {
  }

  lemma InTurnBefore(plan: seq<Action>, done: seq<Action>, a: Action)
    requires AllInTurn(plan) && plan == done + [a]
    ensures AllInTurn(done) && InTurn(PLACEMENT_GRANTS, done, a)
  {
    forall i | 0 <= i < |done| ensures InTurn(PLACEMENT_GRANTS, done[..i], done[i]) {
      assert done[..i] == plan[..i] && done[i] == plan[i];
    }
    assert plan[..|done|] == done && InTurn(PLACEMENT_GRANTS, plan[..|done|], plan[|done|]);
  }

  lemma SimulatedBefore(w: World, plan: seq<Action>, done: seq<Action>, a: Action)
    requires SimulateAll(w, plan).Ok? && plan == done + [a]
    ensures SimulateAll(w, done).Ok?
  {
    assert plan[..|plan| - 1] == done;
  }

  /** A plan that goes through in simulation with every action in turn is accepted exactly when all are valid. */
  lemma {:induction false} RunsExactly(goal: Goal, w: World, plan: seq<Action>, now: Time)
    requires AllInTurn(plan) && SimulateAll(w, plan).Ok?
    ensures Agree(goal, w, plan, now)
    decreases |plan|
  {
    if plan == [] {
      NothingRuns(goal, w, now);
    } else {
      var done, a := plan[..|plan| - 1], plan[|plan| - 1];
      assert plan == done + [a];
      InTurnBefore(plan, done, a);
      SimulatedBefore(w, plan, done, a);
      RunsExactly(goal, w, done, now);
      RunStep(goal, w, plan, now, done, a);
    }
  }

  lemma ValidSnoc(goal: Goal, w: World, plan: seq<Action>, a: Action, now: Time, sim: World)
    requires SimulateAll(w, plan) == Ok(sim)
    ensures AllValid(goal, w, plan + [a], now) <==> AllValid(goal, w, plan, now) && Validate(goal, sim, a, now)
    ensures SimulateAll(w, plan + [a]) == Simulate(sim, a)
  {
    assert (plan + [a])[..|plan|] == plan;
  }

  /** Having simulated `a`, validity of what follows is validity in the world reached. */
  ghost predicate Splits(goal: Goal, w: World, a: seq<Action>, b: seq<Action>, now: Time, sim: World) {
    && (AllValid(goal, w, a + b, now) <==> AllValid(goal, w, a, now) && AllValid(goal, sim, b, now))
    && SimulateAll(w, a + b) == SimulateAll(sim, b)
  }

  lemma SplitsNext(goal: Goal, w: World, a: seq<Action>, b: seq<Action>, now: Time, sim: World, last: Action, mid: World, all: seq<Action>)
    requires Splits(goal, w, a, b, now, sim) && SimulateAll(sim, b) == Ok(mid) && all == b + [last]
    ensures Splits(goal, w, a, all, now, sim)
  {
    ValidSnoc(goal, sim, b, last, now, mid);
    ValidSnoc(goal, w, a + b, last, now, mid);
    assert (a + b) + [last] == a + all;
  }

  lemma SplitsFirst(goal: Goal, w: World, a: seq<Action>, now: Time, sim: World)
    requires SimulateAll(w, a) == Ok(sim)
    ensures Splits(goal, w, a, [], now, sim)
  {
    assert a + [] == a;
  }

  lemma {:induction false} ValidConcat(goal: Goal, w: World, a: seq<Action>, b: seq<Action>, now: Time, sim: World)
    requires SimulateAll(w, a) == Ok(sim) && SimulateAll(sim, b).Ok?
    ensures Splits(goal, w, a, b, now, sim)
    decreases |b|
  {
    if b == [] {
      SplitsFirst(goal, w, a, now, sim);
    } else {
      var front, last := b[..|b| - 1], b[|b| - 1];
      assert b == front + [last];
      SimulatedBefore(sim, b, front, last);
      ValidConcat(goal, w, a, front, now, sim);
      SplitsNext(goal, w, a, front, now, sim, last, SimulateAll(sim, front).value, b);
    }
  }

  // ---- One replica's actions after its creation ----

  function Put(sim: World, id: Id, x: Allocation): World { sim.(allocations := sim.allocations[id := x]) }

  /** Tools that change things are granted only with an approval. */
  ghost predicate ToolsApproved(goal: Goal, w: World, now: Time) {
    goal.workload.runtime.Some? && (exists i :: 0 <= i < |goal.workload.runtime.value.tools| && goal.workload.runtime.value.tools[i].mutating) ==>
      HasApproval(w, goal.id, "agent-mutating-tools", now)
  }

  /** An agent starts only with something to spend in every dimension. */
  predicate BudgetGiven(goal: Goal) {
    goal.workload.runtime.Some? ==>
      !goal.workload.runtime.value.budget.IsZero() && !NO_BUDGET.Exhausts(goal.workload.runtime.value.budget)
  }

  function Granted(goal: Goal, x: Allocation): Allocation {
    if goal.workload.runtime.Some? && goal.workload.runtime.value.tools != [] then x.(tools := goal.workload.runtime.value.tools) else x
  }

  function Mounted(secrets: map<Id, string>, refs: seq<SecretRef>): map<Id, string> {
    if refs == [] then secrets else Mounted(secrets, refs[..|refs| - 1])[refs[|refs| - 1].name := refs[|refs| - 1].version]
  }

  function Networked(goal: Goal, x: Allocation): Allocation { if goal.workload.port > 0 then x.(address := "simulated") else x }

  lemma OneValid(goal: Goal, sim: World, a: Action, now: Time)
    ensures AllValid(goal, sim, [a], now) <==> Validate(goal, sim, a, now)
    ensures SimulateAll(sim, [a]) == Simulate(sim, a)
  {
    assert [a][..0] == [] && AllValid(goal, sim, [], now);
    SimulateOne(sim, a);
  }

  lemma SameApprovals(w: World, sim: World, goal: Id, scope: string, now: Time)
    requires sim.approvals == w.approvals
    ensures HasApproval(sim, goal, scope, now) <==> HasApproval(w, goal, scope, now)
  {
  }

  lemma GrantsValid(goal: Goal, w: World, sim: World, n: Node, id: Id, now: Time)
    requires sim.approvals == w.approvals && id in sim.allocations && sim.allocations[id].phase == Created
    ensures AllValid(goal, sim, GrantSteps(goal, n, id), now) <==> ToolsApproved(goal, w, now)
    ensures SimulateAll(sim, GrantSteps(goal, n, id)) == Ok(Put(sim, id, Granted(goal, sim.allocations[id])))
  {
    var steps := GrantSteps(goal, n, id);
    SameApprovals(w, sim, goal.id, "agent-mutating-tools", now);
    if steps == [] {
      assert Put(sim, id, sim.allocations[id]) == sim;
    } else {
      assert steps == [steps[0]];
      OneValid(goal, sim, steps[0], now);
      SimulatedOnTarget(sim, steps[0], id, Granted(goal, sim.allocations[id]));
      assert Validate(goal, sim, steps[0], now) <==> GrantAllowed(goal, sim, steps[0], now);
    }
  }

  lemma MountValid(goal: Goal, sim: World, n: Node, id: Id, ref: SecretRef, now: Time)
    requires id in sim.allocations && sim.allocations[id].phase == Created && ref in goal.workload.secrets
    ensures Validate(goal, sim, MountStep(goal, n, id, ref), now)
    ensures var x := sim.allocations[id];
            Simulate(sim, MountStep(goal, n, id, ref)) == Ok(Put(sim, id, x.(secrets := x.secrets[ref.name := ref.version])))
  {
    var x := sim.allocations[id];
    SimulatedOnTarget(sim, MountStep(goal, n, id, ref), id, x.(secrets := x.secrets[ref.name := ref.version]));
  }

  lemma PutTwice(sim: World, id: Id, x: Allocation, y: Allocation)
    ensures Put(Put(sim, id, x), id, y) == Put(sim, id, y)
  {
    assert sim.allocations[id := x][id := y] == sim.allocations[id := y];
  }

  lemma PutSame(sim: World, id: Id)
    requires id in sim.allocations
    ensures Put(sim, id, sim.allocations[id]) == sim
  {
    assert sim.allocations[id := sim.allocations[id]] == sim.allocations;
  }

  lemma {:induction false} MountsValid(goal: Goal, sim: World, n: Node, id: Id, refs: seq<SecretRef>, now: Time)
    requires id in sim.allocations && sim.allocations[id].phase == Created && forall i :: 0 <= i < |refs| ==> refs[i] in goal.workload.secrets
    ensures AllValid(goal, sim, SecretSteps(goal, n, id, refs), now)
    ensures var x := sim.allocations[id];
            SimulateAll(sim, SecretSteps(goal, n, id, refs)) == Ok(Put(sim, id, x.(secrets := Mounted(x.secrets, refs))))
    decreases |refs|
  {
    var x := sim.allocations[id];
    if refs == [] {
      PutSame(sim, id);
    } else {
      var front, ref := refs[..|refs| - 1], refs[|refs| - 1];
      MountsValid(goal, sim, n, id, front, now);
      var y := x.(secrets := Mounted(x.secrets, front));
      ValidSnoc(goal, sim, SecretSteps(goal, n, id, front), MountStep(goal, n, id, ref), now, Put(sim, id, y));
      MountValid(goal, Put(sim, id, y), n, id, ref, now);
      PutTwice(sim, id, y, x.(secrets := Mounted(x.secrets, refs)));
    }
  }

  lemma NetworkValid(goal: Goal, sim: World, n: Node, id: Id, now: Time)
    requires id in sim.allocations && sim.allocations[id].phase == Created && sim.allocations[id].workload == goal.workload.name
    ensures AllValid(goal, sim, NetworkSteps(goal, n, id), now)
    ensures SimulateAll(sim, NetworkSteps(goal, n, id)) == Ok(Put(sim, id, Networked(goal, sim.allocations[id])))
  {
    var steps := NetworkSteps(goal, n, id);
    if steps == [] {
      PutSame(sim, id);
    } else {
      assert steps == [steps[0]];
      OneValid(goal, sim, steps[0], now);
      SimulatedOnTarget(sim, steps[0], id, Networked(goal, sim.allocations[id]));
    }
  }

  /** What distinct references mount is what the start asks for. */
  lemma {:induction false} MountedAre(secrets: map<Id, string>, refs: seq<SecretRef>, i: nat)
    requires DistinctSecrets(refs) && i < |refs|
    ensures refs[i].name in Mounted(secrets, refs) && Mounted(secrets, refs)[refs[i].name] == refs[i].version
    decreases |refs|
  {
    if i < |refs| - 1 { MountedAre(secrets, refs[..|refs| - 1], i); }
  }

  function Furnished(goal: Goal, x: Allocation): Allocation {
    var y := Granted(goal, x);
    y.(secrets := Mounted(y.secrets, goal.workload.secrets))
  }

  /** An allocation with everything prepared. */
  function Prepared(goal: Goal, x: Allocation): Allocation {
    Networked(goal, Furnished(goal, x))
  }

  lemma PreparedHolds(goal: Goal, x: Allocation)
    requires DistinctSecrets(goal.workload.secrets)
    ensures HoldsSecrets(goal, Prepared(goal, x))
  {
    var refs, y := goal.workload.secrets, Prepared(goal, x);
    forall i | 0 <= i < |refs| ensures (if refs[i].name in y.secrets then y.secrets[refs[i].name] else "") == refs[i].version {
      MountedAre(Granted(goal, x).secrets, refs, i);
    }
  }

  function Made(goal: Goal, n: Node, id: Id, replica: int): Allocation {
    Fresh(id, goal.workload.name, replica, n.id, goal.workload.image, goal.workload.resources,
          if goal.workload.runtime.Some? then goal.workload.runtime.value.budget else NO_BUDGET)
  }

  lemma StartSimulated(goal: Goal, sim: World, volumes: map<Id, Volume>, n: Node, id: Id)
    requires id in sim.allocations
    ensures Simulate(sim, StartStep(goal, volumes, n, id)) == Ok(Put(sim, id, sim.allocations[id].(phase := Running, ready := true)))
  {
    StartPrepares(goal, volumes, n, id);
    SimulatedOnTarget(sim, StartStep(goal, volumes, n, id), id, sim.allocations[id].(phase := Running, ready := true));
  }

  lemma PreparedFields(goal: Goal, x: Allocation)
    ensures var y := Prepared(goal, x);
            && y.phase == x.phase && y.workload == x.workload && y.budget == x.budget && y.spent == x.spent
            && (goal.workload.port > 0 ==> y.address != "")
            && (goal.workload.runtime.Some? && goal.workload.runtime.value.tools != [] ==> y.tools != [])
  {
  }

  lemma StartValid(goal: Goal, sim: World, volumes: map<Id, Volume>, n: Node, id: Id, replica: int, now: Time)
    requires goal.workload.volumes == [] && DistinctSecrets(goal.workload.secrets)
    requires id in sim.allocations && sim.allocations[id] == Prepared(goal, Made(goal, n, id, replica))
    ensures Validate(goal, sim, StartStep(goal, volumes, n, id), now) <==> BudgetGiven(goal)
  {
    var a := StartStep(goal, volumes, n, id);
    PreparedHolds(goal, Made(goal, n, id, replica));
    PreparedFields(goal, Made(goal, n, id, replica));
    MayStart(goal, sim, a, id, sim.allocations[id]);
    assert Validate(goal, sim, a, now) <==> StartAllowed(goal, sim, a);
  }

  lemma MayStart(goal: Goal, sim: World, a: Action, id: Id, y: Allocation)
    requires goal.workload.volumes == [] && a.target == id && a.workload == goal.workload.name
    requires id in sim.allocations && sim.allocations[id] == y && HoldsSecrets(goal, y)
    requires y.phase == Created && y.workload == goal.workload.name && y.spent == NO_BUDGET
    requires goal.workload.runtime.Some? ==> y.budget == goal.workload.runtime.value.budget
    requires goal.workload.port > 0 ==> y.address != ""
    requires goal.workload.runtime.Some? && goal.workload.runtime.value.tools != [] ==> y.tools != []
    ensures StartAllowed(goal, sim, a) <==> BudgetGiven(goal)
  {
  }

  lemma FurnishingValid(goal: Goal, w: World, sim: World, n: Node, id: Id, now: Time)
    requires sim.approvals == w.approvals && id in sim.allocations && sim.allocations[id].phase == Created
    ensures var steps := GrantSteps(goal, n, id) + SecretSteps(goal, n, id, goal.workload.secrets);
            && (AllValid(goal, sim, steps, now) <==> ToolsApproved(goal, w, now))
            && SimulateAll(sim, steps) == Ok(Put(sim, id, Furnished(goal, sim.allocations[id])))
  {
    var g, m := GrantSteps(goal, n, id), SecretSteps(goal, n, id, goal.workload.secrets);
    var y := Granted(goal, sim.allocations[id]);
    GrantsValid(goal, w, sim, n, id, now);
    MountsValid(goal, Put(sim, id, y), n, id, goal.workload.secrets, now);
    PutTwice(sim, id, y, Furnished(goal, sim.allocations[id]));
    ValidConcat(goal, sim, g, m, now, Put(sim, id, y));
  }

  lemma PreparationsAre(goal: Goal, volumes: map<Id, Volume>, n: Node, id: Id)
    requires goal.workload.volumes == []
    ensures Preparations(goal, volumes, n, id) ==
            (GrantSteps(goal, n, id) + SecretSteps(goal, n, id, goal.workload.secrets)) + NetworkSteps(goal, n, id)
  {
    assert GrantSteps(goal, n, id) + [] == GrantSteps(goal, n, id);
  }

  lemma PreparationsValid(goal: Goal, w: World, sim: World, volumes: map<Id, Volume>, n: Node, id: Id, now: Time)
    requires goal.workload.volumes == [] && sim.approvals == w.approvals
    requires id in sim.allocations && sim.allocations[id].phase == Created && sim.allocations[id].workload == goal.workload.name
    ensures AllValid(goal, sim, Preparations(goal, volumes, n, id), now) <==> ToolsApproved(goal, w, now)
    ensures SimulateAll(sim, Preparations(goal, volumes, n, id)) == Ok(Put(sim, id, Prepared(goal, sim.allocations[id])))
  {
    var g, m, a := GrantSteps(goal, n, id), SecretSteps(goal, n, id, goal.workload.secrets), NetworkSteps(goal, n, id);
    var z := Furnished(goal, sim.allocations[id]);
    PreparationsAre(goal, volumes, n, id);
    FurnishingValid(goal, w, sim, n, id, now);
    NetworkValid(goal, Put(sim, id, z), n, id, now);
    PutTwice(sim, id, z, Networked(goal, z));
    ValidConcat(goal, sim, g + m, a, now, Put(sim, id, z));
  }

  lemma AfterCreateValid(goal: Goal, w: World, sim: World, volumes: map<Id, Volume>, n: Node, id: Id, replica: int, now: Time)
    requires goal.workload.volumes == [] && DistinctSecrets(goal.workload.secrets) && sim.approvals == w.approvals
    requires id in sim.allocations && sim.allocations[id] == Made(goal, n, id, replica)
    ensures AllValid(goal, sim, AfterCreate(goal, volumes, n, id), now) <==> ToolsApproved(goal, w, now) && BudgetGiven(goal)
    ensures SimulateAll(sim, AfterCreate(goal, volumes, n, id)).Ok?
    ensures SimulateAll(sim, AfterCreate(goal, volumes, n, id)).value.approvals == w.approvals
  {
    var ready := Put(sim, id, Prepared(goal, sim.allocations[id]));
    PreparationsValid(goal, w, sim, volumes, n, id, now);
    ValidSnoc(goal, sim, Preparations(goal, volumes, n, id), StartStep(goal, volumes, n, id), now, ready);
    StartValid(goal, ready, volumes, n, id, replica, now);
    StartSimulated(goal, ready, volumes, n, id);
  }

  // ---- One replica ----

  /** Everything asked of a replica's actions beyond what placement looks at. */
  ghost predicate Cleared(goal: Goal, w: World, now: Time) { ToolsApproved(goal, w, now) && BudgetGiven(goal) }

  lemma PullsCleared(goal: Goal, sim: World, n: Node, id: Id, now: Time)
    requires HealthyNode(sim, n.id)
    ensures AllValid(goal, sim, PullSteps(goal, n, id), now) <==> (goal.workload.image !in n.images ==> Pinned(goal.workload.image))
    ensures SimulateAll(sim, PullSteps(goal, n, id)).Ok?
    ensures SimulateAll(sim, PullSteps(goal, n, id)).value.approvals == sim.approvals
  {
    var pulls := PullSteps(goal, n, id);
    if pulls != [] {
      assert pulls == [pulls[0]];
      OneValid(goal, sim, pulls[0], now);
      SimulatedPull(sim, pulls[0]);
    }
  }

  lemma PullsValid(goal: Goal, w: World, sim: World, t: Taken, n: Id, id: Id, now: Time, exact: bool) returns (after: World)
    requires Tracks(goal, w, sim, t, exact) && NamedNodes(w.nodes) && n in w.nodes && Candidate(goal, w.nodes[n], t, now)
    ensures SimulateAll(sim, PullSteps(goal, w.nodes[n], id)) == Ok(after)
    ensures AllValid(goal, sim, PullSteps(goal, w.nodes[n], id), now) <==>
            (goal.workload.image !in w.nodes[n].images ==> Pinned(goal.workload.image))
    ensures Tracks(goal, w, after, t, exact) && goal.workload.image in after.nodes[n].images
    ensures after.allocations == sim.allocations && after.approvals == sim.approvals
  {
    after := PullsTrack(goal, w, sim, t, n, id, exact);
    assert TracksNode(w.nodes[n], sim.nodes[n], t);
    PullsCleared(goal, sim, w.nodes[n], id, now);
  }

  lemma CreateValid(goal: Goal, w: World, sim: World, t: Taken, n: Id, replica: int, id: Id, now: Time, exact: bool) returns (after: World)
    requires Tracks(goal, w, sim, t, exact) && NamedNodes(w.nodes) && n in w.nodes && Candidate(goal, w.nodes[n], t, now)
    requires 0 <= replica < AuthorizedReplicas(goal, w) && goal.workload.image in sim.nodes[n].images
    requires id == AllocationID(goal.workload.name, replica)
    ensures SimulateAll(sim, [CreateStep(goal, w.nodes[n], id, replica)]) == Ok(after) && after.approvals == sim.approvals
    ensures id in after.allocations && after.allocations[id] == Made(goal, w.nodes[n], id, replica)
    ensures AllValid(goal, sim, [CreateStep(goal, w.nodes[n], id, replica)], now) <==> id !in sim.allocations
  {
    var create := CreateStep(goal, w.nodes[n], id, replica);
    CandidateFits(goal, w, sim, t, n, replica, now, exact);
    OneValid(goal, sim, create, now);
    SimulatedCreation(sim, create);
    after := SimulateCreate(sim, create).value;
  }

  lemma CreationValid(goal: Goal, w: World, sim: World, t: Taken, n: Id, replica: int, id: Id, now: Time, exact: bool) returns (after: World)
    requires goal.workload.volumes == [] && DistinctSecrets(goal.workload.secrets) && sim.approvals == w.approvals
    requires Tracks(goal, w, sim, t, exact) && NamedNodes(w.nodes) && n in w.nodes && Candidate(goal, w.nodes[n], t, now)
    requires 0 <= replica < AuthorizedReplicas(goal, w) && goal.workload.image in sim.nodes[n].images
    requires id == AllocationID(goal.workload.name, replica)
    ensures var steps := [CreateStep(goal, w.nodes[n], id, replica)] + AfterCreate(goal, w.volumes, w.nodes[n], id);
            && SimulateAll(sim, steps) == Ok(after) && after.approvals == w.approvals
            && (AllValid(goal, sim, steps, now) <==> id !in sim.allocations && Cleared(goal, w, now))
  {
    var create, rest := CreateStep(goal, w.nodes[n], id, replica), AfterCreate(goal, w.volumes, w.nodes[n], id);
    var made := CreateValid(goal, w, sim, t, n, replica, id, now, exact);
    AfterCreateValid(goal, w, made, w.volumes, w.nodes[n], id, replica, now);
    ValidConcat(goal, sim, [create], rest, now, made);
    after := SimulateAll(made, rest).value;
  }

  lemma StepsAre(goal: Goal, volumes: map<Id, Volume>, n: Node, replica: int, id: Id)
    requires id == AllocationID(goal.workload.name, replica)
    ensures ReplicaSteps(goal, volumes, n, replica) ==
            PullSteps(goal, n, id) + ([CreateStep(goal, n, id, replica)] + AfterCreate(goal, volumes, n, id))
  {
  }

  /** One replica's actions are valid exactly when its id is free, an image to pull is pinned and the goal is cleared. */
  lemma ReplicaValid(goal: Goal, w: World, sim: World, t: Taken, n: Id, replica: int, id: Id, now: Time, exact: bool) returns (after: World)
    requires goal.workload.volumes == [] && DistinctSecrets(goal.workload.secrets) && sim.approvals == w.approvals
    requires Tracks(goal, w, sim, t, exact) && NamedNodes(w.nodes) && n in w.nodes && Candidate(goal, w.nodes[n], t, now)
    requires 0 <= replica < AuthorizedReplicas(goal, w) && id == AllocationID(goal.workload.name, replica)
    ensures SimulateAll(sim, ReplicaSteps(goal, w.volumes, w.nodes[n], replica)) == Ok(after) && after.approvals == w.approvals
    ensures AllValid(goal, sim, ReplicaSteps(goal, w.volumes, w.nodes[n], replica), now) <==>
            && id !in sim.allocations && Cleared(goal, w, now)
            && (goal.workload.image !in w.nodes[n].images ==> Pinned(goal.workload.image))
  {
    var pulls := PullSteps(goal, w.nodes[n], id);
    var rest := [CreateStep(goal, w.nodes[n], id, replica)] + AfterCreate(goal, w.volumes, w.nodes[n], id);
    var ready := PullsValid(goal, w, sim, t, n, id, now, exact);
    after := CreationValid(goal, w, ready, t, n, replica, id, now, exact);
    ValidConcat(goal, sim, pulls, rest, now, ready);
    StepsAre(goal, w.volumes, w.nodes[n], replica, id);
  }

  // ---- The whole proposal ----

  /** No slot's id is taken, an image to pull is pinned, and the goal is cleared if anything starts. */
  ghost predicate Terms(goal: Goal, w: World, plan: seq<Action>, slots: seq<int>, now: Time) {
    (slots != [] ==> Cleared(goal, w, now)) && (PullCount(plan) > 0 ==> Pinned(goal.workload.image)) && IdsFree(goal, w, slots)
  }

  ghost predicate IdsFree(goal: Goal, w: World, slots: seq<int>) {
    forall i :: 0 <= i < |slots| ==> AllocationID(goal.workload.name, slots[i]) !in w.allocations
  }

  lemma IdsFreeNext(goal: Goal, w: World, slots: seq<int>, slot: int)
    ensures IdsFree(goal, w, slots + [slot]) <==> IdsFree(goal, w, slots) && AllocationID(goal.workload.name, slot) !in w.allocations
  {
    var all := slots + [slot];
    assert all[|slots|] == slot;
    assert forall i :: 0 <= i < |slots| ==> all[i] == slots[i];
  }

  lemma ReplicaPullCount(goal: Goal, volumes: map<Id, Volume>, n: Node, replica: int)
    ensures PullCount(ReplicaSteps(goal, volumes, n, replica)) == if goal.workload.image in n.images then 0 else 1
  {
    var id := AllocationID(goal.workload.name, replica);
    PullsOfOne(goal, n, id);
    AfterPullsPullNothing(goal, volumes, n, id, replica);
    PullsConcat(PullSteps(goal, n, id), [CreateStep(goal, n, id, replica)] + AfterCreate(goal, volumes, n, id));
  }

  lemma TermsNext(goal: Goal, w: World, plan: seq<Action>, slots: seq<int>, steps: seq<Action>, n: Node, slot: int, now: Time)
    requires steps == ReplicaSteps(goal, w.volumes, n, slot)
    ensures Terms(goal, w, plan + steps, slots + [slot], now) <==>
            && Terms(goal, w, plan, slots, now) && Cleared(goal, w, now) && AllocationID(goal.workload.name, slot) !in w.allocations
            && (goal.workload.image !in n.images ==> Pinned(goal.workload.image))
  {
    ReplicaPullCount(goal, w.volumes, n, slot);
    PullsConcat(plan, steps);
    IdsFreeNext(goal, w, slots, slot);
  }

  /** The simulated world has lost no approval and no allocation. */
  ghost predicate Standing(w: World, plan: seq<Action>) {
    && SimulateAll(w, plan).Ok?
    && SimulateAll(w, plan).value.approvals == w.approvals && w.allocations.Keys <= SimulateAll(w, plan).value.allocations.Keys
  }

  ghost predicate Judged(goal: Goal, w: World, plan: seq<Action>, slots: seq<int>, now: Time) {
    Standing(w, plan) && (AllValid(goal, w, plan, now) <==> Terms(goal, w, plan, slots, now))
  }

  lemma FreeExactly(goal: Goal, w: World, sim: World, slot: nat, id: Id)
    requires FilledBelow(goal, w, sim, slot) && w.allocations.Keys <= sim.allocations.Keys && id == AllocationID(goal.workload.name, slot)
    ensures id in sim.allocations <==> id in w.allocations
  {
    if id in sim.allocations && id !in w.allocations {
      var r :| 0 <= r < slot && id == AllocationID(goal.workload.name, r);
      Names.NumberedIsUnique(goal.workload.name, r, goal.workload.name, slot);
      assert false;
    }
  }

  lemma JudgedNext(goal: Goal, w: World, plan: seq<Action>, t: Taken, slots: seq<int>, n: Id, slot: nat, now: Time, steps: seq<Action>)
    requires goal.workload.volumes == [] && DistinctSecrets(goal.workload.secrets) && NamedNodes(w.nodes) && n in w.nodes
    requires Candidate(goal, w.nodes[n], t, now) && slot < AuthorizedReplicas(goal, w) && Booked(goal, w, plan, t, slot)
    requires Judged(goal, w, plan, slots, now) && steps == ReplicaSteps(goal, w.volumes, w.nodes[n], slot)
    ensures Judged(goal, w, plan + steps, slots + [slot], now)
  {
    var sim, id, exact := SimulateAll(w, plan).value, AllocationID(goal.workload.name, slot), Unclaimed(goal, w);
    FreeExactly(goal, w, sim, slot, id);
    var after := ReplicaValid(goal, w, sim, t, n, slot, id, now, exact);
    var same := ReplicaTracks(goal, w, sim, t, n, slot, id, exact);
    ValidConcat(goal, w, plan, steps, now, sim);
    TermsNext(goal, w, plan, slots, steps, w.nodes[n], slot, now);
  }

  lemma NothingJudged(goal: Goal, w: World, now: Time)
    ensures Judged(goal, w, [], [], now)
  {
  }

  lemma DraftStep(goal: Goal, w: World, ids: seq<Id>, filled: set<int>, now: Time, e: Draft, slot: nat, d: Draft, slots: seq<int>)
    requires (forall id :: id in ids ==> id in w.nodes) && NamedNodes(w.nodes) && DistinctSecrets(goal.workload.secrets)
    requires goal.workload.volumes == [] && slot < AuthorizedReplicas(goal, w) && slot !in filled
    requires Placement.Succeeds(goal, w, ids, filled, now, e, slot, d) && InHand(goal, w, e.plan, e.taken, slot, now)
    requires Judged(goal, w, e.plan, slots, now)
    ensures Judged(goal, w, d.plan, slots + [slot], now)
  {
    var n := Chosen(goal, w, ids, e.taken, now).value;
    ChosenIsCandidate(goal, w, ids, e.taken, now, n);
    JudgedNext(goal, w, e.plan, e.taken, slots, n, slot, now, StepsOn(goal, w, n, slot));
  }

  lemma NumberStep(goal: Goal, w: World, ids: seq<Id>, filled: set<int>, now: Time, e: Draft, k: nat, d: Draft)
    requires (forall id :: id in ids ==> id in w.nodes) && NamedNodes(w.nodes) && DistinctSecrets(goal.workload.secrets)
    requires goal.workload.volumes == [] && k < AuthorizedReplicas(goal, w)
    requires Placement.Succeeds(goal, w, ids, filled, now, e, k, d) && InHand(goal, w, e.plan, e.taken, k, now)
    requires Judged(goal, w, e.plan, MissingBelow(filled, k), now)
    ensures Judged(goal, w, d.plan, MissingBelow(filled, k + 1), now)
  {
    MissingNext(filled, k);
    if k !in filled { DraftStep(goal, w, ids, filled, now, e, k, d, MissingBelow(filled, k)); }
  }

  /** Every draft on the way is in hand. */
  ghost predicate AllInHand(goal: Goal, w: World, ids: seq<Id>, filled: set<int>, n: nat, t: Taken, now: Time)
    requires forall id :: id in ids ==> id in w.nodes
  {
    forall k: nat, d :: k <= n && DraftBelow(goal, w, ids, filled, k, t, now) == Ok(d) ==> InHand(goal, w, d.plan, d.taken, k, now)
  }

  lemma DraftsInHand(goal: Goal, w: World, ids: seq<Id>, filled: set<int>, n: nat, t: Taken, now: Time)
    requires (forall id :: id in ids ==> id in w.nodes) && NamedNodes(w.nodes) && DistinctSecrets(goal.workload.secrets)
    requires goal.workload.volumes == [] && filled == FilledSlots(goal, w) && n <= Max(0, AuthorizedReplicas(goal, w))
    requires InHand(goal, w, [], t, 0, now)
    ensures AllInHand(goal, w, ids, filled, n, t, now)
  {
    forall k: nat, d | k <= n && DraftBelow(goal, w, ids, filled, k, t, now) == Ok(d) ensures InHand(goal, w, d.plan, d.taken, k, now) {
      DraftIsInHand(goal, w, ids, filled, k, t, now, d);
    }
  }

  /** A draft is valid throughout exactly on these terms. */
  lemma {:induction false} DraftIsJudged(goal: Goal, w: World, ids: seq<Id>, filled: set<int>, n: nat, t: Taken, now: Time, d: Draft)
    requires (forall id :: id in ids ==> id in w.nodes) && NamedNodes(w.nodes) && DistinctSecrets(goal.workload.secrets)
    requires goal.workload.volumes == [] && n <= Max(0, AuthorizedReplicas(goal, w)) && AllInHand(goal, w, ids, filled, n, t, now)
    requires DraftBelow(goal, w, ids, filled, n, t, now) == Ok(d)
    ensures Judged(goal, w, d.plan, MissingBelow(filled, n), now)
    decreases n
  {
    if n == 0 {
      NothingJudged(goal, w, now);
    } else {
      var k: nat := n - 1;
      var e := DraftFollows(goal, w, ids, filled, k, t, now, d);
      DraftIsJudged(goal, w, ids, filled, k, t, now, e);
      NumberStep(goal, w, ids, filled, now, e, k, d);
      assert k + 1 == n;
    }
  }

  // ---- From the proposal back to its draft ----

  lemma DraftGoesOn(goal: Goal, w: World, ids: seq<Id>, filled: set<int>, k: nat, t: Taken, now: Time, e: Draft)
    requires (forall id :: id in ids ==> id in w.nodes) && DraftBelow(goal, w, ids, filled, k, t, now) == Ok(e) && k !in filled
    requires Picked(goal, w, ids, |MissingBelow(filled, k)| + 1, t, now).Some?
    ensures DraftBelow(goal, w, ids, filled, k + 1, t, now).Ok?
  {
    var nodes, batches := DraftIsReached(goal, w, ids, filled, k, t, now, e);
  }

  lemma {:induction false} DraftExists(goal: Goal, w: World, ids: seq<Id>, filled: set<int>, n: nat, t: Taken, now: Time)
    requires (forall id :: id in ids ==> id in w.nodes) && Picked(goal, w, ids, |MissingBelow(filled, n)|, t, now).Some?
    ensures DraftBelow(goal, w, ids, filled, n, t, now).Ok?
    decreases n
  {
    if n > 0 {
      var k: nat := n - 1;
      MissingNext(filled, k);
      PickedStep(goal, w, ids, |MissingBelow(filled, k)|, t, now);
      DraftExists(goal, w, ids, filled, k, t, now);
      if k !in filled { DraftGoesOn(goal, w, ids, filled, k, t, now, DraftBelow(goal, w, ids, filled, k, t, now).value); }
    }
  }

  /** The slots of a proposal are the missing ones below some number. */
  lemma {:induction false} SlotsEnd(filled: set<int>, desired: int) returns (n: nat)
    ensures n <= Max(0, desired) && Slots(filled, desired) == MissingBelow(filled, n)
  {
    if |MissingBelow(filled, desired)| <= MAX_REPLICAS_PER_PROPOSAL {
      n := Max(0, desired);
    } else {
      n := SlotsEnd(filled, desired - 1);
      var before, all := MissingBelow(filled, desired - 1), MissingBelow(filled, desired);
      assert all[..MAX_REPLICAS_PER_PROPOSAL] == before[..MAX_REPLICAS_PER_PROPOSAL];
    }
  }

  lemma DraftIsProposal(goal: Goal, w: World, ids: seq<Id>, filled: set<int>, n: nat, slots: seq<int>, t: Taken, now: Time, p: Proposal)
      returns (d: Draft)
    requires (forall id :: id in ids ==> id in w.nodes) && slots == MissingBelow(filled, n) && Outcome(goal, w, ids, slots, t, now, Ok(p))
    ensures DraftBelow(goal, w, ids, filled, n, t, now) == Ok(d) && d.plan == p.actions
  {
    DraftExists(goal, w, ids, filled, n, t, now);
    d := DraftBelow(goal, w, ids, filled, n, t, now).value;
    var nodes, batches := DraftIsReached(goal, w, ids, filled, n, t, now, d);
    BatchesArePlan(goal, w, nodes, slots, batches);
  }

  /** For a goal without volumes the kernel accepts the whole proposal exactly on these terms. */
  lemma AcceptedExactly(goal: Goal, w: World, ids: seq<Id>, slots: seq<int>, counts: map<Id, int>, now: Time, p: Proposal)
    requires (forall id :: id in ids ==> id in w.nodes) && NamedNodes(w.nodes) && DistinctSecrets(goal.workload.secrets)
    requires goal.workload.volumes == [] && goal.workload.replicas >= 0 && Tallies(counts, w, goal.workload.name)
    requires slots == Slots(FilledSlots(goal, w), Desired(goal, w, now)) && Outcome(goal, w, ids, slots, Taken(map[], map[], counts), now, Ok(p))
    ensures RunPlan(goal, PLACEMENT_GRANTS, w, p.actions, now).Ok? <==> Terms(goal, w, p.actions, slots, now)
  {
    var filled, t := FilledSlots(goal, w), Taken(map[], map[], counts);
    var n := SlotsEnd(filled, Desired(goal, w, now));
    DesiredIsAuthorized(goal, w, |filled|, now);
    NothingDrafted(goal, w, t, now);
    var d := DraftIsProposal(goal, w, ids, filled, n, slots, t, now, p);
    DraftsInHand(goal, w, ids, filled, n, t, now);
    DraftIsJudged(goal, w, ids, filled, n, t, now, d);
    InHandInTurn(goal, w, d, n, now);
    RunsExactly(goal, w, d.plan, now);
  }

  lemma InHandInTurn(goal: Goal, w: World, d: Draft, n: nat, now: Time)
    requires InHand(goal, w, d.plan, d.taken, n, now)
    ensures AllInTurn(d.plan)
  {
    InOrderIsInTurn(d.plan);
  }

  /** For an admitted goal that leaves two questions: are the slots' ids free, and are tools that change things
      approved? */
  lemma AdmittedAccepted(goal: Goal, w: World, ids: seq<Id>, slots: seq<int>, counts: map<Id, int>, now: Time, p: Proposal)
    requires (forall id :: id in ids ==> id in w.nodes) && NamedNodes(w.nodes) && Admitted(goal)
    requires goal.workload.volumes == [] && Tallies(counts, w, goal.workload.name)
    requires slots == Slots(FilledSlots(goal, w), Desired(goal, w, now)) && Outcome(goal, w, ids, slots, Taken(map[], map[], counts), now, Ok(p))
    ensures RunPlan(goal, PLACEMENT_GRANTS, w, p.actions, now).Ok? <==>
            (slots != [] ==> ToolsApproved(goal, w, now)) && IdsFree(goal, w, slots)
  {
    AdmittedIsValid(goal);
    AcceptedExactly(goal, w, ids, slots, counts, now, p);
  }
}
