/** Accepted plans that break a promise made elsewhere: the inputs behind the exact conditions. */
module Counterexamples {
  import opened Types
  import opened Ledger
  import opened Projection
  import opened Executor
  import opened Kernel
  import Governor
  import Availability
  import Cooldown
  import Admission

  // ---- Small worlds and plans ----

  const ONE := Resources(1, 1)

  function PlainNode(id: Id, used: Resources, image: string, reserved: Budget): Node {
    Node(id, map[], ONE.Add(ONE), used, {image}, true, "", false, "", "", "", map[], reserved, reserved)
  }

  function PlainWorld(nodes: map<Id, Node>, allocations: map<Id, Allocation>): World {
    World(0, 1, nodes, allocations, map[], map[], map[], map[], map[], [], map[])
  }

  /** What the goals, workloads and actions of the examples have in common. */
  datatype Order = Order(goal: Id, name: Id, image: string, port: int)

  function PlainGoal(o: Order, replicas: int, runtime: Option<AgentRuntime>): Goal {
    Goal(o.goal, Workload(o.name, o.image, replicas, o.port, ONE, [], [], "", runtime, 0), None, Constraints(map[], []), None)
  }

  function PlainAction(id: Id, kind: ActionKind, target: Id, o: Order, node: Id): Action {
    Action(id, kind, target, o.name, node, o.image, 0, ONE, 0, "", None, "", 0, false, None, None, [], None, [], NO_BUDGET,
           "", [])
  }

  lemma PlanSnoc(goal: Goal, grants: set<ActionKind>, w: World, done: seq<Action>, a: Action, now: Time, sim: World, next: World)
    requires RunPlan(goal, grants, w, done, now) == Ok(sim) && Simulate(sim, a) == Ok(next)
    requires InTurn(grants, done, a) && Validate(goal, sim, a, now)
    ensures RunPlan(goal, grants, w, done + [a], now) == Ok(next)
  {
    assert (done + [a])[..|done|] == done;
  }

  // ---- A plan that disrupts two failure domains at once ----

  /** An agent that may both create and delete. */
  function Tangler(agent: Id): Policy {
    Policy(8, map[agent := TANGLED_GRANTS], DEFAULT_MAX_DISRUPTIONS, DEFAULT_WINDOW, DEFAULT_COOLDOWN,
           NOTHING, 0, NO_BUDGET)
  }

  function Placing(o: Order, x: Id, node: Id): Allocation { Fresh(x, o.name, 0, node, o.image, ONE, NO_BUDGET) }

  function Yard(o: Order, home: Id, away: Id, atHome: Resources, atAway: Resources, xs: map<Id, Allocation>): World {
    PlainWorld(map[home := PlainNode(home, atHome, o.image, NO_BUDGET), away := PlainNode(away, atAway, o.image, NO_BUDGET)], xs)
  }

  /** Delete an allocation, create it again elsewhere and delete it there. */
  function Removal(o: Order, x: Id, home: Id): Action { PlainAction("1", DeleteAllocation, x, o, home) }
  function Return(o: Order, x: Id, away: Id): Action { PlainAction("2", CreateAllocation, x, o, away) }
  function SecondRemoval(o: Order, x: Id, away: Id): Action { PlainAction("3", DeleteAllocation, x, o, away) }

  function TangledPlan(o: Order, x: Id, home: Id, away: Id): seq<Action> {
    [] + [Removal(o, x, home)] + [Return(o, x, away)] + [SecondRemoval(o, x, away)]
  }

  function Start(o: Order, x: Id, home: Id, away: Id): World { Yard(o, home, away, ONE, NOTHING, map[x := Placing(o, x, home)]) }
  function Emptied(o: Order, home: Id, away: Id): World { Yard(o, home, away, NOTHING, NOTHING, map[]) }
  function Returned(o: Order, x: Id, home: Id, away: Id): World { Yard(o, home, away, NOTHING, ONE, map[x := Placing(o, x, away)]) }

  lemma RemovalSimulated(o: Order, x: Id, home: Id, away: Id)
    requires home != away
    ensures Simulate(Start(o, x, home, away), Removal(o, x, home)) == Ok(Emptied(o, home, away))
  {
    var w := Start(o, x, home, away);
    assert Simulate(w, Removal(o, x, home)) == SimulateDelete(w, Removal(o, x, home));
    assert w.allocations - {x} == map[];
    assert WithoutReserved(w.nodes, w.allocations[x]) == Emptied(o, home, away).nodes;
  }

  lemma YardPut(a: Node, b: Node, c: Node, home: Id, away: Id)
    requires home != away
    ensures map[home := a, away := b][away := c] == map[home := a, away := c]
  {
  }

  lemma NodeTakesOne(id: Id, image: string)
    ensures var n := PlainNode(id, NOTHING, image, NO_BUDGET);
            n.(used := n.used.Add(ONE), budgetUsed := n.budgetUsed.Add(NO_BUDGET)) == PlainNode(id, ONE, image, NO_BUDGET)
  {
  }

  /** The creation makes the one world out of the other. */
  ghost predicate Creates(w: World, a: Action, m: Node, n: Node, made: Allocation, after: World) {
    && a.kind == CreateAllocation && a.node in w.nodes && w.nodes[a.node] == m
    && made == Fresh(a.target, a.workload, a.replica, a.node, a.image, a.resources, a.budget)
    && n == m.(used := m.used.Add(a.resources), budgetUsed := m.budgetUsed.Add(a.budget))
    && after == w.(allocations := w.allocations[a.target := made], nodes := w.nodes[a.node := n])
  }

  lemma CreatedAs(w: World, a: Action, m: Node, n: Node, made: Allocation, after: World)
    requires Creates(w, a, m, n, made, after)
    ensures Simulate(w, a) == Ok(after)
  {
    assert Simulate(w, a) == SimulateCreate(w, a);
  }

  lemma ReturnedIs(o: Order, x: Id, home: Id, away: Id)
    requires home != away
    ensures var w := Emptied(o, home, away);
            w.(allocations := w.allocations[x := Placing(o, x, away)], nodes := w.nodes[away := PlainNode(away, ONE, o.image, NO_BUDGET)]) ==
            Returned(o, x, home, away)
  {
    var w := Emptied(o, home, away);
    YardPut(w.nodes[home], w.nodes[away], PlainNode(away, ONE, o.image, NO_BUDGET), home, away);
  }

  lemma EmptiedAway(o: Order, home: Id, away: Id)
    requires home != away
    ensures away in Emptied(o, home, away).nodes && Emptied(o, home, away).nodes[away] == PlainNode(away, NOTHING, o.image, NO_BUDGET)
  {
  }

  lemma ReturnMakes(o: Order, x: Id, away: Id)
    ensures var a, m := Return(o, x, away), PlainNode(away, NOTHING, o.image, NO_BUDGET);
            && a.kind == CreateAllocation && a.target == x && a.node == away
            && Placing(o, x, away) == Fresh(x, a.workload, a.replica, away, a.image, a.resources, a.budget)
            && PlainNode(away, ONE, o.image, NO_BUDGET) == m.(used := m.used.Add(a.resources), budgetUsed := m.budgetUsed.Add(a.budget))
  {
    NodeTakesOne(away, o.image);
  }

  lemma AreCreates(w: World, a: Action, x: Id, node: Id, m: Node, n: Node, made: Allocation, after: World)
    requires a.kind == CreateAllocation && a.target == x && a.node == node && node in w.nodes && w.nodes[node] == m
    requires made == Fresh(x, a.workload, a.replica, node, a.image, a.resources, a.budget)
    requires n == m.(used := m.used.Add(a.resources), budgetUsed := m.budgetUsed.Add(a.budget))
    requires w.(allocations := w.allocations[x := made], nodes := w.nodes[node := n]) == after
    ensures Creates(w, a, m, n, made, after)
  {
  }

  lemma ReturnCreates(o: Order, x: Id, home: Id, away: Id)
    requires home != away
    ensures Creates(Emptied(o, home, away), Return(o, x, away), PlainNode(away, NOTHING, o.image, NO_BUDGET),
                    PlainNode(away, ONE, o.image, NO_BUDGET), Placing(o, x, away), Returned(o, x, home, away))
  {
    EmptiedAway(o, home, away);
    ReturnMakes(o, x, away);
    ReturnedIs(o, x, home, away);
    AreCreates(Emptied(o, home, away), Return(o, x, away), x, away, PlainNode(away, NOTHING, o.image, NO_BUDGET),
               PlainNode(away, ONE, o.image, NO_BUDGET), Placing(o, x, away), Returned(o, x, home, away));
  }

  lemma ReturnSimulated(o: Order, x: Id, home: Id, away: Id)
    requires home != away
    ensures Simulate(Emptied(o, home, away), Return(o, x, away)) == Ok(Returned(o, x, home, away))
  {
    ReturnCreates(o, x, home, away);
    CreatedAs(Emptied(o, home, away), Return(o, x, away), PlainNode(away, NOTHING, o.image, NO_BUDGET),
              PlainNode(away, ONE, o.image, NO_BUDGET), Placing(o, x, away), Returned(o, x, home, away));
  }

  lemma SecondRemovalSimulated(o: Order, x: Id, home: Id, away: Id)
    requires home != away
    ensures Simulate(Returned(o, x, home, away), SecondRemoval(o, x, away)) == Ok(Emptied(o, home, away))
  {
    var w := Returned(o, x, home, away);
    assert Simulate(w, SecondRemoval(o, x, away)) == SimulateDelete(w, SecondRemoval(o, x, away));
    assert w.allocations - {x} == map[];
    assert WithoutReserved(w.nodes, w.allocations[x]) == Emptied(o, home, away).nodes;
  }

  const TANGLED_GRANTS: set<ActionKind> := {CreateAllocation, DeleteAllocation}
  function TangledGoal(o: Order): Goal { PlainGoal(o, 1, None) }

  lemma RemovalIsValid(o: Order, x: Id, home: Id, away: Id, now: Time)
    requires home != away
    ensures Validate(TangledGoal(o), Start(o, x, home, away), Removal(o, x, home), now)
    ensures InTurn(TANGLED_GRANTS, [], Removal(o, x, home))
  {
  }

  lemma ReturnIsValid(o: Order, x: Id, home: Id, away: Id, now: Time)
    requires home != away
    ensures Validate(TangledGoal(o), Emptied(o, home, away), Return(o, x, away), now)
    ensures InTurn(TANGLED_GRANTS, [] + [Removal(o, x, home)], Return(o, x, away))
  {
  }

  lemma SecondRemovalIsValid(o: Order, x: Id, home: Id, away: Id, now: Time)
    requires home != away
    ensures Validate(TangledGoal(o), Returned(o, x, home, away), SecondRemoval(o, x, away), now)
    ensures InTurn(TANGLED_GRANTS, [] + [Removal(o, x, home)] + [Return(o, x, away)], SecondRemoval(o, x, away))
  {
  }

  lemma HitsSnoc(goal: Goal, grants: set<ActionKind>, w: World, done: seq<Action>, a: Action, now: Time)
    requires RunPlan(goal, grants, w, done, now).Ok? && RunPlan(goal, grants, w, done + [a], now).Ok?
    ensures Cooldown.Hits(goal, grants, w, done + [a], now) ==
            Cooldown.Hits(goal, grants, w, done, now) + Cooldown.HitBy(RunPlan(goal, grants, w, done, now).value, a)
  {
    assert (done + [a])[..|done|] == done;
  }

  lemma RemovalRuns(o: Order, x: Id, home: Id, away: Id, now: Time)
    requires home != away
    ensures RunPlan(TangledGoal(o), TANGLED_GRANTS, Start(o, x, home, away), [] + [Removal(o, x, home)], now) ==
            Ok(Emptied(o, home, away))
  {
    var w := Start(o, x, home, away);
    RemovalSimulated(o, x, home, away);
    RemovalIsValid(o, x, home, away, now);
    PlanSnoc(TangledGoal(o), TANGLED_GRANTS, w, [], Removal(o, x, home), now, w, Emptied(o, home, away));
  }

  lemma ReturnRuns(o: Order, x: Id, home: Id, away: Id, now: Time)
    requires home != away
    ensures RunPlan(TangledGoal(o), TANGLED_GRANTS, Start(o, x, home, away), [] + [Removal(o, x, home)] + [Return(o, x, away)], now) ==
            Ok(Returned(o, x, home, away))
  {
    RemovalRuns(o, x, home, away, now);
    ReturnSimulated(o, x, home, away);
    ReturnIsValid(o, x, home, away, now);
    PlanSnoc(TangledGoal(o), TANGLED_GRANTS, Start(o, x, home, away), [] + [Removal(o, x, home)], Return(o, x, away), now,
             Emptied(o, home, away), Returned(o, x, home, away));
  }

  lemma TangledPlanIsValid(o: Order, x: Id, home: Id, away: Id, now: Time)
    requires home != away
    ensures RunPlan(TangledGoal(o), TANGLED_GRANTS, Start(o, x, home, away), TangledPlan(o, x, home, away), now) ==
            Ok(Emptied(o, home, away))
  {
    ReturnRuns(o, x, home, away, now);
    SecondRemovalSimulated(o, x, home, away);
    SecondRemovalIsValid(o, x, home, away, now);
    PlanSnoc(TangledGoal(o), TANGLED_GRANTS, Start(o, x, home, away), [] + [Removal(o, x, home)] + [Return(o, x, away)],
             SecondRemoval(o, x, away), now, Returned(o, x, home, away), Emptied(o, home, away));
  }

  lemma RemovalHits(o: Order, x: Id, home: Id, away: Id)
    requires home != away
    ensures Cooldown.HitBy(Start(o, x, home, away), Removal(o, x, home)) == [home]
    ensures Cooldown.HitBy(Emptied(o, home, away), Return(o, x, away)) == []
    ensures Cooldown.HitBy(Returned(o, x, home, away), SecondRemoval(o, x, away)) == [away]
  {
  }

  lemma TangledHits(o: Order, x: Id, home: Id, away: Id, now: Time)
    requires home != away
    ensures RunPlan(TangledGoal(o), TANGLED_GRANTS, Start(o, x, home, away), TangledPlan(o, x, home, away), now).Ok?
    ensures Cooldown.Hits(TangledGoal(o), TANGLED_GRANTS, Start(o, x, home, away), TangledPlan(o, x, home, away), now) ==
            [home] + [away]
  {
    var goal, w, a, b, c := TangledGoal(o), Start(o, x, home, away), Removal(o, x, home), Return(o, x, away), SecondRemoval(o, x, away);
    RemovalRuns(o, x, home, away, now);
    ReturnRuns(o, x, home, away, now);
    TangledPlanIsValid(o, x, home, away, now);
    RemovalHits(o, x, home, away);
    HitsSnoc(goal, TANGLED_GRANTS, w, [], a, now);
    HitsSnoc(goal, TANGLED_GRANTS, w, [] + [a], b, now);
    HitsSnoc(goal, TANGLED_GRANTS, w, [] + [a] + [b], c, now);
  }

  /** The plan does not meet the condition that the cooldown needs. */
  lemma TangledPlanHitsTwoDomains(o: Order, x: Id, home: Id, away: Id, cooldown: Duration, history: seq<Disruption>, now: Time)
    requires home != away
    ensures RunPlan(TangledGoal(o), TANGLED_GRANTS, Start(o, x, home, away), TangledPlan(o, x, home, away), now).Ok?
    ensures !Cooldown.OneDomainHit(cooldown, Cooldown.Hits(TangledGoal(o), TANGLED_GRANTS, Start(o, x, home, away),
                                                           TangledPlan(o, x, home, away), now), history, now)
  {
    TangledHits(o, x, home, away, now);
    var hits := [home] + [away];
    assert hits[0] == home && hits[1] == away;
  }

  function TangledProposal(o: Order, x: Id, home: Id, away: Id, agent: Id): Proposal {
    Proposal("proposal", agent, o.goal, 0, TangledPlan(o, x, home, away), [])
  }

  lemma TangledDomains(o: Order, x: Id, home: Id, away: Id)
    requires home != away && home != ""
    ensures forall d :: d in ProposedDomains(Start(o, x, home, away), TangledPlan(o, x, home, away)) ==> d == home
    ensures |ProposedDomains(Start(o, x, home, away), TangledPlan(o, x, home, away))| <= 1
  {
    var w, plan := Start(o, x, home, away), TangledPlan(o, x, home, away);
    var domains := ProposedDomains(w, plan);
    assert forall a :: a in plan ==> ActionDomain(w, a) == home;
    assert domains <= {home};
    assert domains == {} || domains == {home};
  }

  lemma TangledCount(o: Order, x: Id, home: Id, away: Id)
    ensures DisruptiveCount(TangledPlan(o, x, home, away)) == 2
  {
    var plan := TangledPlan(o, x, home, away);
    assert plan[..2] == [Removal(o, x, home), Return(o, x, away)];
    assert plan[..2][..1] == [Removal(o, x, home)];
    assert DisruptiveCount([Removal(o, x, home)]) == 1;
    assert DisruptiveCount(plan[..2]) == 1;
  }

  lemma TangledPlanAddsOne(o: Order, x: Id, home: Id, away: Id, agent: Id)
    ensures CeilingHolds(Tangler(agent), Committed(Start(o, x, home, away), {x}).Add(Adding(TangledPlan(o, x, home, away))))
  {
  }

  lemma TangledPlanIsAuthorized(o: Order, x: Id, home: Id, away: Id, agent: Id)
    requires home != away && home != "" && agent != ""
    ensures Authorized(Tangler(agent), agent, TangledGoal(o), Start(o, x, home, away),
                       TangledProposal(o, x, home, away, agent), 1, true)
  {
    TangledPlanIsValid(o, x, home, away, 1);
    TangledDomains(o, x, home, away);
    TangledCount(o, x, home, away);
    TangledPlanAddsOne(o, x, home, away, agent);
    assert Start(o, x, home, away).allocations.Keys == {x};
  }

  function Gone(x: Id): Evidence { Evidence(x, 1, 0, OfAllocation(AllocationDeleted)) }
  function Made(o: Order, x: Id, node: Id): Evidence {
    Evidence(x, 1, 0, OfAllocation(AllocationCreated(node, o.name, o.image, 0, ONE, NO_BUDGET)))
  }

  lemma GoneIsRecorded(o: Order, s: Governor.State, x: Id, node: Id)
    requires s.world.allocations == map[x := Placing(o, x, node)] && node in s.world.nodes
    ensures Governor.Take(s, Gone(x)).Ok?
    ensures var t := Governor.Take(s, Gone(x)).value;
            && t.world.allocations == map[] && t.world.nodes.Keys == s.world.nodes.Keys
            && (forall n :: n in s.world.nodes ==> t.world.nodes[n].FailureDomain() == s.world.nodes[n].FailureDomain()
                                                   && t.world.nodes[n].id == s.world.nodes[n].id)
            && t.history == s.history + [Disruption(x, o.name, node, s.world.nodes[node].FailureDomain(), ByDelete, 1)]
  {
    assert s.world.allocations - {x} == map[];
  }

  lemma MadeIsTaken(o: Order, s: Governor.State, x: Id, node: Id)
    requires s.world.allocations == map[] && node in s.world.nodes && s.world.nodes[node].id == node && x != ""
    ensures Governor.Take(s, Made(o, x, node)).Ok?
    ensures var t := Governor.Take(s, Made(o, x, node)).value;
            && t.world.allocations == map[x := Placing(o, x, node)] && t.world.nodes.Keys == s.world.nodes.Keys
            && t.world.nodes[node].FailureDomain() == s.world.nodes[node].FailureDomain()
            && t.history == s.history
  {
  }

  function TangledItems(o: Order, x: Id, away: Id): seq<Governor.Item> {
    [Governor.Reported(Gone(x)), Governor.Reported(Made(o, x, away)), Governor.Reported(Gone(x))]
  }

  lemma ItemsSnoc(s: Governor.State, plan: seq<Action>, items: seq<Governor.Item>, now: Time, item: Governor.Item,
                  mid: Governor.State)
    requires Governor.TakeItems(s, plan, items, now) == Ok(mid)
    requires Governor.Fitting(plan, Governor.ReportCount(items), item, now)
    ensures Governor.TakeItems(s, plan, items + [item], now) == Governor.Take(mid, item.e)
  {
    assert (items + [item])[..|items|] == items;
  }

  /** The history after the reports on the whole plan. */
  function TangledHistory(o: Order, x: Id, home: Id, away: Id): seq<Disruption> {
    [Disruption(x, o.name, home, home, ByDelete, 1)] + [Disruption(x, o.name, away, away, ByDelete, 1)]
  }

  ghost predicate Standing(s: Governor.State, home: Id, away: Id, xs: map<Id, Allocation>, history: seq<Disruption>) {
    && s.world.allocations == xs && s.history == history && home in s.world.nodes && away in s.world.nodes
    && s.world.nodes[home].id == home == s.world.nodes[home].FailureDomain()
    && s.world.nodes[away].id == away == s.world.nodes[away].FailureDomain()
  }

  lemma GoneStands(o: Order, s: Governor.State, home: Id, away: Id, x: Id, node: Id, history: seq<Disruption>) returns (t: Governor.State)
    requires Standing(s, home, away, map[x := Placing(o, x, node)], history) && (node == home || node == away)
    ensures Governor.Take(s, Gone(x)) == Ok(t)
    ensures Standing(t, home, away, map[], history + [Disruption(x, o.name, node, node, ByDelete, 1)])
  {
    GoneIsRecorded(o, s, x, node);
    t := Governor.Take(s, Gone(x)).value;
  }

  lemma MadeStands(o: Order, s: Governor.State, home: Id, away: Id, x: Id, history: seq<Disruption>) returns (t: Governor.State)
    requires Standing(s, home, away, map[], history) && x != ""
    ensures Governor.Take(s, Made(o, x, away)) == Ok(t)
    ensures Standing(t, home, away, map[x := Placing(o, x, away)], history)
  {
    MadeIsTaken(o, s, x, away);
    t := Governor.Take(s, Made(o, x, away)).value;
  }

  lemma TangledItemsFit(o: Order, x: Id, home: Id, away: Id)
    ensures var plan, items := TangledPlan(o, x, home, away), TangledItems(o, x, away);
            && Governor.Fitting(plan, Governor.ReportCount(items[..0]), items[0], 1)
            && Governor.Fitting(plan, Governor.ReportCount(items[..1]), items[1], 1)
            && Governor.Fitting(plan, Governor.ReportCount(items[..2]), items[2], 1)
  {
    var items := TangledItems(o, x, away);
    assert items[..1][..0] == [] && items[..2][..1] == items[..1];
    assert Governor.ReportCount(items[..1]) == 1;
  }

  lemma ThreeItems(s: Governor.State, plan: seq<Action>, items: seq<Governor.Item>, t: Governor.State, u: Governor.State,
                   v: Governor.State)
    requires |items| == 3
    requires Governor.Fitting(plan, Governor.ReportCount(items[..0]), items[0], 1) && Governor.Take(s, items[0].e) == Ok(t)
    requires Governor.Fitting(plan, Governor.ReportCount(items[..1]), items[1], 1) && Governor.Take(t, items[1].e) == Ok(u)
    requires Governor.Fitting(plan, Governor.ReportCount(items[..2]), items[2], 1) && Governor.Take(u, items[2].e) == Ok(v)
    ensures Governor.TakeItems(s, plan, items, 1) == Ok(v)
  {
    ItemsSnoc(s, plan, items[..0], 1, items[0], s);
    assert items[..0] + [items[0]] == items[..1];
    ItemsSnoc(s, plan, items[..1], 1, items[1], t);
    assert items[..1] + [items[1]] == items[..2];
    ItemsSnoc(s, plan, items[..2], 1, items[2], u);
    assert items[..2] + [items[2]] == items;
  }

  lemma TangledReports(o: Order, x: Id, home: Id, away: Id) returns (v: Governor.State)
    requires home != away && home != "" && away != "" && x != ""
    ensures Governor.TakeItems(Governor.State(Start(o, x, home, away), []), TangledPlan(o, x, home, away), TangledItems(o, x, away), 1)
            == Ok(v)
    ensures v.history == TangledHistory(o, x, home, away)
  {
    var s, first := Governor.State(Start(o, x, home, away), []), [Disruption(x, o.name, home, home, ByDelete, 1)];
    var t := GoneStands(o, s, home, away, x, home, []);
    assert [] + first == first;
    var u := MadeStands(o, t, home, away, x, first);
    v := GoneStands(o, u, home, away, x, away, first);
    TangledItemsFit(o, x, home, away);
    ThreeItems(s, TangledPlan(o, x, home, away), TangledItems(o, x, away), t, u, v);
  }

  function TangledRound(o: Order, x: Id, home: Id, away: Id, agent: Id): Governor.Round {
    Governor.Decide(agent, TangledGoal(o), TangledProposal(o, x, home, away, agent), 1, true,
                    TangledItems(o, x, away))
  }

  lemma OneRound(p: Policy, s: Governor.State, r: Governor.Round)
    ensures Governor.Run(p, s, [r]) == Governor.Advance(p, s, r)
  {
    assert [r][..0] == [];
    assert Governor.Run(p, s, []) == Ok(s);
  }

  lemma TangledAdvance(o: Order, x: Id, home: Id, away: Id, agent: Id, v: Governor.State)
    requires home != away && home != "" && agent != ""
    requires Governor.TakeItems(Governor.State(Start(o, x, home, away), []), TangledPlan(o, x, home, away), TangledItems(o, x, away), 1)
             == Ok(v)
    ensures Governor.Advance(Tangler(agent), Governor.State(Start(o, x, home, away), []), TangledRound(o, x, home, away, agent)) == Ok(v)
  {
    TangledPlanIsAuthorized(o, x, home, away, agent);
  }

  lemma TwoDomains(o: Order, p: Policy, x: Id, home: Id, away: Id)
    requires home != away && p.cooldown > 0
    ensures !Governor.OneDomainAtATime(p, TangledHistory(o, x, home, away))
  {
    var h := TangledHistory(o, x, home, away);
    assert h[0].domain == home && h[1].domain == away && Governor.Near(h[0], h[1], p.cooldown);
  }

  lemma TangledStartIsClean(o: Order, x: Id, home: Id, away: Id, agent: Id)
    requires home != away && home != "" && away != ""
    ensures Governor.DomainsKept(Tangler(agent), Governor.State(Start(o, x, home, away), []))
  {
    Governor.CleanStart(Tangler(agent), Start(o, x, home, away));
  }

  /** Every order with proper names, a pinned image and a port makes an admitted goal. */
  lemma TangledGoalIsAdmitted(o: Order)
    requires Admission.DnsName(o.goal) && Admission.DnsName(o.name) && Admission.DigestPinned(o.image) && 1 <= o.port <= 65535
    ensures Admission.Admitted(TangledGoal(o))
  {
  }

  /** Why the cooldown is promised only for plans that do not disrupt what they create: from a clean start the
      kernel authorizes this plan, and carrying it out disrupts two failure domains at once. */
  lemma RecreatedElsewhere(o: Order, x: Id, home: Id, away: Id, agent: Id)
    requires home != away && home != "" && away != "" && x != "" && agent != ""
    ensures var p, s, r := Tangler(agent), Governor.State(Start(o, x, home, away), []), TangledRound(o, x, home, away, agent);
            && Governor.Cooled(p) && Governor.DomainsKept(p, s)
            && Governor.Run(p, s, [r]).Ok? && !Governor.OneDomainAtATime(p, Governor.Run(p, s, [r]).value.history)
  {
    var p, s := Tangler(agent), Governor.State(Start(o, x, home, away), []);
    var v := TangledReports(o, x, home, away);
    TangledAdvance(o, x, home, away, agent, v);
    OneRound(p, s, TangledRound(o, x, home, away, agent));
    TwoDomains(o, p, x, home, away);
    TangledStartIsClean(o, x, home, away, agent);
  }

  // ---- A plan that drains everything ----

  const ROLLOUT_AGENT := "rollout-agent"

  /** An agent workload: what it may spend, and with whom. */
  function CrewGoal(o: Order, r: AgentRuntime, replicas: int): Goal { PlainGoal(o, replicas, Some(r)) }

  function Live(o: Order, r: AgentRuntime, id: Id, node: Id): Allocation {
    Fresh(id, o.name, 0, node, o.image, ONE, r.budget).(phase := Running, ready := true, address := "10.42.1.2")
  }

  function Pair(o: Order, r: AgentRuntime, x: Id, y: Id, node: Id): World {
    PlainWorld(map[node := PlainNode(node, ONE.Add(ONE), o.image, r.budget.Add(r.budget))],
               map[x := Live(o, r, x, node), y := Live(o, r, y, node)])
  }

  function Drain(o: Order, id: Id, target: Id, node: Id): Action { PlainAction(id, DrainAllocation, target, o, node) }

  function DrainPlan(o: Order, x: Id, y: Id, node: Id): seq<Action> { [] + [Drain(o, "1", x, node)] + [Drain(o, "2", y, node)] }

  function DrainProposal(o: Order, x: Id, y: Id, node: Id): Proposal {
    Proposal("proposal", ROLLOUT_AGENT, o.goal, 0, DrainPlan(o, x, y, node),
             [Check(CheckAllocationDrained, x, true), Check(CheckAllocationDrained, y, true)])
  }

  /** A drain of a running allocation is always valid, whatever is left. */
  lemma DrainIsValid(o: Order, r: AgentRuntime, w: World, done: seq<Action>, a: Action, now: Time) returns (next: World)
    requires a.kind.DrainAllocation? && a.target in w.allocations && a.workload == w.allocations[a.target].workload
    requires w.allocations[a.target].phase == Running
    requires a.id != "" && a.dependsOn == [] && !Completed(done, a.id)
    ensures InTurn(ROLLOUT_GRANTS, done, a) && Validate(CrewGoal(o, r, 2), w, a, now) && Simulate(w, a) == Ok(next)
    ensures next.allocations == w.allocations[a.target := w.allocations[a.target].(draining := true, task := "")]
  {
    assert Simulate(w, a) == SimulateOn(w, a);
    next := SimulateOn(w, a).value;
  }

  lemma DrainPlanIsValid(o: Order, r: AgentRuntime, x: Id, y: Id, node: Id, now: Time)
    requires x != y
    ensures RunPlan(CrewGoal(o, r, 2), ROLLOUT_GRANTS, Pair(o, r, x, y, node), DrainPlan(o, x, y, node), now).Ok?
  {
    var w, a, b := Pair(o, r, x, y, node), Drain(o, "1", x, node), Drain(o, "2", y, node);
    var sim := DrainIsValid(o, r, w, [], a, now);
    PlanSnoc(CrewGoal(o, r, 2), ROLLOUT_GRANTS, w, [], a, now, w, sim);
    var next := DrainIsValid(o, r, sim, [] + [a], b, now);
    PlanSnoc(CrewGoal(o, r, 2), ROLLOUT_GRANTS, w, [] + [a], b, now, sim, next);
  }

  lemma DrainPlanIsGoverned(o: Order, r: AgentRuntime, x: Id, y: Id, node: Id)
    requires node != ""
    ensures WithinDisruptionBudget(DEFAULT_POLICY, Pair(o, r, x, y, node), DrainPlan(o, x, y, node), 1)
  {
    var w, plan := Pair(o, r, x, y, node), DrainPlan(o, x, y, node);
    assert plan[..1] == [Drain(o, "1", x, node)] && DisruptiveCount(plan[..1]) == 1;
    assert DisruptiveCount(plan) == 2;
    assert ProposedDomains(w, plan) <= {node};
    assert ProposedDomains(w, plan) == {} || ProposedDomains(w, plan) == {node};
  }

  lemma RolloutGrants()
    ensures ROLLOUT_AGENT in DEFAULT_POLICY.grants && DEFAULT_POLICY.grants[ROLLOUT_AGENT] == ROLLOUT_GRANTS
  {
    assert ROLLOUT_AGENT[0] == 'r' && "storage-agent"[0] == 's';
  }

  lemma DrainPlanIsAuthorized(o: Order, r: AgentRuntime, x: Id, y: Id, node: Id)
    requires x != y && node != ""
    ensures Authorized(DEFAULT_POLICY, ROLLOUT_AGENT, CrewGoal(o, r, 2), Pair(o, r, x, y, node), DrainProposal(o, x, y, node), 1, true)
  {
    RolloutGrants();
    DrainPlanIsValid(o, r, x, y, node, 1);
    DrainPlanIsGoverned(o, r, x, y, node);
    DrainPlanAddsNothing(o, x, y, node);
  }

  lemma DrainPlanAddsNothing(o: Order, x: Id, y: Id, node: Id)
    ensures Adding(DrainPlan(o, x, y, node)).count == 0
  {
    var plan := DrainPlan(o, x, y, node);
    assert plan[..1] == [Drain(o, "1", x, node)] && Adding(plan[..1]).count == 0;
  }

  lemma TwoSteps(w: World, plan: seq<Action>, times: seq<Time>, mid: World)
    requires |plan| == |times| == 2 && Perform(w, plan[0], times[0]) == Ok(mid) && Perform(mid, plan[1], times[1]).Ok?
    ensures PerformAll(w, plan, times).Ok?
  {
    assert plan[..1][..0] == [] && times[..1][..0] == [];
    assert PerformAll(w, plan[..1], times[..1]) == Ok(mid);
  }

  lemma DrainPlanExecutes(o: Order, r: AgentRuntime, x: Id, y: Id, node: Id, times: seq<Time>)
    requires x != y && |times| == 2
    ensures PerformAll(Pair(o, r, x, y, node), DrainPlan(o, x, y, node), times).Ok?
  {
    var w, a, b := Pair(o, r, x, y, node), Drain(o, "1", x, node), Drain(o, "2", y, node);
    Availability.DrainTakesOutOfService(CrewGoal(o, r, 2), w, a, 1, times[0]);
    var mid := Perform(w, a, times[0]).value;
    Availability.PerformedPhase(w, a, times[0], y, mid);
    Availability.DrainTakesOutOfService(CrewGoal(o, r, 2), mid, b, 1, times[1]);
    TwoSteps(w, DrainPlan(o, x, y, node), times, mid);
  }

  lemma PairServes(o: Order, r: AgentRuntime, x: Id, y: Id, node: Id)
    requires x != y
    ensures Availability.ReadyRuns(Pair(o, r, x, y, node)) && Serving(CrewGoal(o, r, 2), Pair(o, r, x, y, node), 1) == {x, y}
  {
  }

  lemma DrainPlanWithdraws(o: Order, x: Id, y: Id, node: Id)
    ensures Availability.Withdrawn(DrainPlan(o, x, y, node)) == {x, y}
  {
    var plan := DrainPlan(o, x, y, node);
    assert plan[0].target == x && plan[1].target == y;
  }

  /** Why the floor is not kept by every accepted plan: with two serving replicas and a floor of one, the rollout
      agent may drain both in one plan under the default policy, and then nothing serves. */
  lemma DrainsBreakFloor(o: Order, r: AgentRuntime, x: Id, y: Id, node: Id, times: seq<Time>)
    requires x != y && node != "" && |times| == 2
    ensures var w, plan := Pair(o, r, x, y, node), DrainPlan(o, x, y, node);
            && Authorized(DEFAULT_POLICY, ROLLOUT_AGENT, CrewGoal(o, r, 2), w, DrainProposal(o, x, y, node), 1, true)
            && Availability.ReadyRuns(w) && PerformAll(w, plan, times).Ok?
            && Serving(CrewGoal(o, r, 2), PerformAll(w, plan, times).value, 1) == {}
            && DisruptionFloor(CrewGoal(o, r, 2)) == 1
            && !Availability.FloorKept(CrewGoal(o, r, 2), w, PerformAll(w, plan, times).value, 1)
  {
    var w, plan := Pair(o, r, x, y, node), DrainPlan(o, x, y, node);
    DrainPlanIsAuthorized(o, r, x, y, node);
    DrainPlanIsValid(o, r, x, y, node, 1);
    DrainPlanExecutes(o, r, x, y, node, times);
    PairServes(o, r, x, y, node);
    DrainPlanWithdraws(o, x, y, node);
    Availability.ExecutedService(CrewGoal(o, r, 2), ROLLOUT_GRANTS, w, plan, 1, times);
  }

  lemma CrewGoalIsAdmitted(o: Order, r: AgentRuntime, replicas: int)
    requires Admission.DnsName(o.goal) && Admission.DnsName(o.name) && Admission.DigestPinned(o.image) && 1 <= o.port <= 65535
    requires Admission.DnsName(r.provider) && Admission.BudgetAdmitted(r.budget) && r.queue == "" && replicas >= 1
    requires Admission.ToolsAdmitted(r.tools)
    ensures Admission.Admitted(CrewGoal(o, r, replicas))
  {
  }
}
