/** The placement agent: where missing replicas go, and the plan that puts them there. */
module Placement {
  import opened Types
  import opened Executor
  import opened Kernel
  import opened Exactness
  import opened ReplicaPlan
  import Sums
  import Names

  const MAX_REPLICAS_PER_PROPOSAL := 2
  const MAX_QUEUE_DEPTH_AGE := 60 * SECOND

  // ---- How many replicas ----

  function DesiredWorkers(q: WorkQueue, running: int): int { Max(0, Min(running + q.depth, q.maxWorkers)) }

  /** A queue sizes the workload only while its depth was measured recently. */
  function DesiredReplicas(goal: Goal, w: World, running: int, now: Time): int {
    var replicas := goal.workload.replicas;
    if goal.workload.runtime.None? || goal.workload.runtime.value.queue == "" then replicas
    else
      var q := goal.workload.runtime.value.queue;
      if q !in w.queues || w.queues[q].workload != goal.workload.name then replicas
      else if w.queues[q].observedAt == 0 || now - w.queues[q].observedAt > MAX_QUEUE_DEPTH_AGE then replicas
      else Max(replicas, DesiredWorkers(w.queues[q], running))
  }

  /** Demand never asks for more than the kernel authorizes. */
  lemma DesiredIsAuthorized(goal: Goal, w: World, running: int, now: Time)
    requires goal.workload.replicas >= 0
    ensures DesiredReplicas(goal, w, running, now) <= AuthorizedReplicas(goal, w)
  {
  }

  // ---- What is already there ----

  /** The replica slots filled by live allocations that match the goal. */
  predicate Fills(goal: Goal, nodes: map<Id, Node>, x: Allocation) {
    && x.workload == goal.workload.name && x.phase != Stopped && x.node in nodes
    && x.image == goal.workload.image && x.resources == goal.workload.resources
    && NodeAllowed(goal.constraints, nodes[x.node])
  }

  /** The slots that matching live allocations fill. */
  function FilledSlots(goal: Goal, w: World): set<int> {
    set id | id in w.allocations && Fills(goal, w.nodes, w.allocations[id]) :: w.allocations[id].replica
  }

  method ExistingReplicas(goal: Goal, w: World, ids: seq<Id>) returns (existing: set<int>)
    requires Listing(ids, w.allocations.Keys)
    ensures existing == FilledSlots(goal, w)
    ensures forall r :: r in existing <==> exists id :: id in w.allocations && Fills(goal, w.nodes, w.allocations[id]) && w.allocations[id].replica == r
  {
    existing := {};
    var all, nodes, k := w.allocations, w.nodes, 0;
    while k < |ids|
      invariant 0 <= k <= |ids|
      invariant forall r :: r in existing <==> exists id :: id in ids[..k] && id in all && Fills(goal, nodes, all[id]) && all[id].replica == r
    {
      if Fills(goal, nodes, all[ids[k]]) { existing := existing + {all[ids[k]].replica}; }
      k := k + 1;
    }
    assert ids[..k] == ids;
    forall r ensures r in existing <==> r in FilledSlots(goal, w) {
      if r in existing { var id :| id in all && Fills(goal, nodes, all[id]) && all[id].replica == r; }
    }
  }

  predicate Occupies(x: Allocation, nodes: map<Id, Node>, workload: Id, domain: Id) {
    x.workload == workload && x.phase != Stopped && x.node in nodes && nodes[x.node].FailureDomain() == domain
  }

  function OccupantsAmong(all: map<Id, Allocation>, nodes: map<Id, Node>, ids: seq<Id>, workload: Id, domain: Id): set<Id> {
    set id | id in ids && id in all && Occupies(all[id], nodes, workload, domain)
  }

  function CountOf(m: map<Id, int>, d: Id): int { if d in m then m[d] else 0 }
  function ResourcesOf(m: map<Id, Resources>, n: Id): Resources { if n in m then m[n] else NOTHING }
  function BudgetOf(m: map<Id, Budget>, n: Id): Budget { if n in m then m[n] else NO_BUDGET }

  lemma OccupantsNext(all: map<Id, Allocation>, nodes: map<Id, Node>, ids: seq<Id>, k: nat, workload: Id, domain: Id)
    requires Listing(ids, all.Keys) && k < |ids|
    ensures |OccupantsAmong(all, nodes, ids[..k + 1], workload, domain)| ==
              |OccupantsAmong(all, nodes, ids[..k], workload, domain)| + if Occupies(all[ids[k]], nodes, workload, domain) then 1 else 0
  {
    var before := OccupantsAmong(all, nodes, ids[..k], workload, domain);
    assert ids[..k + 1] == ids[..k] + [ids[k]];
    assert ids[k] !in ids[..k];
    assert OccupantsAmong(all, nodes, ids[..k + 1], workload, domain) ==
           if Occupies(all[ids[k]], nodes, workload, domain) then before + {ids[k]} else before;
  }

  /** Live replicas per failure domain; one on a node the world does not know is not counted. */
  method DomainOccupancy(all: map<Id, Allocation>, nodes: map<Id, Node>, ids: seq<Id>, workload: Id) returns (counts: map<Id, int>)
    requires Listing(ids, all.Keys)
    ensures forall d :: CountOf(counts, d) == |OccupantsAmong(all, nodes, ids, workload, d)|
    ensures forall d :: d in counts ==> counts[d] > 0
  {
    counts := map[];
    var k := 0;
    while k < |ids|
      invariant 0 <= k <= |ids|
      invariant forall d :: CountOf(counts, d) == |OccupantsAmong(all, nodes, ids[..k], workload, d)|
      invariant forall d :: d in counts ==> counts[d] > 0
    {
      var x := all[ids[k]];
      forall d ensures |OccupantsAmong(all, nodes, ids[..k + 1], workload, d)| ==
                       |OccupantsAmong(all, nodes, ids[..k], workload, d)| + if Occupies(x, nodes, workload, d) then 1 else 0
      {
        OccupantsNext(all, nodes, ids, k, workload, d);
      }
      if x.workload == workload && x.phase != Stopped && x.node in nodes {
        var domain := nodes[x.node].FailureDomain();
        counts := counts[domain := CountOf(counts, domain) + 1];
      }
      k := k + 1;
    }
    assert ids[..k] == ids;
  }

  lemma OccupantsAre(w: World, ids: seq<Id>, workload: Id, domain: Id)
    requires Listing(ids, w.allocations.Keys)
    ensures OccupantsAmong(w.allocations, w.nodes, ids, workload, domain) == Occupants(w, workload, domain)
  {
  }

  // ---- Choosing a node ----

  /** What earlier replicas of the same plan have already taken. */
  datatype Taken = Taken(resources: map<Id, Resources>, budget: map<Id, Budget>, occupancy: map<Id, int>)

  function WouldUse(goal: Goal, n: Node, t: Taken): Resources {
    n.used.Add(ResourcesOf(t.resources, n.id)).Add(goal.workload.resources)
  }

  function FreeMemory(goal: Goal, n: Node, t: Taken): int { n.capacity.mem - WouldUse(goal, n, t).mem }

  predicate Candidate(goal: Goal, n: Node, t: Taken, now: Time) {
    && n.Schedulable() && NodeAllowed(goal.constraints, n)
    && (goal.workload.maxPerDomain <= 0 || CountOf(t.occupancy, n.FailureDomain()) < goal.workload.maxPerDomain)
    && WouldUse(goal, n, t).Fits(n.capacity)
    && (goal.workload.runtime.Some? ==>
          && n.CanReach(goal.workload.runtime.value.provider, now)
          && n.budgetUsed.Add(BudgetOf(t.budget, n.id)).Add(goal.workload.runtime.value.budget).Fits(n.budgetCapacity))
  }

  /** The candidate that a pass over the first k of the listing ends with. */
  function BestAmong(goal: Goal, nodes: map<Id, Node>, ids: seq<Id>, k: nat, t: Taken, now: Time): (best: int)
    requires k <= |ids| && forall id :: id in ids ==> id in nodes
    ensures -1 <= best < k
  {
    if k == 0 then -1
    else
      var best := BestAmong(goal, nodes, ids, k - 1, t, now);
      if Beats(goal, nodes, ids, k - 1, best, t, now) then k - 1 else best
  }

  predicate Beats(goal: Goal, nodes: map<Id, Node>, ids: seq<Id>, k: nat, best: int, t: Taken, now: Time)
    requires k < |ids| && -1 <= best < |ids| && forall id :: id in ids ==> id in nodes
  {
    && Candidate(goal, nodes[ids[k]], t, now)
    && (best == -1 || FreeMemory(goal, nodes[ids[k]], t) > FreeMemory(goal, nodes[ids[best]], t))
  }

  /** The candidate with the most memory left, the first in order among equals; none exactly when there is no
      candidate. */
  method SelectNode(goal: Goal, nodes: map<Id, Node>, ids: seq<Id>, t: Taken, now: Time) returns (best: int)
    requires forall id :: id in ids ==> id in nodes
    ensures -1 <= best < |ids| && best == BestAmong(goal, nodes, ids, |ids|, t, now)
    ensures best == -1 <==> forall i :: 0 <= i < |ids| ==> !Candidate(goal, nodes[ids[i]], t, now)
    ensures best >= 0 ==>
      && Candidate(goal, nodes[ids[best]], t, now)
      && (forall i :: 0 <= i < |ids| && Candidate(goal, nodes[ids[i]], t, now) ==>
            FreeMemory(goal, nodes[ids[i]], t) <= FreeMemory(goal, nodes[ids[best]], t))
      && (forall i :: 0 <= i < best && Candidate(goal, nodes[ids[i]], t, now) ==>
            FreeMemory(goal, nodes[ids[i]], t) < FreeMemory(goal, nodes[ids[best]], t))
  {
    best := -1;
    var most, k := -1, 0;
    while k < |ids|
      invariant 0 <= k <= |ids| && -1 <= best < k && best == BestAmong(goal, nodes, ids, k, t, now)
      invariant best == -1 ==> forall i :: 0 <= i < k ==> !Candidate(goal, nodes[ids[i]], t, now)
      invariant best >= 0 ==>
        && Candidate(goal, nodes[ids[best]], t, now) && most == FreeMemory(goal, nodes[ids[best]], t)
        && (forall i :: 0 <= i < k && Candidate(goal, nodes[ids[i]], t, now) ==> FreeMemory(goal, nodes[ids[i]], t) <= most)
        && (forall i :: 0 <= i < best && Candidate(goal, nodes[ids[i]], t, now) ==> FreeMemory(goal, nodes[ids[i]], t) < most)
    {
      var n := nodes[ids[k]];
      if Candidate(goal, n, t, now) {
        var free := FreeMemory(goal, n, t);
        if best == -1 || free > most { best, most := k, free; }
      }
      k := k + 1;
    }
  }

  // ---- The books ----

  /** What the plan has taken once the replica is placed. */
  function Took(goal: Goal, t: Taken, n: Node): Taken {
    var domain := n.FailureDomain();
    Taken(t.resources[n.id := ResourcesOf(t.resources, n.id).Add(goal.workload.resources)],
          if goal.workload.runtime.None? then t.budget
          else t.budget[n.id := BudgetOf(t.budget, n.id).Add(goal.workload.runtime.value.budget)],
          t.occupancy[domain := CountOf(t.occupancy, domain) + 1])
  }

  // ---- The accumulators are the simulated deltas ----

  ghost predicate TracksNode(n: Node, sim: Node, t: Taken) {
    && sim == n.(used := n.used.Add(ResourcesOf(t.resources, n.id)), budgetUsed := n.budgetUsed.Add(BudgetOf(t.budget, n.id)),
                 images := sim.images)
    && n.images <= sim.images
  }

  ghost predicate TracksNodes(nodes: map<Id, Node>, sim: map<Id, Node>, t: Taken) {
    sim.Keys == nodes.Keys && forall n :: n in nodes ==> TracksNode(nodes[n], sim[n], t)
  }

  /** The books never count fewer replicas in a domain than there are, and `exact` says that they count no more. */
  ghost predicate Counts(sim: World, workload: Id, occupancy: map<Id, int>, d: Id, exact: bool) {
    var n := |Occupants(sim, workload, d)|;
    n <= CountOf(occupancy, d) && (exact ==> n == CountOf(occupancy, d))
  }

  ghost predicate TracksOccupancy(sim: World, workload: Id, t: Taken, exact: bool) {
    forall d :: Counts(sim, workload, t.occupancy, d, exact)
  }

  ghost predicate Tracks(goal: Goal, w: World, sim: World, t: Taken, exact: bool) {
    && TracksNodes(w.nodes, sim.nodes, t) && TracksOccupancy(sim, goal.workload.name, t, exact)
    && sim.queues == w.queues
  }

  ghost predicate NamedNodes(nodes: map<Id, Node>) { forall n :: n in nodes ==> nodes[n].id == n }

  /** A candidate in the agent's books passes the kernel's checks in the simulated world. */
  lemma CandidateFits(goal: Goal, w: World, sim: World, t: Taken, n: Id, replica: int, now: Time, exact: bool)
    requires Tracks(goal, w, sim, t, exact) && NamedNodes(w.nodes) && n in w.nodes && Candidate(goal, w.nodes[n], t, now)
    requires 0 <= replica < AuthorizedReplicas(goal, w) && goal.workload.image in sim.nodes[n].images
    ensures CreateFits(goal, sim, CreateStep(goal, w.nodes[n], AllocationID(goal.workload.name, replica), replica), now)
  {
    var x, y := w.nodes[n], sim.nodes[n];
    assert TracksNode(x, y, t);
    assert y.FailureDomain() == x.FailureDomain();
    assert Counts(sim, goal.workload.name, t.occupancy, x.FailureDomain(), exact);
    assert y.used.Add(goal.workload.resources) == WouldUse(goal, x, t);
  }

  function Pulled(nodes: map<Id, Node>, n: Id, image: string): map<Id, Node>
    requires n in nodes
  {
    nodes[n := nodes[n].(images := nodes[n].images + {image})]
  }

  lemma SimulatedPull(sim: World, a: Action)
    requires a.kind.PullImage? && a.node in sim.nodes
    ensures Simulate(sim, a) == Ok(sim.(nodes := Pulled(sim.nodes, a.node, a.image)))
  {
  }

  lemma PullTracks(goal: Goal, w: World, sim: World, t: Taken, n: Id, image: string, after: World, exact: bool)
    requires Tracks(goal, w, sim, t, exact) && n in w.nodes && after == sim.(nodes := Pulled(sim.nodes, n, image))
    ensures Tracks(goal, w, after, t, exact) && image in after.nodes[n].images
  {
    assert TracksNode(w.nodes[n], sim.nodes[n], t);
    forall d ensures Counts(after, goal.workload.name, t.occupancy, d, exact) {
      SameDomainsSameOccupants(sim, after, goal.workload.name, d);
      assert Counts(sim, goal.workload.name, t.occupancy, d, exact);
    }
  }

  lemma SameDomainsSameOccupants(w: World, v: World, workload: Id, d: Id)
    requires v.allocations == w.allocations && v.nodes.Keys == w.nodes.Keys
    requires forall n :: n in w.nodes ==> v.nodes[n].FailureDomain() == w.nodes[n].FailureDomain()
    ensures Occupants(v, workload, d) == Occupants(w, workload, d)
  {
  }

  ghost predicate Alive(sim: World, id: Id) { id in sim.allocations && sim.allocations[id].phase != Stopped }

  lemma CreateTracksNodes(goal: Goal, nodes: map<Id, Node>, sim: map<Id, Node>, t: Taken, n: Id, budget: Budget)
    requires TracksNodes(nodes, sim, t) && NamedNodes(nodes) && n in nodes
    requires budget == if goal.workload.runtime.Some? then goal.workload.runtime.value.budget else NO_BUDGET
    ensures TracksNodes(nodes, sim[n := sim[n].(used := sim[n].used.Add(goal.workload.resources), budgetUsed := sim[n].budgetUsed.Add(budget))],
                        Took(goal, t, nodes[n]))
  {
    var after := sim[n := sim[n].(used := sim[n].used.Add(goal.workload.resources), budgetUsed := sim[n].budgetUsed.Add(budget))];
    forall m | m in nodes ensures TracksNode(nodes[m], after[m], Took(goal, t, nodes[n])) {
      assert TracksNode(nodes[m], sim[m], t);
      assert nodes[m].id == m && nodes[n].id == n;
    }
  }

  lemma CreatedOccupant(sim: World, after: World, workload: Id, id: Id, d: Id)
    requires id in after.allocations && after.allocations == sim.allocations[id := after.allocations[id]]
    requires after.nodes.Keys == sim.nodes.Keys
    requires forall n :: n in sim.nodes ==> after.nodes[n].FailureDomain() == sim.nodes[n].FailureDomain()
    ensures var was, now, one := Occupants(sim, workload, d), Occupants(after, workload, d),
                                 Occupies(after.allocations[id], after.nodes, workload, d);
            && now <= (if one then was + {id} else was)
            && (id !in sim.allocations ==> now == if one then was + {id} else was)
  {
  }

  lemma CreateTracksOccupancy(sim: World, after: World, workload: Id, occupancy: map<Id, int>, more: map<Id, int>, id: Id,
                              domain: Id, d: Id, exact: bool)
    requires Counts(sim, workload, occupancy, d, exact) && more == occupancy[domain := CountOf(occupancy, domain) + 1]
    requires after.nodes.Keys == sim.nodes.Keys
    requires forall n :: n in sim.nodes ==> after.nodes[n].FailureDomain() == sim.nodes[n].FailureDomain()
    requires id in after.allocations && after.allocations == sim.allocations[id := after.allocations[id]]
    requires Occupies(after.allocations[id], after.nodes, workload, domain)
    ensures Counts(after, workload, more, d, exact && id !in sim.allocations)
  {
    var was, now := Occupants(sim, workload, d), Occupants(after, workload, d);
    CreatedOccupant(sim, after, workload, id, d);
    Sums.Subset(now, if d == domain then was + {id} else was);
  }

  lemma CreatedNodesTrack(goal: Goal, w: World, sim: World, t: Taken, n: Id, a: Action, after: World)
    requires TracksNodes(w.nodes, sim.nodes, t) && NamedNodes(w.nodes) && n in w.nodes && a.node == n
    requires a.resources == goal.workload.resources
    requires a.budget == if goal.workload.runtime.Some? then goal.workload.runtime.value.budget else NO_BUDGET
    requires SimulateCreate(sim, a) == Ok(after)
    ensures TracksNodes(w.nodes, after.nodes, Took(goal, t, w.nodes[n])) && after.queues == sim.queues
  {
    CreateTracksNodes(goal, w.nodes, sim.nodes, t, n, a.budget);
  }

  lemma CreatedOccupancyTracks(goal: Goal, w: World, sim: World, t: Taken, n: Id, a: Action, after: World, exact: bool)
    requires TracksOccupancy(sim, goal.workload.name, t, exact) && n in w.nodes && n in sim.nodes && a.node == n
    requires sim.nodes[n].FailureDomain() == w.nodes[n].FailureDomain()
    requires a.kind.CreateAllocation? && a.workload == goal.workload.name && SimulateCreate(sim, a) == Ok(after)
    ensures TracksOccupancy(after, goal.workload.name, Took(goal, t, w.nodes[n]), exact && a.target !in sim.allocations)
    ensures Alive(after, a.target)
  {
    CreatedIn(sim, a, after);
    CreatedOccupancy(sim, after, goal.workload.name, t, Took(goal, t, w.nodes[n]), a.target, w.nodes[n].FailureDomain(), exact);
  }

  /** A simulated creation changes the world by what the agent reserves: by exactly that, if its id was free. */
  lemma CreateTracks(goal: Goal, w: World, sim: World, t: Taken, n: Id, a: Action, after: World, exact: bool)
    requires Tracks(goal, w, sim, t, exact) && NamedNodes(w.nodes) && n in w.nodes
    requires a.kind.CreateAllocation? && a.node == n && a.resources == goal.workload.resources && a.workload == goal.workload.name
    requires a.budget == if goal.workload.runtime.Some? then goal.workload.runtime.value.budget else NO_BUDGET
    requires SimulateCreate(sim, a) == Ok(after)
    ensures Tracks(goal, w, after, Took(goal, t, w.nodes[n]), exact && a.target !in sim.allocations) && Alive(after, a.target)
  {
    assert TracksNode(w.nodes[n], sim.nodes[n], t);
    CreatedNodesTrack(goal, w, sim, t, n, a, after);
    CreatedOccupancyTracks(goal, w, sim, t, n, a, after, exact);
  }

  lemma CreatedOccupancy(sim: World, after: World, workload: Id, t: Taken, more: Taken, id: Id, domain: Id, exact: bool)
    requires TracksOccupancy(sim, workload, t, exact)
    requires more.occupancy == t.occupancy[domain := CountOf(t.occupancy, domain) + 1]
    requires after.nodes.Keys == sim.nodes.Keys
    requires forall n :: n in sim.nodes ==> after.nodes[n].FailureDomain() == sim.nodes[n].FailureDomain()
    requires id in after.allocations && after.allocations == sim.allocations[id := after.allocations[id]]
    requires Occupies(after.allocations[id], after.nodes, workload, domain)
    ensures TracksOccupancy(after, workload, more, exact && id !in sim.allocations)
  {
    var still := exact && id !in sim.allocations;
    forall d ensures Counts(after, workload, more.occupancy, d, still) {
      assert Counts(sim, workload, t.occupancy, d, exact);
      CreateTracksOccupancy(sim, after, workload, t.occupancy, more.occupancy, id, domain, d, exact);
    }
  }

  lemma CreatedIn(sim: World, a: Action, after: World)
    requires a.kind.CreateAllocation? && SimulateCreate(sim, a) == Ok(after)
    ensures a.node in sim.nodes && after.nodes.Keys == sim.nodes.Keys
    ensures forall n :: n in sim.nodes ==> after.nodes[n].FailureDomain() == sim.nodes[n].FailureDomain()
    ensures a.target in after.allocations && after.allocations == sim.allocations[a.target := after.allocations[a.target]]
    ensures var x := after.allocations[a.target]; x.node == a.node && x.phase == Created && x.workload == a.workload
  {
  }

  // ---- The rest of a replica's actions leave the books alone ----

  predicate Prepares(a: Action, id: Id) {
    && a.target == id && (a.kind.GrantTools? || a.kind.MountSecret? || a.kind.AttachNetwork? || a.kind.StartAllocation?)
    && (a.kind.MountSecret? ==> a.secret.Some?)
  }

  lemma PreparedAllocation(x: Allocation, a: Action, id: Id)
    requires x.phase != Stopped && Prepares(a, id)
    ensures SimulateAllocation(x, a).Ok?
    ensures var y := SimulateAllocation(x, a).value; y.phase != Stopped && y.workload == x.workload && y.node == x.node
  {
  }

  lemma SimulatedOnTarget(sim: World, a: Action, id: Id, x: Allocation)
    requires id in sim.allocations && Prepares(a, id) && SimulateAllocation(sim.allocations[id], a) == Ok(x)
    ensures Simulate(sim, a) == Ok(sim.(allocations := sim.allocations[id := x]))
  {
    assert Simulate(sim, a) == SimulateOn(sim, a);
  }

  lemma SimulatedPreparation(sim: World, a: Action, id: Id) returns (x: Allocation)
    requires Alive(sim, id) && Prepares(a, id)
    ensures Simulate(sim, a) == Ok(sim.(allocations := sim.allocations[id := x]))
    ensures var was := sim.allocations[id]; x.phase != Stopped && x.workload == was.workload && x.node == was.node
  {
    PreparedAllocation(sim.allocations[id], a, id);
    x := SimulateAllocation(sim.allocations[id], a).value;
    SimulatedOnTarget(sim, a, id, x);
  }

  lemma PreparingTracks(goal: Goal, w: World, sim: World, t: Taken, id: Id, after: World, x: Allocation, exact: bool)
    requires Tracks(goal, w, sim, t, exact) && Alive(sim, id) && x.phase != Stopped
    requires after == sim.(allocations := sim.allocations[id := x])
    requires var was := sim.allocations[id]; x.workload == was.workload && x.node == was.node
    ensures Tracks(goal, w, after, t, exact) && Alive(after, id) && after.allocations.Keys == sim.allocations.Keys
  {
    forall d ensures Counts(after, goal.workload.name, t.occupancy, d, exact) {
      assert Counts(sim, goal.workload.name, t.occupancy, d, exact);
      ReplacedOccupant(sim, after, goal.workload.name, d, id, x);
    }
  }

  lemma ReplacedOccupant(sim: World, after: World, workload: Id, d: Id, id: Id, x: Allocation)
    requires id in sim.allocations && after == sim.(allocations := sim.allocations[id := x])
    requires sim.allocations[id].phase != Stopped && x.phase != Stopped
    requires x.workload == sim.allocations[id].workload && x.node == sim.allocations[id].node
    ensures Occupants(after, workload, d) == Occupants(sim, workload, d)
  {
  }

  lemma {:induction false} PreparationTracks(goal: Goal, w: World, sim: World, t: Taken, id: Id, steps: seq<Action>, exact: bool)
      returns (after: World)
    requires Tracks(goal, w, sim, t, exact) && Alive(sim, id) && AllPrepare(steps, id)
    ensures SimulateAll(sim, steps) == Ok(after)
    ensures Tracks(goal, w, after, t, exact) && Alive(after, id) && after.allocations.Keys == sim.allocations.Keys
    decreases |steps|
  {
    after := sim;
    if steps != [] {
      var k := |steps| - 1;
      var mid := PreparationTracks(goal, w, sim, t, id, steps[..k], exact);
      var x := SimulatedPreparation(mid, steps[k], id);
      after := mid.(allocations := mid.allocations[id := x]);
      PreparingTracks(goal, w, mid, t, id, after, x, exact);
    }
  }

  lemma {:induction false} SecretsPrepare(goal: Goal, n: Node, id: Id, refs: seq<SecretRef>, i: nat)
    requires i < |SecretSteps(goal, n, id, refs)|
    ensures Prepares(SecretSteps(goal, n, id, refs)[i], id)
    decreases |refs|
  {
    var front := SecretSteps(goal, n, id, refs[..|refs| - 1]);
    if i < |front| { SecretsPrepare(goal, n, id, refs[..|refs| - 1], i); }
  }

  ghost predicate AllPrepare(steps: seq<Action>, id: Id) { forall i :: 0 <= i < |steps| ==> Prepares(steps[i], id) }

  lemma PrepareConcat(a: seq<Action>, b: seq<Action>, id: Id)
    requires AllPrepare(a, id) && AllPrepare(b, id)
    ensures AllPrepare(a + b, id)
  {
  }

  lemma PreparationsPrepare(goal: Goal, volumes: map<Id, Volume>, n: Node, id: Id)
    requires goal.workload.volumes == []
    ensures AllPrepare(Preparations(goal, volumes, n, id), id)
  {
    var grants, attaches := GrantSteps(goal, n, id), VolumeSteps(goal, volumes, n, id, goal.workload.volumes);
    var mounts, network := SecretSteps(goal, n, id, goal.workload.secrets), NetworkSteps(goal, n, id);
    assert attaches == [];
    forall i | 0 <= i < |mounts| ensures Prepares(mounts[i], id) { SecretsPrepare(goal, n, id, goal.workload.secrets, i); }
    PrepareConcat(grants, attaches, id);
    PrepareConcat(grants + attaches, mounts, id);
    PrepareConcat(grants + attaches + mounts, network, id);
  }

  lemma AfterCreatePrepares(goal: Goal, volumes: map<Id, Volume>, n: Node, id: Id)
    requires goal.workload.volumes == []
    ensures AllPrepare(AfterCreate(goal, volumes, n, id), id)
  {
    PreparationsPrepare(goal, volumes, n, id);
    StartPrepares(goal, volumes, n, id);
    PrepareConcat(Preparations(goal, volumes, n, id), [StartStep(goal, volumes, n, id)], id);
  }

  lemma StartPrepares(goal: Goal, volumes: map<Id, Volume>, n: Node, id: Id)
    ensures Prepares(StartStep(goal, volumes, n, id), id) && StartStep(goal, volumes, n, id).kind.StartAllocation?
  {
  }

  lemma {:induction false} SimulateConcat(w: World, a: seq<Action>, b: seq<Action>)
    ensures SimulateAll(w, a + b) == if SimulateAll(w, a).Err? then Err else SimulateAll(SimulateAll(w, a).value, b)
    decreases |b|
  {
    if b == [] {
      assert a + b == a;
    } else {
      SimulateConcat(w, a, b[..|b| - 1]);
      assert (a + b)[..|a + b| - 1] == a + b[..|b| - 1];
    }
  }

  lemma SimulateOne(w: World, a: Action)
    ensures SimulateAll(w, [a]) == Simulate(w, a)
  {
    assert [a][..0] == [];
  }

  /** Before its creation, a replica's node has the image, one way or the other. */
  lemma PullsTrack(goal: Goal, w: World, sim: World, t: Taken, n: Id, id: Id, exact: bool) returns (after: World)
    requires Tracks(goal, w, sim, t, exact) && NamedNodes(w.nodes) && n in w.nodes
    ensures SimulateAll(sim, PullSteps(goal, w.nodes[n], id)) == Ok(after)
    ensures Tracks(goal, w, after, t, exact) && goal.workload.image in after.nodes[n].images && after.allocations == sim.allocations
  {
    var pulls := PullSteps(goal, w.nodes[n], id);
    assert TracksNode(w.nodes[n], sim.nodes[n], t);
    after := sim;
    if pulls != [] {
      SimulateOne(sim, pulls[0]);
      assert pulls == [pulls[0]];
      SimulatedPull(sim, pulls[0]);
      after := sim.(nodes := Pulled(sim.nodes, n, goal.workload.image));
      PullTracks(goal, w, sim, t, n, goal.workload.image, after, exact);
    }
  }

  lemma CreationSimulated(goal: Goal, w: World, sim: World, t: Taken, n: Id, create: Action) returns (after: World)
    requires TracksNodes(w.nodes, sim.nodes, t) && n in w.nodes && create.kind.CreateAllocation? && create.node == n
    ensures SimulateAll(sim, [create]) == SimulateCreate(sim, create) == Ok(after)
    ensures after.allocations.Keys == sim.allocations.Keys + {create.target}
  {
    SimulateOne(sim, create);
    SimulatedCreation(sim, create);
    after := SimulateCreate(sim, create).value;
    CreatedIn(sim, create, after);
  }

  lemma CreationTracks(goal: Goal, w: World, sim: World, t: Taken, n: Id, replica: int, id: Id, exact: bool) returns (after: World)
    requires Tracks(goal, w, sim, t, exact) && NamedNodes(w.nodes) && n in w.nodes
    ensures SimulateAll(sim, [CreateStep(goal, w.nodes[n], id, replica)]) == Ok(after)
    ensures Tracks(goal, w, after, Took(goal, t, w.nodes[n]), exact && id !in sim.allocations)
    ensures Alive(after, id) && after.allocations.Keys == sim.allocations.Keys + {id}
  {
    var create := CreateStep(goal, w.nodes[n], id, replica);
    after := CreationSimulated(goal, w, sim, t, n, create);
    CreateTracks(goal, w, sim, t, n, create, after, exact);
  }

  /** All of a replica's actions go through in simulation, and then the updated books track the world again. */
  lemma ReplicaTracks(goal: Goal, w: World, sim: World, t: Taken, n: Id, replica: int, id: Id, exact: bool) returns (after: World)
    requires goal.workload.volumes == [] && Tracks(goal, w, sim, t, exact) && NamedNodes(w.nodes) && n in w.nodes
    requires id == AllocationID(goal.workload.name, replica)
    ensures SimulateAll(sim, ReplicaSteps(goal, w.volumes, w.nodes[n], replica)) == Ok(after)
    ensures Tracks(goal, w, after, Took(goal, t, w.nodes[n]), exact && id !in sim.allocations)
    ensures after.allocations.Keys == sim.allocations.Keys + {id}
  {
    var x := w.nodes[n];
    var pulls, create, rest := PullSteps(goal, x, id), CreateStep(goal, x, id, replica), AfterCreate(goal, w.volumes, x, id);
    var ready := PullsTrack(goal, w, sim, t, n, id, exact);
    var made := CreationTracks(goal, w, ready, t, n, replica, id, exact);
    AfterCreatePrepares(goal, w.volumes, x, id);
    after := PreparationTracks(goal, w, made, Took(goal, t, x), id, rest, exact && id !in sim.allocations);
    SimulateConcat(ready, [create], rest);
    SimulateConcat(sim, pulls, [create] + rest);
  }

  lemma SimulatedCreation(sim: World, a: Action)
    requires a.kind.CreateAllocation?
    ensures Simulate(sim, a) == SimulateCreate(sim, a)
  {
  }

  lemma OnlyCreation(pulls: seq<Action>, create: Action, rest: seq<Action>, id: Id, k: nat)
    requires (forall i :: 0 <= i < |pulls| ==> pulls[i].kind.PullImage?) && create.kind.CreateAllocation? && AllPrepare(rest, id)
    requires k < |pulls + ([create] + rest)|
    ensures (pulls + ([create] + rest))[k].kind.CreateAllocation? <==> k == |pulls|
    ensures k == |pulls| ==> (pulls + ([create] + rest))[..k] == pulls && (pulls + ([create] + rest))[k] == create
  {
    if k > |pulls| { assert Prepares(rest[k - |pulls| - 1], id); }
  }

  lemma CreationFits(goal: Goal, w: World, sim: World, t: Taken, n: Id, replica: int, now: Time, id: Id, exact: bool)
      returns (mid: World)
    requires Tracks(goal, w, sim, t, exact) && NamedNodes(w.nodes) && id == AllocationID(goal.workload.name, replica)
    requires n in w.nodes && Candidate(goal, w.nodes[n], t, now) && 0 <= replica < AuthorizedReplicas(goal, w)
    ensures SimulateAll(sim, PullSteps(goal, w.nodes[n], id)) == Ok(mid) && mid.allocations == sim.allocations
    ensures CreateFits(goal, mid, CreateStep(goal, w.nodes[n], id, replica), now)
  {
    mid := PullsTrack(goal, w, sim, t, n, id, exact);
    CandidateFits(goal, w, mid, t, n, replica, now, exact);
  }

  /** The one creation among a replica's actions comes right after the pulls. */
  lemma CreationInReplica(goal: Goal, volumes: map<Id, Volume>, n: Node, replica: int, k: nat, id: Id, steps: seq<Action>)
    requires goal.workload.volumes == [] && id == AllocationID(goal.workload.name, replica)
    requires steps == ReplicaSteps(goal, volumes, n, replica) && k < |steps| && steps[k].kind.CreateAllocation?
    ensures steps[..k] == PullSteps(goal, n, id) && steps[k] == CreateStep(goal, n, id, replica)
  {
    AfterCreatePrepares(goal, volumes, n, id);
    OnlyCreation(PullSteps(goal, n, id), CreateStep(goal, n, id, replica), AfterCreate(goal, volumes, n, id), id, k);
  }

  lemma ReplicaFits(goal: Goal, w: World, sim: World, t: Taken, n: Id, replica: int, now: Time, steps: seq<Action>, k: nat,
                    exact: bool) returns (mid: World)
    requires goal.workload.volumes == [] && Tracks(goal, w, sim, t, exact) && NamedNodes(w.nodes)
    requires n in w.nodes && Candidate(goal, w.nodes[n], t, now) && 0 <= replica < AuthorizedReplicas(goal, w)
    requires steps == ReplicaSteps(goal, w.volumes, w.nodes[n], replica)
    requires k < |steps| && steps[k].kind.CreateAllocation?
    ensures SimulateAll(sim, steps[..k]) == Ok(mid) && CreateFits(goal, mid, steps[k], now)
    ensures steps[k].target == AllocationID(goal.workload.name, replica) && mid.allocations == sim.allocations
  {
    var id := AllocationID(goal.workload.name, replica);
    CreationInReplica(goal, w.volumes, w.nodes[n], replica, k, id, steps);
    mid := CreationFits(goal, w, sim, t, n, replica, now, id, exact);
  }

  // ---- The whole plan ----

  /** A creation passes the kernel's checks, that of its id being free included if the id of the slot is free. */
  ghost predicate CreatesWell(goal: Goal, w: World, sim: World, a: Action, now: Time) {
    a.kind.CreateAllocation? ==> CreateFits(goal, sim, a, now) && (Unclaimed(goal, w) ==> Validate(goal, sim, a, now))
  }

  /** The whole plan goes through in simulation, each creation passing the kernel's checks in the world simulated
      so far. */
  ghost predicate Placeable(goal: Goal, w: World, plan: seq<Action>, now: Time) {
    && SimulateAll(w, plan).Ok?
    && (plan != [] ==>
          var k := |plan| - 1;
          Placeable(goal, w, plan[..k], now) && SimulateAll(w, plan[..k]).Ok? &&
          CreatesWell(goal, w, SimulateAll(w, plan[..k]).value, plan[k], now))
  }

  /** The slot of a replica that no matching live allocation fills. */
  ghost predicate Missing(goal: Goal, w: World, replica: int) {
    replica >= 0 && !exists id :: id in w.allocations && Fills(goal, w.nodes, w.allocations[id]) && w.allocations[id].replica == replica
  }

  /** No allocation sits under the id of a slot it does not fill. */
  ghost predicate Unclaimed(goal: Goal, w: World) {
    forall replica :: Missing(goal, w, replica) ==> AllocationID(goal.workload.name, replica) !in w.allocations
  }

  predicate PlacedBelow(goal: Goal, id: Id, replica: int) {
    exists r :: 0 <= r < replica && id == AllocationID(goal.workload.name, r)
  }

  /** Only slots below `replica` were filled. */
  ghost predicate FilledBelow(goal: Goal, w: World, sim: World, replica: int) {
    forall id :: id in sim.allocations ==> id in w.allocations || PlacedBelow(goal, id, replica)
  }

  /** The plan so far goes through, and the books track its end. */
  ghost predicate Booked(goal: Goal, w: World, plan: seq<Action>, t: Taken, replica: int) {
    && SimulateAll(w, plan).Ok?
    && Tracks(goal, w, SimulateAll(w, plan).value, t, Unclaimed(goal, w))
    && FilledBelow(goal, w, SimulateAll(w, plan).value, replica)
  }

  lemma SlotIsFree(goal: Goal, w: World, sim: World, replica: int)
    requires Missing(goal, w, replica) && Unclaimed(goal, w)
    requires FilledBelow(goal, w, sim, replica)
    ensures AllocationID(goal.workload.name, replica) !in sim.allocations
  {
    var id := AllocationID(goal.workload.name, replica);
    if id in sim.allocations {
      var r :| 0 <= r < replica && id == AllocationID(goal.workload.name, r);
      Names.NumberedIsUnique(goal.workload.name, r, goal.workload.name, replica);
      assert false;
    }
  }

  lemma FilledOneMore(goal: Goal, w: World, sim: World, after: World, replica: nat)
    requires FilledBelow(goal, w, sim, replica)
    requires after.allocations.Keys <= sim.allocations.Keys + {AllocationID(goal.workload.name, replica)}
    ensures FilledBelow(goal, w, after, replica + 1)
  {
    forall id | id in after.allocations ensures id in w.allocations || PlacedBelow(goal, id, replica + 1) {
      if id in sim.allocations && id !in w.allocations {
        var r :| 0 <= r < replica && id == AllocationID(goal.workload.name, r);
        assert 0 <= r < replica + 1;
      }
    }
  }

  lemma BookedOneMore(goal: Goal, w: World, plan: seq<Action>, t: Taken, n: Id, replica: int, steps: seq<Action>)
    requires goal.workload.volumes == [] && NamedNodes(w.nodes) && n in w.nodes && Booked(goal, w, plan, t, replica)
    requires steps == ReplicaSteps(goal, w.volumes, w.nodes[n], replica) && Missing(goal, w, replica)
    ensures Booked(goal, w, plan + steps, Took(goal, t, w.nodes[n]), replica + 1)
  {
    var sim, id, exact := SimulateAll(w, plan).value, AllocationID(goal.workload.name, replica), Unclaimed(goal, w);
    if exact { SlotIsFree(goal, w, sim, replica); }
    var after := ReplicaTracks(goal, w, sim, t, n, replica, id, exact);
    SimulateConcat(w, plan, steps);
    FilledOneMore(goal, w, sim, after, replica);
    assert (exact && id !in sim.allocations) == exact;
  }

  lemma LaterFitsAt(goal: Goal, w: World, plan: seq<Action>, t: Taken, n: Id, replica: int, now: Time, steps: seq<Action>, k: nat)
    requires goal.workload.volumes == [] && NamedNodes(w.nodes) && Booked(goal, w, plan, t, replica) && k < |steps|
    requires n in w.nodes && Candidate(goal, w.nodes[n], t, now) && 0 <= replica < AuthorizedReplicas(goal, w)
    requires steps == ReplicaSteps(goal, w.volumes, w.nodes[n], replica) && Missing(goal, w, replica)
    requires SimulateAll(w, plan + steps[..k]).Ok?
    ensures CreatesWell(goal, w, SimulateAll(w, plan + steps[..k]).value, steps[k], now)
  {
    if steps[k].kind.CreateAllocation? { LaterCreationFits(goal, w, plan, t, n, replica, now, steps, k); }
  }

  lemma LaterCreationFits(goal: Goal, w: World, plan: seq<Action>, t: Taken, n: Id, replica: int, now: Time, steps: seq<Action>,
                          k: nat)
    requires goal.workload.volumes == [] && NamedNodes(w.nodes) && Booked(goal, w, plan, t, replica)
    requires n in w.nodes && Candidate(goal, w.nodes[n], t, now) && 0 <= replica < AuthorizedReplicas(goal, w)
    requires steps == ReplicaSteps(goal, w.volumes, w.nodes[n], replica) && Missing(goal, w, replica)
    requires k < |steps| && steps[k].kind.CreateAllocation?
    ensures SimulateAll(w, plan + steps[..k]).Ok? && CreatesWell(goal, w, SimulateAll(w, plan + steps[..k]).value, steps[k], now)
  {
    var sim := SimulateAll(w, plan).value;
    var mid := ReplicaFits(goal, w, sim, t, n, replica, now, steps, k, Unclaimed(goal, w));
    SimulateConcat(w, plan, steps[..k]);
    if Unclaimed(goal, w) { SlotIsFree(goal, w, sim, replica); }
  }

  lemma {:induction false} LaterPrefix(w: World, plan: seq<Action>, steps: seq<Action>, k: nat)
    requires SimulateAll(w, plan + steps).Ok? && k <= |steps|
    ensures SimulateAll(w, plan + steps[..k]).Ok?
    decreases |steps|
  {
    if k < |steps| {
      var front := steps[..|steps| - 1];
      assert (plan + steps)[..|plan + steps| - 1] == plan + front;
      LaterPrefix(w, plan, front, k);
      assert front[..k] == steps[..k];
    } else {
      assert steps[..k] == steps;
    }
  }

  lemma PlaceableSnoc(goal: Goal, w: World, plan: seq<Action>, a: Action, now: Time)
    requires Placeable(goal, w, plan, now) && SimulateAll(w, plan + [a]).Ok?
    requires CreatesWell(goal, w, SimulateAll(w, plan).value, a, now)
    ensures Placeable(goal, w, plan + [a], now)
  {
    assert (plan + [a])[..|plan|] == plan;
  }

  lemma NextFits(goal: Goal, w: World, plan: seq<Action>, t: Taken, n: Id, replica: int, now: Time, steps: seq<Action>, k: nat)
    requires goal.workload.volumes == [] && NamedNodes(w.nodes) && Booked(goal, w, plan, t, replica) && k < |steps|
    requires n in w.nodes && Candidate(goal, w.nodes[n], t, now) && 0 <= replica < AuthorizedReplicas(goal, w)
    requires steps == ReplicaSteps(goal, w.volumes, w.nodes[n], replica) && Missing(goal, w, replica)
    requires SimulateAll(w, plan + steps).Ok? && Placeable(goal, w, plan + steps[..k], now)
    ensures Placeable(goal, w, plan + steps[..k + 1], now)
  {
    LaterPrefix(w, plan, steps, k);
    LaterPrefix(w, plan, steps, k + 1);
    LaterFitsAt(goal, w, plan, t, n, replica, now, steps, k);
    OneMoreStep(plan, steps, k);
    PlaceableSnoc(goal, w, plan + steps[..k], steps[k], now);
  }

  lemma OneMoreStep(plan: seq<Action>, steps: seq<Action>, k: nat)
    requires k < |steps|
    ensures plan + steps[..k + 1] == plan + steps[..k] + [steps[k]]
  {
  }

  lemma {:induction false} PlaceableUpTo(goal: Goal, w: World, plan: seq<Action>, t: Taken, n: Id, replica: int, now: Time,
                                         steps: seq<Action>, k: nat)
    requires goal.workload.volumes == [] && NamedNodes(w.nodes) && Booked(goal, w, plan, t, replica) && k <= |steps|
    requires n in w.nodes && Candidate(goal, w.nodes[n], t, now) && 0 <= replica < AuthorizedReplicas(goal, w)
    requires steps == ReplicaSteps(goal, w.volumes, w.nodes[n], replica) && Missing(goal, w, replica)
    requires SimulateAll(w, plan + steps).Ok? && Placeable(goal, w, plan, now)
    ensures Placeable(goal, w, plan + steps[..k], now)
    decreases k
  {
    if k == 0 {
      assert plan + steps[..0] == plan;
    } else {
      PlaceableUpTo(goal, w, plan, t, n, replica, now, steps, k - 1);
      NextFits(goal, w, plan, t, n, replica, now, steps, k - 1);
    }
  }

  lemma PlaceableOneMore(goal: Goal, w: World, plan: seq<Action>, t: Taken, n: Id, replica: int, now: Time, steps: seq<Action>)
    requires goal.workload.volumes == [] && NamedNodes(w.nodes) && Booked(goal, w, plan, t, replica)
    requires Placeable(goal, w, plan, now) && SimulateAll(w, plan + steps).Ok?
    requires n in w.nodes && Candidate(goal, w.nodes[n], t, now) && 0 <= replica < AuthorizedReplicas(goal, w)
    requires steps == ReplicaSteps(goal, w.volumes, w.nodes[n], replica) && Missing(goal, w, replica)
    ensures Placeable(goal, w, plan + steps, now)
  {
    PlaceableUpTo(goal, w, plan, t, n, replica, now, steps, |steps|);
    assert steps[..|steps|] == steps;
  }

  // ---- The agent ----

  method AttachVolumes(goal: Goal, volumes: map<Id, Volume>, n: Node, id: Id) returns (steps: seq<Action>)
    ensures steps == VolumeSteps(goal, volumes, n, id, goal.workload.volumes)
  {
    var refs := goal.workload.volumes;
    steps := [];
    for k := 0 to |refs|
      invariant steps == VolumeSteps(goal, volumes, n, id, refs[..k])
    {
      assert refs[..k + 1][..k] == refs[..k];
      steps := steps + VolumePair(goal, volumes, n, id, refs[k]);
    }
    assert refs[..|refs|] == refs;
  }

  method MountSecrets(goal: Goal, n: Node, id: Id) returns (steps: seq<Action>)
    ensures steps == SecretSteps(goal, n, id, goal.workload.secrets)
  {
    var refs := goal.workload.secrets;
    steps := [];
    for k := 0 to |refs|
      invariant steps == SecretSteps(goal, n, id, refs[..k])
    {
      assert refs[..k + 1][..k] == refs[..k];
      steps := steps + [MountStep(goal, n, id, refs[k])];
    }
    assert refs[..|refs|] == refs;
  }

  // ---- Only missing replicas are created ----

  ghost predicate CreatesOnly(steps: seq<Action>, replica: int) {
    forall i :: 0 <= i < |steps| && steps[i].kind.CreateAllocation? ==> steps[i].replica == replica
  }

  lemma CreatesOnlyConcat(a: seq<Action>, b: seq<Action>, replica: int)
    requires CreatesOnly(a, replica) && CreatesOnly(b, replica)
    ensures CreatesOnly(a + b, replica)
  {
  }

  lemma {:induction false} VolumesCreateNoReplica(goal: Goal, volumes: map<Id, Volume>, n: Node, id: Id, refs: seq<VolumeRef>, replica: int)
    ensures CreatesOnly(VolumeSteps(goal, volumes, n, id, refs), replica)
    decreases |refs|
  {
    if refs != [] {
      var front := refs[..|refs| - 1];
      VolumesCreateNoReplica(goal, volumes, n, id, front, replica);
      CreatesOnlyConcat(VolumeSteps(goal, volumes, n, id, front), VolumePair(goal, volumes, n, id, refs[|refs| - 1]), replica);
    }
  }

  lemma PreparationsCreateNone(goal: Goal, volumes: map<Id, Volume>, n: Node, id: Id, replica: int)
    ensures CreatesOnly(Preparations(goal, volumes, n, id), replica)
  {
    var grants, attaches := GrantSteps(goal, n, id), VolumeSteps(goal, volumes, n, id, goal.workload.volumes);
    var mounts, network := SecretSteps(goal, n, id, goal.workload.secrets), NetworkSteps(goal, n, id);
    VolumesCreateNoReplica(goal, volumes, n, id, goal.workload.volumes, replica);
    forall i | 0 <= i < |mounts| ensures Prepares(mounts[i], id) { SecretsPrepare(goal, n, id, goal.workload.secrets, i); }
    CreatesOnlyConcat(grants, attaches, replica);
    CreatesOnlyConcat(grants + attaches, mounts, replica);
    CreatesOnlyConcat(grants + attaches + mounts, network, replica);
  }

  lemma AfterCreateCreatesNone(goal: Goal, volumes: map<Id, Volume>, n: Node, id: Id, replica: int)
    ensures CreatesOnly(AfterCreate(goal, volumes, n, id), replica)
  {
    PreparationsCreateNone(goal, volumes, n, id, replica);
    StartPrepares(goal, volumes, n, id);
    CreatesOnlyConcat(Preparations(goal, volumes, n, id), [StartStep(goal, volumes, n, id)], replica);
  }

  lemma ReplicaCreatesOnly(goal: Goal, volumes: map<Id, Volume>, n: Node, replica: int)
    ensures CreatesOnly(ReplicaSteps(goal, volumes, n, replica), replica)
  {
    var id := AllocationID(goal.workload.name, replica);
    AfterCreateCreatesNone(goal, volumes, n, id, replica);
    CreatesOnlyConcat([CreateStep(goal, n, id, replica)], AfterCreate(goal, volumes, n, id), replica);
    CreatesOnlyConcat(PullSteps(goal, n, id), [CreateStep(goal, n, id, replica)] + AfterCreate(goal, volumes, n, id), replica);
  }

  ghost predicate FillsGaps(goal: Goal, w: World, plan: seq<Action>) {
    forall i :: 0 <= i < |plan| && plan[i].kind.CreateAllocation? ==> Missing(goal, w, plan[i].replica)
  }

  lemma GapsConcat(goal: Goal, w: World, plan: seq<Action>, steps: seq<Action>, replica: int)
    requires FillsGaps(goal, w, plan) && CreatesOnly(steps, replica) && Missing(goal, w, replica)
    ensures FillsGaps(goal, w, plan + steps)
  {
  }

  method PlaceReplica(goal: Goal, volumes: map<Id, Volume>, n: Node, replica: int) returns (steps: seq<Action>)
    requires DistinctSecrets(goal.workload.secrets) && DistinctVolumes(goal.workload.volumes)
    ensures steps == ReplicaSteps(goal, volumes, n, replica)
    ensures AllInTurn(steps) <==> !Clashes(goal, volumes, AllocationID(goal.workload.name, replica))
    ensures |steps| == ReplicaCost(goal, volumes) + PullCount(steps)
  {
    ReplicaInTurn(goal, volumes, n, replica);
    ReplicaPulls(goal, volumes, n, replica);
    var id := AllocationID(goal.workload.name, replica);
    var attaches := AttachVolumes(goal, volumes, n, id);
    var mounts := MountSecrets(goal, n, id);
    var preparations := GrantSteps(goal, n, id) + attaches + mounts + NetworkSteps(goal, n, id);
    steps := PullSteps(goal, n, id) + ([CreateStep(goal, n, id, replica)] + (preparations + [StartStep(goal, volumes, n, id)]));
  }

  /** The node the workload's data already lives on, and whether any of it is on the move. */
  function VolumeHome(goal: Goal, w: World): Id { HomeAmong(goal.workload.volumes, w.volumes) }

  function HomeAmong(refs: seq<VolumeRef>, volumes: map<Id, Volume>): Id {
    if refs == [] then "" else if refs[0].name in volumes then volumes[refs[0].name].node else HomeAmong(refs[1..], volumes)
  }

  predicate VolumeInFlight(goal: Goal, w: World) {
    exists i :: 0 <= i < |goal.workload.volumes| && goal.workload.volumes[i].name in w.volumes &&
                w.volumes[goal.workload.volumes[i].name].handoff.Some?
  }

  function ReadyCheck(goal: Goal, id: Id): Check {
    Check(if goal.workload.runtime.Some? then CheckAgentReady else CheckAllocationReady, id, true)
  }

  predicate HomeUsable(goal: Goal, w: World) {
    var home := VolumeHome(goal, w);
    home == "" || (home in w.nodes && w.nodes[home].Schedulable())
  }

  /** The node that data, or else the books, decide on. */
  function Chosen(goal: Goal, w: World, ids: seq<Id>, t: Taken, now: Time): Option<Id>
    requires forall id :: id in ids ==> id in w.nodes
  {
    var best := BestAmong(goal, w.nodes, ids, |ids|, t, now);
    if best == -1 || VolumeInFlight(goal, w) || !HomeUsable(goal, w) then None
    else if VolumeHome(goal, w) != "" then Some(VolumeHome(goal, w)) else Some(ids[best])
  }

  /** The node a replica goes to: where its data lives, or the candidate with the most memory left. There is none
      exactly when nothing is a candidate, or the data is on the move or out of reach. */
  method ChooseNode(goal: Goal, w: World, ids: seq<Id>, t: Taken, now: Time) returns (n: Option<Id>)
    requires forall id :: id in ids ==> id in w.nodes
    ensures n == Chosen(goal, w, ids, t, now)
    ensures n.None? <==>
      (forall id :: id in ids ==> !Candidate(goal, w.nodes[id], t, now)) || VolumeInFlight(goal, w) || !HomeUsable(goal, w)
    ensures n.Some? && VolumeHome(goal, w) != "" ==> n.value == VolumeHome(goal, w) && n.value in w.nodes
    ensures n.Some? && VolumeHome(goal, w) == "" ==>
      && n.value in ids && Candidate(goal, w.nodes[n.value], t, now)
      && forall id :: id in ids && Candidate(goal, w.nodes[id], t, now) ==>
           FreeMemory(goal, w.nodes[id], t) <= FreeMemory(goal, w.nodes[n.value], t)
  {
    var best := SelectNode(goal, w.nodes, ids, t, now);
    if best == -1 { return None; }
    if VolumeInFlight(goal, w) { return None; }
    var home := VolumeHome(goal, w);
    if home == "" { return Some(ids[best]); }
    if home !in w.nodes || !w.nodes[home].Schedulable() { return None; }
    return Some(home);
  }

  /** For a goal without volumes: the books are right and the plan so far is placeable and in order. */
  ghost predicate InHand(goal: Goal, w: World, plan: seq<Action>, t: Taken, replica: nat, now: Time) {
    Booked(goal, w, plan, t, replica) && Placeable(goal, w, plan, now) && InOrder(plan) && NumberedBelow(plan, replica)
  }

  ghost predicate Sized(goal: Goal, w: World, plan: seq<Action>, placed: nat) {
    |plan| == placed * ReplicaCost(goal, w.volumes) + PullCount(plan)
  }

  lemma SizedOneMore(goal: Goal, w: World, plan: seq<Action>, placed: nat, steps: seq<Action>)
    requires Sized(goal, w, plan, placed) && |steps| == ReplicaCost(goal, w.volumes) + PullCount(steps)
    ensures Sized(goal, w, plan + steps, placed + 1)
  {
    PullsConcat(plan, steps);
  }

  lemma InHandOneMore(goal: Goal, w: World, plan: seq<Action>, t: Taken, n: Id, replica: nat, now: Time, steps: seq<Action>)
    requires goal.workload.volumes == [] && NamedNodes(w.nodes) && DistinctSecrets(goal.workload.secrets)
    requires InHand(goal, w, plan, t, replica, now) && Missing(goal, w, replica) && replica < AuthorizedReplicas(goal, w)
    requires n in w.nodes && Candidate(goal, w.nodes[n], t, now) && steps == ReplicaSteps(goal, w.volumes, w.nodes[n], replica)
    ensures InHand(goal, w, plan + steps, Took(goal, t, w.nodes[n]), replica + 1, now)
  {
    BookedOneMore(goal, w, plan, t, n, replica, steps);
    PlaceableOneMore(goal, w, plan, t, n, replica, now, steps);
    NextReplicaInOrder(goal, w.volumes, w.nodes[n], plan, replica);
  }

  lemma InHandSkip(goal: Goal, w: World, plan: seq<Action>, t: Taken, replica: nat, now: Time)
    requires InHand(goal, w, plan, t, replica, now)
    ensures InHand(goal, w, plan, t, replica + 1, now)
  {
    FilledOneMore(goal, w, SimulateAll(w, plan).value, SimulateAll(w, plan).value, replica);
    NumberedOneMore(plan, [], replica);
    assert plan + [] == plan;
  }

  /** A plan in the making and what it has taken. */
  datatype Draft = Draft(plan: seq<Action>, taken: Taken)

  /** It fills only missing slots, and its size is known exactly. */
  ghost predicate Shaped(goal: Goal, w: World, plan: seq<Action>, placed: nat) {
    FillsGaps(goal, w, plan) && Sized(goal, w, plan, placed)
  }

  lemma ShapedOneMore(goal: Goal, w: World, plan: seq<Action>, placed: nat, n: Id, replica: nat, steps: seq<Action>)
    requires DistinctSecrets(goal.workload.secrets) && Shaped(goal, w, plan, placed)
    requires Missing(goal, w, replica) && n in w.nodes && steps == ReplicaSteps(goal, w.volumes, w.nodes[n], replica)
    ensures Shaped(goal, w, plan + steps, placed + 1)
  {
    ReplicaCreatesOnly(goal, w.volumes, w.nodes[n], replica);
    GapsConcat(goal, w, plan, steps, replica);
    ReplicaPulls(goal, w.volumes, w.nodes[n], replica);
    SizedOneMore(goal, w, plan, placed, steps);
  }

  // ---- Which slots ----

  /** The missing slots below a number, lowest first. */
  function MissingBelow(filled: set<int>, n: int): seq<int> {
    if n <= 0 then [] else MissingBelow(filled, n - 1) + if n - 1 in filled then [] else [n - 1]
  }

  lemma MissingIsNotFilled(goal: Goal, w: World, replica: int)
    requires replica >= 0
    ensures Missing(goal, w, replica) <==> replica !in FilledSlots(goal, w)
  {
  }

  lemma {:induction false} MissingPrefix(filled: set<int>, k: int, n: int)
    requires k <= n
    ensures MissingBelow(filled, k) <= MissingBelow(filled, n)
    decreases n - k
  {
    if k < n { MissingPrefix(filled, k, n - 1); }
  }

  /** The slots one proposal fills: the lowest missing ones, up to the limit. */
  function Slots(filled: set<int>, desired: int): seq<int> {
    var missing := MissingBelow(filled, desired);
    if |missing| <= MAX_REPLICAS_PER_PROPOSAL then missing else missing[..MAX_REPLICAS_PER_PROPOSAL]
  }

  /** The missing slots are exactly the numbers below that are not filled, each once and in rising order. */
  lemma {:induction false} MissingRises(filled: set<int>, n: int)
    ensures forall r :: r in MissingBelow(filled, n) <==> 0 <= r < n && r !in filled
    ensures forall i, j :: 0 <= i < j < |MissingBelow(filled, n)| ==> MissingBelow(filled, n)[i] < MissingBelow(filled, n)[j]
  {
    if n > 0 {
      MissingRises(filled, n - 1);
      var before, all := MissingBelow(filled, n - 1), MissingBelow(filled, n);
      forall i, j | 0 <= i < j < |all| ensures all[i] < all[j] {
        assert all[i] == before[i] && before[i] in before;
      }
    }
  }

  /** One proposal fills as many missing slots as it may, and none while a lower one stays missing. */
  lemma SlotsAreLowest(filled: set<int>, desired: int)
    ensures |Slots(filled, desired)| == Min(MAX_REPLICAS_PER_PROPOSAL, |MissingBelow(filled, desired)|)
    ensures forall r :: r in Slots(filled, desired) ==> 0 <= r < desired && r !in filled
    ensures forall r, low :: r in Slots(filled, desired) && 0 <= low < r && low !in filled ==> low in Slots(filled, desired)
  {
    var all, slots := MissingBelow(filled, desired), Slots(filled, desired);
    MissingRises(filled, desired);
    forall r | r in slots ensures r in all {}
    forall r, low | r in slots && 0 <= low < r && low !in filled ensures low in slots {
      var i :| 0 <= i < |slots| && slots[i] == r;
      assert low in all;
      var j :| 0 <= j < |all| && all[j] == low;
      assert j <= i;
      assert slots[j] == low;
    }
  }

  function Desired(goal: Goal, w: World, now: Time): int { DesiredReplicas(goal, w, |FilledSlots(goal, w)|, now) }

  /** The readiness of the replica of each slot, in order. */
  function ChecksFor(goal: Goal, slots: seq<int>): seq<Check> {
    if slots == [] then [] else ChecksFor(goal, slots[..|slots| - 1]) + [ReadyCheck(goal, AllocationID(goal.workload.name, slots[|slots| - 1]))]
  }

  function SlotIDs(goal: Goal, slots: seq<int>): seq<Id> {
    if slots == [] then [] else SlotIDs(goal, slots[..|slots| - 1]) + [AllocationID(goal.workload.name, slots[|slots| - 1])]
  }

  // ---- Which nodes ----

  /** Nodes for so many replicas, and the books after placing them. */
  datatype Spread = Spread(nodes: seq<Id>, taken: Taken)

  /** The nodes for n replicas placed one by one; none when there is no node for one of them. */
  function Picked(goal: Goal, w: World, ids: seq<Id>, n: nat, t: Taken, now: Time): (r: Option<Spread>)
    requires forall id :: id in ids ==> id in w.nodes
    ensures r.Some? ==> |r.value.nodes| == n
  {
    if n == 0 then Some(Spread([], t))
    else
      var before := Picked(goal, w, ids, n - 1, t, now);
      if before.None? then None else OneMore(goal, w, before.value, Chosen(goal, w, ids, before.value.taken, now))
  }

  function OneMore(goal: Goal, w: World, s: Spread, next: Option<Id>): Option<Spread> {
    if next.None? || next.value !in w.nodes then None else Some(Spread(s.nodes + [next.value], Took(goal, s.taken, w.nodes[next.value])))
  }

  /** Once k replicas were placed, there is no node for another. */
  ghost predicate StopsAfter(goal: Goal, w: World, ids: seq<Id>, k: nat, t: Taken, now: Time)
    requires forall id :: id in ids ==> id in w.nodes
  {
    var s := Picked(goal, w, ids, k, t, now);
    s.Some? && Chosen(goal, w, ids, s.value.taken, now).None?
  }

  ghost predicate StopsBefore(goal: Goal, w: World, ids: seq<Id>, n: nat, t: Taken, now: Time)
    requires forall id :: id in ids ==> id in w.nodes
  {
    exists k :: 0 <= k < n && StopsAfter(goal, w, ids, k, t, now)
  }

  lemma PickedStep(goal: Goal, w: World, ids: seq<Id>, n: nat, t: Taken, now: Time)
    requires forall id :: id in ids ==> id in w.nodes
    ensures Picked(goal, w, ids, n + 1, t, now).None? <==> Picked(goal, w, ids, n, t, now).None? || StopsAfter(goal, w, ids, n, t, now)
  {
  }

  lemma StopsStep(goal: Goal, w: World, ids: seq<Id>, n: nat, t: Taken, now: Time)
    requires forall id :: id in ids ==> id in w.nodes
    ensures StopsBefore(goal, w, ids, n + 1, t, now) <==> StopsBefore(goal, w, ids, n, t, now) || StopsAfter(goal, w, ids, n, t, now)
  {
  }

  /** There are no nodes for n replicas exactly when some replica before finds none. */
  lemma {:induction false} PickedExactly(goal: Goal, w: World, ids: seq<Id>, n: nat, t: Taken, now: Time)
    requires forall id :: id in ids ==> id in w.nodes
    ensures Picked(goal, w, ids, n, t, now).None? <==> StopsBefore(goal, w, ids, n, t, now)
  {
    if n > 0 {
      var k: nat := n - 1;
      PickedExactly(goal, w, ids, k, t, now);
      PickedStep(goal, w, ids, k, t, now);
      StopsStep(goal, w, ids, k, t, now);
    }
  }

  // ---- The actions ----

  /** The actions that bring the replicas of the slots up on the nodes, slot by slot. */
  function PlanFor(goal: Goal, w: World, nodes: seq<Id>, slots: seq<int>): seq<Action>
    requires |nodes| == |slots|
  {
    if slots == [] then []
    else
      var k := |slots| - 1;
      PlanFor(goal, w, nodes[..k], slots[..k]) + StepsOn(goal, w, nodes[k], slots[k])
  }

  function StepsOn(goal: Goal, w: World, n: Id, slot: int): seq<Action> {
    if n in w.nodes then ReplicaSteps(goal, w.volumes, w.nodes[n], slot) else []
  }

  function Flattened(batches: seq<seq<Action>>): seq<Action> {
    if batches == [] then [] else Flattened(batches[..|batches| - 1]) + batches[|batches| - 1]
  }

  /** One batch of actions a slot, on the node picked for it. */
  ghost predicate Batched(goal: Goal, w: World, nodes: seq<Id>, slots: seq<int>, batches: seq<seq<Action>>) {
    && |nodes| == |slots| == |batches|
    && forall i :: 0 <= i < |batches| ==> nodes[i] in w.nodes && batches[i] == StepsOn(goal, w, nodes[i], slots[i])
  }

  lemma {:induction false} BatchesArePlan(goal: Goal, w: World, nodes: seq<Id>, slots: seq<int>, batches: seq<seq<Action>>)
    requires Batched(goal, w, nodes, slots, batches)
    ensures Flattened(batches) == PlanFor(goal, w, nodes, slots)
    decreases |slots|
  {
    if slots != [] {
      var k := |slots| - 1;
      BatchesArePlan(goal, w, nodes[..k], slots[..k], batches[..k]);
    }
  }

  /** The actions create exactly the replicas of the slots, in order. */
  lemma {:induction false} BatchesCreate(goal: Goal, slots: seq<int>, batches: seq<seq<Action>>)
    requires |batches| == |slots|
    requires forall i :: 0 <= i < |batches| ==> Creations(batches[i]) == [AllocationID(goal.workload.name, slots[i])]
    ensures Creations(Flattened(batches)) == SlotIDs(goal, slots)
    decreases |slots|
  {
    if slots != [] {
      var k := |slots| - 1;
      BatchesCreate(goal, slots[..k], batches[..k]);
      CreatedConcat(Flattened(batches[..k]), batches[k]);
    }
  }

  lemma BatchCreates(goal: Goal, w: World, nodes: seq<Id>, slots: seq<int>, batches: seq<seq<Action>>, i: nat)
    requires Batched(goal, w, nodes, slots, batches) && i < |batches|
    ensures Creations(batches[i]) == [AllocationID(goal.workload.name, slots[i])]
  {
    StepsCreate(goal, w.volumes, w.nodes[nodes[i]], slots[i], AllocationID(goal.workload.name, slots[i]));
  }

  lemma BatchedCreate(goal: Goal, w: World, nodes: seq<Id>, slots: seq<int>, batches: seq<seq<Action>>)
    requires Batched(goal, w, nodes, slots, batches)
    ensures Creations(Flattened(batches)) == SlotIDs(goal, slots)
  {
    forall i | 0 <= i < |batches| ensures Creations(batches[i]) == [AllocationID(goal.workload.name, slots[i])] {
      BatchCreates(goal, w, nodes, slots, batches, i);
    }
    BatchesCreate(goal, slots, batches);
  }

  /** The live replicas of the workload in each domain that has any. */
  ghost predicate Tallies(counts: map<Id, int>, w: World, workload: Id) {
    && (forall d :: CountOf(counts, d) == |Occupants(w, workload, d)|)
    && (forall d :: d in counts ==> counts[d] > 0)
  }

  lemma TalliesAreUnique(a: map<Id, int>, b: map<Id, int>, w: World, workload: Id)
    requires Tallies(a, w, workload) && Tallies(b, w, workload)
    ensures a == b
  {
    forall d ensures (d in a <==> d in b) && CountOf(a, d) == CountOf(b, d) {
      assert CountOf(a, d) == |Occupants(w, workload, d)| == CountOf(b, d);
    }
  }

  // ---- The walk over the slots ----

  function Advanced(goal: Goal, w: World, d: Draft, slot: int, n: Option<Id>): Result<Draft> {
    if n.None? || n.value !in w.nodes then Err
    else Ok(Draft(d.plan + StepsOn(goal, w, n.value, slot), Took(goal, d.taken, w.nodes[n.value])))
  }

  /** The draft after placing the missing slots below a number one by one; none when one of them finds no node. */
  function DraftBelow(goal: Goal, w: World, ids: seq<Id>, filled: set<int>, n: int, t: Taken, now: Time): Result<Draft>
    requires forall id :: id in ids ==> id in w.nodes
  {
    if n <= 0 then Ok(Draft([], t))
    else
      var d := DraftBelow(goal, w, ids, filled, n - 1, t, now);
      if d.Err? || n - 1 in filled then d else Advanced(goal, w, d.value, n - 1, Chosen(goal, w, ids, d.value.taken, now))
  }

  ghost predicate Succeeds(goal: Goal, w: World, ids: seq<Id>, filled: set<int>, now: Time, d: Draft, slot: int, next: Draft)
    requires forall id :: id in ids ==> id in w.nodes
  {
    if slot in filled then next == d else Advanced(goal, w, d, slot, Chosen(goal, w, ids, d.taken, now)) == Ok(next)
  }

  lemma DraftFollows(goal: Goal, w: World, ids: seq<Id>, filled: set<int>, n: nat, t: Taken, now: Time, d: Draft) returns (e: Draft)
    requires (forall id :: id in ids ==> id in w.nodes) && DraftBelow(goal, w, ids, filled, n + 1, t, now) == Ok(d)
    ensures DraftBelow(goal, w, ids, filled, n, t, now) == Ok(e) && Succeeds(goal, w, ids, filled, now, e, n, d)
  {
    e := DraftBelow(goal, w, ids, filled, n, t, now).value;
  }

  /** A draft is the actions for its slots on the nodes picked for them. */
  lemma {:induction false} DraftIsReached(goal: Goal, w: World, ids: seq<Id>, filled: set<int>, n: nat, t: Taken, now: Time, d: Draft)
      returns (nodes: seq<Id>, batches: seq<seq<Action>>)
    requires (forall id :: id in ids ==> id in w.nodes) && DraftBelow(goal, w, ids, filled, n, t, now) == Ok(d)
    ensures Reached(goal, w, ids, t, now, d, |MissingBelow(filled, n)|, nodes, MissingBelow(filled, n), batches)
    decreases n
  {
    if n == 0 {
      nodes, batches := [], [];
    } else {
      var e := DraftFollows(goal, w, ids, filled, n - 1, t, now, d);
      var before := MissingBelow(filled, n - 1);
      nodes, batches := DraftIsReached(goal, w, ids, filled, n - 1, t, now, e);
      nodes, batches := ReachedFollows(goal, w, ids, filled, t, now, e, |before|, nodes, before, batches, n - 1, d);
      MissingNext(filled, n - 1);
    }
  }

  lemma ReachedFollows(goal: Goal, w: World, ids: seq<Id>, filled: set<int>, t: Taken, now: Time, d: Draft, k: nat, nodes: seq<Id>,
                       slots: seq<int>, batches: seq<seq<Action>>, slot: int, next: Draft)
      returns (nodes': seq<Id>, batches': seq<seq<Action>>)
    requires (forall x :: x in ids ==> x in w.nodes) && Reached(goal, w, ids, t, now, d, k, nodes, slots, batches)
    requires Succeeds(goal, w, ids, filled, now, d, slot, next)
    ensures slot in filled ==> Reached(goal, w, ids, t, now, next, k, nodes', slots, batches')
    ensures slot !in filled ==> Reached(goal, w, ids, t, now, next, k + 1, nodes', slots + [slot], batches')
  {
    if slot in filled {
      nodes', batches' := nodes, batches;
    } else {
      nodes', batches' := ReachedAfter(goal, w, ids, t, now, d, k, nodes, slots, batches, Chosen(goal, w, ids, d.taken, now).value, slot, next);
    }
  }

  lemma ReachedAfter(goal: Goal, w: World, ids: seq<Id>, t: Taken, now: Time, d: Draft, k: nat, nodes: seq<Id>, slots: seq<int>,
                     batches: seq<seq<Action>>, n: Id, slot: int, next: Draft)
      returns (nodes': seq<Id>, batches': seq<seq<Action>>)
    requires (forall x :: x in ids ==> x in w.nodes) && Reached(goal, w, ids, t, now, d, k, nodes, slots, batches)
    requires n in w.nodes && Chosen(goal, w, ids, d.taken, now) == Some(n)
    requires next == Draft(d.plan + StepsOn(goal, w, n, slot), Took(goal, d.taken, w.nodes[n]))
    ensures Reached(goal, w, ids, t, now, next, k + 1, nodes', slots + [slot], batches')
  {
    ReachedNext(goal, w, ids, t, now, d, k, nodes, slots, batches, n, slot, StepsOn(goal, w, n, slot));
    nodes', batches' := nodes + [n], batches + [StepsOn(goal, w, n, slot)];
  }

  lemma ChosenIsCandidate(goal: Goal, w: World, ids: seq<Id>, t: Taken, now: Time, n: Id)
    requires (forall id :: id in ids ==> id in w.nodes) && Chosen(goal, w, ids, t, now) == Some(n) && goal.workload.volumes == []
    ensures n in w.nodes && Candidate(goal, w.nodes[n], t, now)
  {
    BestIsCandidate(goal, w.nodes, ids, |ids|, t, now);
  }

  lemma {:induction false} BestIsCandidate(goal: Goal, nodes: map<Id, Node>, ids: seq<Id>, k: nat, t: Taken, now: Time)
    requires k <= |ids| && (forall id :: id in ids ==> id in nodes) && BestAmong(goal, nodes, ids, k, t, now) != -1
    ensures Candidate(goal, nodes[ids[BestAmong(goal, nodes, ids, k, t, now)]], t, now)
  {
    if BestAmong(goal, nodes, ids, k, t, now) != k - 1 { BestIsCandidate(goal, nodes, ids, k - 1, t, now); }
  }

  /** A draft that finds no next node stops there. */
  lemma DraftStops(goal: Goal, w: World, ids: seq<Id>, filled: set<int>, n: nat, t: Taken, now: Time, d: Draft)
    requires (forall id :: id in ids ==> id in w.nodes) && DraftBelow(goal, w, ids, filled, n, t, now) == Ok(d)
    requires Chosen(goal, w, ids, d.taken, now).None?
    ensures StopsAfter(goal, w, ids, |MissingBelow(filled, n)|, t, now)
  {
    var nodes, batches := DraftIsReached(goal, w, ids, filled, n, t, now, d);
  }

  lemma MissingNext(filled: set<int>, n: nat)
    ensures MissingBelow(filled, n + 1) == if n in filled then MissingBelow(filled, n) else MissingBelow(filled, n) + [n]
  {
  }

  /** What is not filled is missing. */
  ghost predicate Rest(goal: Goal, w: World, filled: set<int>) {
    forall r: nat :: r !in filled ==> Missing(goal, w, r)
  }

  lemma FollowsShaped(goal: Goal, w: World, ids: seq<Id>, filled: set<int>, now: Time, d: Draft, slot: nat, next: Draft, placed: nat,
                      placed': nat)
    requires (forall id :: id in ids ==> id in w.nodes) && DistinctSecrets(goal.workload.secrets) && Rest(goal, w, filled)
    requires Succeeds(goal, w, ids, filled, now, d, slot, next) && Shaped(goal, w, d.plan, placed)
    requires placed' == placed + if slot in filled then 0 else 1
    ensures Shaped(goal, w, next.plan, placed')
  {
    if slot !in filled {
      var n := Chosen(goal, w, ids, d.taken, now).value;
      ShapedOneMore(goal, w, d.plan, placed, n, slot, StepsOn(goal, w, n, slot));
    }
  }

  lemma NothingShaped(goal: Goal, w: World)
    ensures Shaped(goal, w, [], 0)
  {
  }

  lemma {:induction false} DraftIsShaped(goal: Goal, w: World, ids: seq<Id>, filled: set<int>, n: nat, t: Taken, now: Time, d: Draft, placed: nat)
    requires (forall id :: id in ids ==> id in w.nodes) && DistinctSecrets(goal.workload.secrets) && Shaped(goal, w, [], 0)
    requires DraftBelow(goal, w, ids, filled, n, t, now) == Ok(d) && Rest(goal, w, filled) && placed == CountBelow(filled, n)
    ensures Shaped(goal, w, d.plan, placed)
    decreases n
  {
    if n == 0 {
      assert d == Draft([], t) && placed == 0;
    } else {
      var k: nat := n - 1;
      var before := CountBelow(filled, k);
      var e := DraftFollows(goal, w, ids, filled, k, t, now, d);
      DraftIsShaped(goal, w, ids, filled, k, t, now, e, before);
      FollowsShaped(goal, w, ids, filled, now, e, k, d, before, placed);
    }
  }

  lemma FollowsInHand(goal: Goal, w: World, ids: seq<Id>, filled: set<int>, now: Time, d: Draft, slot: nat, next: Draft)
    requires (forall id :: id in ids ==> id in w.nodes) && NamedNodes(w.nodes) && DistinctSecrets(goal.workload.secrets)
    requires goal.workload.volumes == [] && filled == FilledSlots(goal, w) && slot < AuthorizedReplicas(goal, w)
    requires Succeeds(goal, w, ids, filled, now, d, slot, next) && InHand(goal, w, d.plan, d.taken, slot, now)
    ensures InHand(goal, w, next.plan, next.taken, slot + 1, now)
  {
    if slot in filled {
      InHandSkip(goal, w, d.plan, d.taken, slot, now);
    } else {
      var n := Chosen(goal, w, ids, d.taken, now).value;
      MissingIsNotFilled(goal, w, slot);
      ChosenIsCandidate(goal, w, ids, d.taken, now, n);
      InHandOneMore(goal, w, d.plan, d.taken, n, slot, now, StepsOn(goal, w, n, slot));
    }
  }

  /** Along the way the books stay right and the plan placeable. */
  lemma {:induction false} DraftIsInHand(goal: Goal, w: World, ids: seq<Id>, filled: set<int>, n: nat, t: Taken, now: Time, d: Draft)
    requires (forall id :: id in ids ==> id in w.nodes) && NamedNodes(w.nodes) && DistinctSecrets(goal.workload.secrets)
    requires goal.workload.volumes == [] && filled == FilledSlots(goal, w) && n <= Max(0, AuthorizedReplicas(goal, w))
    requires DraftBelow(goal, w, ids, filled, n, t, now) == Ok(d) && InHand(goal, w, [], t, 0, now)
    ensures InHand(goal, w, d.plan, d.taken, n, now)
    decreases n
  {
    if n > 0 {
      var k: nat := n - 1;
      var e := DraftFollows(goal, w, ids, filled, k, t, now, d);
      DraftIsInHand(goal, w, ids, filled, k, t, now, e);
      FollowsInHand(goal, w, ids, filled, now, e, k, d);
    }
  }

  function CountBelow(filled: set<int>, n: int): nat {
    if n <= 0 then 0 else CountBelow(filled, n - 1) + if n - 1 in filled then 0 else 1
  }

  lemma {:induction false} MissingCount(filled: set<int>, n: int)
    ensures |MissingBelow(filled, n)| == CountBelow(filled, n)
  {
    if n > 0 { MissingCount(filled, n - 1); }
  }

  // ---- The proposal ----

  /** One replica more, if there is a node for it. */
  method PlaceNext(goal: Goal, w: World, nodeIds: seq<Id>, d: Draft, replica: nat, now: Time) returns (r: Result<Draft>)
    requires Listing(nodeIds, w.nodes.Keys) && NamedNodes(w.nodes)
    requires DistinctSecrets(goal.workload.secrets) && DistinctVolumes(goal.workload.volumes)
    ensures r == Advanced(goal, w, d, replica, Chosen(goal, w, nodeIds, d.taken, now))
    ensures r.Err? <==> Chosen(goal, w, nodeIds, d.taken, now).None?
  {
    var n := ChooseNode(goal, w, nodeIds, d.taken, now);
    if n.None? { return Err; }
    var steps := PlaceReplica(goal, w.volumes, w.nodes[n.value], replica);
    r := Ok(Draft(d.plan + steps, Took(goal, d.taken, w.nodes[n.value])));
  }

  lemma NothingDrafted(goal: Goal, w: World, t: Taken, now: Time)
    requires t.resources == map[] && t.budget == map[] && Tallies(t.occupancy, w, goal.workload.name)
    ensures InHand(goal, w, [], t, 0, now)
  {
    NothingTaken(goal, w, t);
  }

  /** What a finished draft promises: for goals without volumes the plan goes through in simulation, passes the
      kernel's creation checks and has every action in turn; for all goals it fills only missing slots, and its
      size is known exactly. */
  ghost predicate Sound(goal: Goal, w: World, plan: seq<Action>, placed: nat, now: Time) {
    && placed <= MAX_REPLICAS_PER_PROPOSAL && FillsGaps(goal, w, plan) && Sized(goal, w, plan, placed)
    && (goal.workload.volumes == [] ==> Placeable(goal, w, plan, now) && AllInTurn(plan))
  }

  lemma DraftIsSound(goal: Goal, w: World, ids: seq<Id>, filled: set<int>, n: nat, t: Taken, now: Time, d: Draft, placed: nat)
    requires (forall id :: id in ids ==> id in w.nodes) && NamedNodes(w.nodes) && DistinctSecrets(goal.workload.secrets)
    requires filled == FilledSlots(goal, w) && n <= Max(0, AuthorizedReplicas(goal, w)) && placed == CountBelow(filled, n) <= MAX_REPLICAS_PER_PROPOSAL
    requires goal.workload.volumes == [] ==> InHand(goal, w, [], t, 0, now)
    requires DraftBelow(goal, w, ids, filled, n, t, now) == Ok(d)
    ensures Sound(goal, w, d.plan, placed, now)
  {
    NothingShaped(goal, w);
    forall r: nat | r !in filled ensures Missing(goal, w, r) { MissingIsNotFilled(goal, w, r); }
    DraftIsShaped(goal, w, ids, filled, n, t, now, d, placed);
    if goal.workload.volumes == [] {
      DraftIsInHand(goal, w, ids, filled, n, t, now, d);
      InOrderIsInTurn(d.plan);
    }
  }

  /** How far the walk has come: k slots, the nodes picked for them and their actions. */
  ghost predicate Reached(goal: Goal, w: World, ids: seq<Id>, t: Taken, now: Time, d: Draft, k: nat, nodes: seq<Id>, slots: seq<int>,
                          batches: seq<seq<Action>>)
    requires forall id :: id in ids ==> id in w.nodes
  {
    && |slots| == k && Picked(goal, w, ids, k, t, now) == Some(Spread(nodes, d.taken))
    && Batched(goal, w, nodes, slots, batches) && d.plan == Flattened(batches)
  }

  lemma FlattenedNext(batches: seq<seq<Action>>, steps: seq<Action>)
    ensures Flattened(batches + [steps]) == Flattened(batches) + steps
  {
    assert (batches + [steps])[..|batches|] == batches;
  }

  lemma BatchedNext(goal: Goal, w: World, nodes: seq<Id>, slots: seq<int>, batches: seq<seq<Action>>, n: Id, slot: int, steps: seq<Action>)
    requires Batched(goal, w, nodes, slots, batches) && n in w.nodes && steps == StepsOn(goal, w, n, slot)
    ensures Batched(goal, w, nodes + [n], slots + [slot], batches + [steps])
  {
    var nodes', slots', batches' := nodes + [n], slots + [slot], batches + [steps];
    forall i | 0 <= i < |batches'| ensures nodes'[i] in w.nodes && batches'[i] == StepsOn(goal, w, nodes'[i], slots'[i]) {
      if i < |batches| { assert nodes'[i] == nodes[i] && slots'[i] == slots[i] && batches'[i] == batches[i]; }
    }
  }

  lemma PickedNext(goal: Goal, w: World, ids: seq<Id>, k: nat, t: Taken, now: Time, n: Id)
    requires (forall x :: x in ids ==> x in w.nodes) && n in w.nodes && Picked(goal, w, ids, k, t, now).Some?
    requires Chosen(goal, w, ids, Picked(goal, w, ids, k, t, now).value.taken, now) == Some(n)
    ensures var s := Picked(goal, w, ids, k, t, now).value;
            Picked(goal, w, ids, k + 1, t, now) == Some(Spread(s.nodes + [n], Took(goal, s.taken, w.nodes[n])))
  {
  }

  function ChecksBelow(goal: Goal, filled: set<int>, n: int): seq<Check> {
    if n <= 0 then []
    else ChecksBelow(goal, filled, n - 1) + if n - 1 in filled then [] else [ReadyCheck(goal, AllocationID(goal.workload.name, n - 1))]
  }

  lemma ChecksSnoc(goal: Goal, slots: seq<int>, slot: int)
    ensures ChecksFor(goal, slots + [slot]) == ChecksFor(goal, slots) + [ReadyCheck(goal, AllocationID(goal.workload.name, slot))]
  {
    assert (slots + [slot])[..|slots|] == slots;
  }

  lemma ChecksNext(goal: Goal, filled: set<int>, n: nat)
    ensures ChecksBelow(goal, filled, n + 1) ==
            if n in filled then ChecksBelow(goal, filled, n)
            else ChecksBelow(goal, filled, n) + [ReadyCheck(goal, AllocationID(goal.workload.name, n))]
  {
  }

  ghost predicate ChecksMatch(goal: Goal, filled: set<int>, n: int) {
    ChecksBelow(goal, filled, n) == ChecksFor(goal, MissingBelow(filled, n)) && |ChecksBelow(goal, filled, n)| == |MissingBelow(filled, n)|
  }

  lemma ChecksStep(goal: Goal, filled: set<int>, n: nat)
    requires ChecksMatch(goal, filled, n)
    ensures ChecksMatch(goal, filled, n + 1)
  {
    ChecksNext(goal, filled, n);
    MissingNext(filled, n);
    if n !in filled { ChecksSnoc(goal, MissingBelow(filled, n), n); }
  }

  lemma NoChecks(goal: Goal, filled: set<int>)
    ensures ChecksMatch(goal, filled, 0)
  {
  }

  lemma ChecksAre(goal: Goal, filled: set<int>, n: nat)
    ensures ChecksMatch(goal, filled, n)
  {
    NoChecks(goal, filled);
    var k := 0;
    while k < n
      invariant 0 <= k <= n && ChecksMatch(goal, filled, k)
    {
      ChecksStep(goal, filled, k);
      k := k + 1;
    }
  }

  lemma ReachedNext(goal: Goal, w: World, ids: seq<Id>, t: Taken, now: Time, d: Draft, k: nat, nodes: seq<Id>, slots: seq<int>,
                    batches: seq<seq<Action>>, n: Id, slot: int, steps: seq<Action>)
    requires (forall x :: x in ids ==> x in w.nodes) && Reached(goal, w, ids, t, now, d, k, nodes, slots, batches)
    requires n in w.nodes && Chosen(goal, w, ids, d.taken, now) == Some(n) && steps == StepsOn(goal, w, n, slot)
    ensures Reached(goal, w, ids, t, now, Draft(d.plan + steps, Took(goal, d.taken, w.nodes[n])), k + 1,
                    nodes + [n], slots + [slot], batches + [steps])
  {
    PickedNext(goal, w, ids, k, t, now, n);
    BatchedNext(goal, w, nodes, slots, batches, n, slot, steps);
    FlattenedNext(batches, steps);
  }

  /** The walk ends having placed exactly the slots of the proposal. */
  lemma WalkEnds(filled: set<int>, desired: int, replica: nat)
    requires |MissingBelow(filled, replica)| <= MAX_REPLICAS_PER_PROPOSAL && replica <= Max(0, desired)
    requires replica >= desired || |MissingBelow(filled, replica)| == MAX_REPLICAS_PER_PROPOSAL
    ensures MissingBelow(filled, replica) == Slots(filled, desired)
  {
    if replica < desired {
      MissingPrefix(filled, replica, desired);
      assert MissingBelow(filled, desired)[..MAX_REPLICAS_PER_PROPOSAL] == MissingBelow(filled, replica);
    }
  }

  lemma WalkStops(filled: set<int>, desired: int, replica: nat)
    requires replica < desired && replica !in filled && |MissingBelow(filled, replica)| < MAX_REPLICAS_PER_PROPOSAL
    ensures |Slots(filled, desired)| > |MissingBelow(filled, replica)|
  {
    MissingPrefix(filled, replica + 1, desired);
  }

  /** What a proposal is, the books having started from the live replicas in each domain: refused exactly when one
      of the slots finds no node, and otherwise the actions for the slots on the nodes picked for them. */
  ghost predicate Outcome(goal: Goal, w: World, ids: seq<Id>, slots: seq<int>, t: Taken, now: Time, r: Result<Proposal>)
    requires forall id :: id in ids ==> id in w.nodes
  {
    && (r.Err? <==> StopsBefore(goal, w, ids, |slots|, t, now))
    && (r.Ok? ==>
          var s := Picked(goal, w, ids, |slots|, t, now);
          && s.Some? && r.value.actions == PlanFor(goal, w, s.value.nodes, slots)
          && |r.value.expected| == |slots| && r.value.expected == ChecksFor(goal, slots) && Creations(r.value.actions) == SlotIDs(goal, slots))
  }

  lemma Refused(goal: Goal, w: World, ids: seq<Id>, slots: seq<int>, t: Taken, now: Time, k: nat)
    requires (forall id :: id in ids ==> id in w.nodes) && k < |slots| && StopsAfter(goal, w, ids, k, t, now)
    ensures Outcome(goal, w, ids, slots, t, now, Err)
  {
  }

  lemma Proposed(goal: Goal, w: World, ids: seq<Id>, filled: set<int>, n: nat, slots: seq<int>, t: Taken, now: Time, d: Draft, p: Proposal)
    requires (forall id :: id in ids ==> id in w.nodes) && DraftBelow(goal, w, ids, filled, n, t, now) == Ok(d) && p.actions == d.plan
    requires slots == MissingBelow(filled, n) && p.expected == ChecksBelow(goal, filled, n)
    ensures Outcome(goal, w, ids, slots, t, now, Ok(p))
  {
    var nodes, batches := DraftIsReached(goal, w, ids, filled, n, t, now, d);
    ChecksAre(goal, filled, n);
    PickedExactly(goal, w, ids, |slots|, t, now);
    BatchesArePlan(goal, w, nodes, slots, batches);
    BatchedCreate(goal, w, nodes, slots, batches);
  }

  /** The proposal fills the lowest missing slots, as many as one proposal may, promises readiness of each, and is
      refused exactly when one of them finds no node. */
  method Propose(goal: Goal, w: World, nodeIds: seq<Id>, allocationIds: seq<Id>, wall: Time) returns (r: Result<Proposal>)
    requires Listing(nodeIds, w.nodes.Keys) && Listing(allocationIds, w.allocations.Keys)
    requires NamedNodes(w.nodes) && goal.workload.replicas >= 0
    requires DistinctSecrets(goal.workload.secrets) && DistinctVolumes(goal.workload.volumes)
    ensures r.Ok? ==> r.value.agent == "placement-agent" && r.value.goal == goal.id && r.value.revision == w.revision
    ensures r.Ok? ==> Sound(goal, w, r.value.actions, |r.value.expected|, w.Now(wall))
    ensures exists counts :: Tallies(counts, w, goal.workload.name)
    ensures forall counts :: Tallies(counts, w, goal.workload.name) ==>
      Outcome(goal, w, nodeIds, Slots(FilledSlots(goal, w), Desired(goal, w, w.Now(wall))), Taken(map[], map[], counts), w.Now(wall), r)
  {
    var now := w.Now(wall);
    var existing := ExistingReplicas(goal, w, allocationIds);
    var occupancy := DomainOccupancy(w.allocations, w.nodes, allocationIds, goal.workload.name);
    TalliedBy(w, allocationIds, goal.workload.name, occupancy);
    OnlyTally(w, goal.workload.name, occupancy);
    var t := Taken(map[], map[], occupancy);
    NothingDrafted(goal, w, t, now);
    DesiredIsAuthorized(goal, w, |existing|, now);
    var desired := DesiredReplicas(goal, w, |existing|, now);
    var d, expected, reached := Fill(goal, w, nodeIds, existing, desired, t, now);
    if d.Err? {
      WalkStops(existing, desired, reached);
      Refused(goal, w, nodeIds, Slots(existing, desired), t, now, |MissingBelow(existing, reached)|);
      return Err;
    }
    WalkEnds(existing, desired, reached);
    MissingCount(existing, reached);
    DraftIsSound(goal, w, nodeIds, existing, reached, t, now, d.value, |expected|);
    r := Ok(Proposal("placement-agent-r" + Decimal(w.revision), "placement-agent", goal.id, w.revision, d.value.plan, expected));
    Proposed(goal, w, nodeIds, existing, reached, Slots(existing, desired), t, now, d.value, r.value);
  }

  /** The walk over the slots below the desired number, and where it stopped. */
  method Fill(goal: Goal, w: World, nodeIds: seq<Id>, existing: set<int>, desired: int, t: Taken, now: Time)
      returns (r: Result<Draft>, expected: seq<Check>, ghost reached: nat)
    requires Listing(nodeIds, w.nodes.Keys) && NamedNodes(w.nodes)
    requires DistinctSecrets(goal.workload.secrets) && DistinctVolumes(goal.workload.volumes)
    ensures reached <= Max(0, desired) && |expected| == |MissingBelow(existing, reached)| <= MAX_REPLICAS_PER_PROPOSAL
    ensures r.Err? ==> reached < desired && reached !in existing && |expected| < MAX_REPLICAS_PER_PROPOSAL
    ensures r.Err? ==> StopsAfter(goal, w, nodeIds, |expected|, t, now)
    ensures r.Ok? ==> reached >= desired || |expected| == MAX_REPLICAS_PER_PROPOSAL
    ensures r.Ok? ==> r == DraftBelow(goal, w, nodeIds, existing, reached, t, now) && expected == ChecksBelow(goal, existing, reached)
  {
    var draft, replica := Draft([], t), 0;
    expected := [];
    while replica < desired && |expected| < MAX_REPLICAS_PER_PROPOSAL
      invariant 0 <= replica <= Max(0, desired) && |expected| == |MissingBelow(existing, replica)| <= MAX_REPLICAS_PER_PROPOSAL
      invariant expected == ChecksBelow(goal, existing, replica)
      invariant DraftBelow(goal, w, nodeIds, existing, replica, t, now) == Ok(draft)
    {
      if replica !in existing {
        var next := PlaceNext(goal, w, nodeIds, draft, replica, now);
        if next.Err? {
          DraftStops(goal, w, nodeIds, existing, replica, t, now, draft);
          return Err, expected, replica;
        }
        draft, expected := next.value, expected + [ReadyCheck(goal, AllocationID(goal.workload.name, replica))];
      }
      replica := replica + 1;
    }
    r, reached := Ok(draft), replica;
  }

  lemma OnlyTally(w: World, workload: Id, counts: map<Id, int>)
    requires Tallies(counts, w, workload)
    ensures forall other :: Tallies(other, w, workload) ==> other == counts
  {
    forall other | Tallies(other, w, workload) ensures other == counts { TalliesAreUnique(other, counts, w, workload); }
  }

  lemma TalliedBy(w: World, ids: seq<Id>, workload: Id, counts: map<Id, int>)
    requires Listing(ids, w.allocations.Keys)
    requires forall d :: CountOf(counts, d) == |OccupantsAmong(w.allocations, w.nodes, ids, workload, d)|
    requires forall d :: d in counts ==> counts[d] > 0
    ensures Tallies(counts, w, workload)
  {
    forall d ensures CountOf(counts, d) == |Occupants(w, workload, d)| { OccupantsAre(w, ids, workload, d); }
  }

  lemma NothingTaken(goal: Goal, w: World, t: Taken)
    requires t.resources == map[] && t.budget == map[] && Tallies(t.occupancy, w, goal.workload.name)
    ensures Booked(goal, w, [], t, 0)
  {
    var exact := Unclaimed(goal, w);
    forall d ensures Counts(w, goal.workload.name, t.occupancy, d, exact) {
      assert CountOf(t.occupancy, d) == |Occupants(w, goal.workload.name, d)|;
    }
    forall n | n in w.nodes ensures TracksNode(w.nodes[n], w.nodes[n], t) {}
  }
}
