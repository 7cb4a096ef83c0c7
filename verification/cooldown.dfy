/** The cooldown, exactly: which accepted plans keep disruptions close in time within one failure domain, whenever
    their evidence is dated. */
module Cooldown {
  import opened Types
  import opened Ledger
  import opened Projection
  import opened Executor
  import opened Kernel
  import opened Governor
  import opened Availability
  import Exactness
  import Plans

  // ---- Where things are, executed and simulated ----

  lemma SimulatedNodeDomain(x: Node, a: Action)
    ensures SimulateNode(x, a).FailureDomain() == x.FailureDomain()
  {
  }

  lemma NodeActionSettles(sim: World, a: Action, after: World)
    requires SimulateOnNode(sim, a) == Ok(after)
    ensures Settled(sim, after)
  {
    if NodeTouched(a) in sim.nodes { SimulatedNodeDomain(sim.nodes[NodeTouched(a)], a); }
  }

  lemma MountSettles(sim: World, a: Action, after: World)
    requires SimulateAttach(sim, a) == Ok(after) || SimulateDetach(sim, a) == Ok(after)
    ensures Settled(sim, after)
  {
  }

  lemma SimulatedDeletionSettles(sim: World, a: Action, after: World)
    requires SimulateDelete(sim, a) == Ok(after)
    ensures Settled(sim, after)
  {
    assert after.allocations == sim.allocations - {a.target};
  }

  lemma OnAllocationStays(x: Allocation, a: Action)
    requires SimulateAllocation(x, a).Ok?
    ensures SimulateAllocation(x, a).value.node == x.node
  {
  }

  lemma OnAllocationSettles(sim: World, a: Action, after: World)
    requires SimulateOn(sim, a) == Ok(after)
    ensures Settled(sim, after)
  {
    OnAllocationStays(sim.allocations[a.target], a);
  }

  lemma SimulatedCreationSettles(sim: World, a: Action, after: World)
    requires SimulateCreate(sim, a) == Ok(after)
    ensures SettledBut(sim, after, {a.target}) && a.target in after.allocations && after.allocations[a.target].node == a.node
  {
  }

  lemma SimulateSettles(sim: World, a: Action, after: World)
    requires Simulate(sim, a) == Ok(after) && !a.kind.CreateAllocation?
    ensures Settled(sim, after)
  {
    if a.kind.AttachVolume? || a.kind.DetachVolume? { MountSettles(sim, a, after); }
    else if ActsOnNode(a.kind) { NodeActionSettles(sim, a, after); }
    else if ActsOnVolume(a.kind) { assert Simulate(sim, a) == SimulateOnVolume(sim, a); }
    else if a.kind.DeleteAllocation? { SimulatedDeletionSettles(sim, a, after); }
    else if !a.kind.PublishRoute? { OnAllocationSettles(sim, a, after); }
  }

  ghost predicate SameDomains(x: World, sim: World) {
    x.nodes.Keys == sim.nodes.Keys && forall n :: n in x.nodes ==> x.nodes[n].FailureDomain() == sim.nodes[n].FailureDomain()
  }

  /** The same allocations in the same phases on the same nodes, and the same failure domains. */
  ghost predicate SamePlaces(x: World, sim: World) {
    && SamePhases(x, sim) && SameDomains(x, sim)
    && forall id :: id in x.allocations && id in sim.allocations ==> x.allocations[id].node == sim.allocations[id].node
  }

  ghost predicate NamedNodes(w: World) { forall n :: n in w.nodes ==> w.nodes[n].id == n }

  lemma BothSettled(x: World, sim: World, x': World, sim': World)
    requires SamePlaces(x, sim) && Settled(x, x') && Settled(sim, sim') && SamePhases(x', sim')
    ensures SamePlaces(x', sim')
  {
  }

  lemma BothSettledBut(x: World, sim: World, x': World, sim': World, id: Id)
    requires SamePlaces(x, sim) && SettledBut(x, x', {id}) && SettledBut(sim, sim', {id}) && SamePhases(x', sim')
    requires id in x'.allocations && id in sim'.allocations && x'.allocations[id].node == sim'.allocations[id].node
    ensures SamePlaces(x', sim')
  {
  }

  lemma PerformedCreation(x: World, a: Action, at: Time, after: World)
    requires a.kind.CreateAllocation? && a.target !in x.allocations && NamedNodes(x) && Perform(x, a, at) == Ok(after)
    ensures SettledBut(x, after, {a.target}) && a.target in after.allocations && after.allocations[a.target].node == a.node
  {
    var e := Stamp(Execute(x, a).value, at);
    CreationSettles(x, e);
  }

  lemma ExecutedCreates(x: World, a: Action, e: Evidence)
    requires Execute(x, a) == Ok(e) && !a.kind.CreateAllocation?
    ensures !CreationFact(e.fact)
  {
  }

  lemma StepKeepsPlaces(x: World, sim: World, a: Action, at: Time, x': World, sim': World)
    requires SamePlaces(x, sim) && NamedNodes(x) && Perform(x, a, at) == Ok(x') && Simulate(sim, a) == Ok(sim')
    requires a.kind.CreateAllocation? ==> a.target !in sim.allocations
    ensures SamePlaces(x', sim')
  {
    assert PhaseOf(x.allocations, a.target) == PhaseOf(sim.allocations, a.target);
    StepKeepsPhases(x, sim, a, at, x', sim');
    if a.kind.CreateAllocation? {
      PerformedCreation(x, a, at, x');
      SimulatedCreationSettles(sim, a, sim');
      BothSettledBut(x, sim, x', sim', a.target);
    } else {
      ExecutedCreates(x, a, Execute(x, a).value);
      ProjectSettles(x, Stamp(Execute(x, a).value, at));
      SimulateSettles(sim, a, sim');
      BothSettled(x, sim, x', sim');
    }
  }

  lemma PerformKeepsNames(x: World, a: Action, at: Time)
    requires NamedNodes(x) && Perform(x, a, at).Ok?
    ensures NamedNodes(Perform(x, a, at).value)
  {
    var e := Stamp(Execute(x, a).value, at);
    forall n | n in Project(x, e).value.nodes { Exactness.ProjectKeepsNames(x, e, n); }
  }

  // ---- What a plan hits and what carrying it out records ----

  /** A disruptive action on a live allocation. */
  predicate IsHit(sim: World, a: Action) {
    Disruptive(a.kind) && a.target in sim.allocations && sim.allocations[a.target].phase != Stopped
  }

  function HitDomain(sim: World, a: Action): Id
    requires IsHit(sim, a)
  {
    DomainOf(sim.nodes, sim.allocations[a.target].node)
  }

  function HitBy(sim: World, a: Action): seq<Id> { if IsHit(sim, a) then [HitDomain(sim, a)] else [] }

  /** The failure domains a plan hits, read in the world simulated so far: known before the plan is carried out. */
  ghost function Hits(goal: Goal, grants: set<ActionKind>, w: World, plan: seq<Action>, now: Time): seq<Id>
    requires RunPlan(goal, grants, w, plan, now).Ok?
  {
    if plan == [] then []
    else
      var k := |plan| - 1;
      Hits(goal, grants, w, plan[..k], now) + HitBy(RunPlan(goal, grants, w, plan[..k], now).value, plan[k])
  }

  /** The disruptions that carrying out a plan adds to the history. */
  ghost function RecordedAll(x: World, plan: seq<Action>, times: seq<Time>): seq<Disruption>
    requires |times| == |plan| && PerformAll(x, plan, times).Ok?
  {
    if plan == [] then []
    else
      var k := |plan| - 1;
      var mid := PerformAll(x, plan[..k], times[..k]).value;
      RecordedAll(x, plan[..k], times[..k]) + Recorded(mid, Stamp(Execute(mid, plan[k]).value, times[k]))
  }

  lemma ExecutedDisrupts(x: World, a: Action, e: Evidence)
    requires Execute(x, a) == Ok(e)
    ensures e.observedAt == 0
    ensures DisruptiveFact(e.fact) <==> Disruptive(a.kind)
    ensures Disruptive(a.kind) ==> e.target == a.target && a.target in x.allocations
  {
  }

  /** One entry for a hit, in its domain and dated as the action is; none otherwise. */
  ghost predicate Mirrors(ds: seq<Disruption>, domains: seq<Id>) {
    |ds| == |domains| && forall i :: 0 <= i < |ds| ==> ds[i].domain == domains[i]
  }

  /** Every entry is dated as one of the actions is. */
  ghost predicate DatedBy(ds: seq<Disruption>, times: seq<Time>) { forall d :: d in ds ==> d.at in times }

  lemma StepRecords(x: World, sim: World, a: Action, at: Time, e: Evidence)
    requires SamePlaces(x, sim) && Execute(x, a) == Ok(e) && at != 0
    ensures Mirrors(Recorded(x, Stamp(e, at)), HitBy(sim, a)) && DatedBy(Recorded(x, Stamp(e, at)), [at])
  {
    ExecutedDisrupts(x, a, e);
    assert PhaseOf(x.allocations, a.target) == PhaseOf(sim.allocations, a.target);
  }

  lemma MirrorsConcat(a: seq<Disruption>, b: seq<Disruption>, s: seq<Id>, t: seq<Id>)
    requires Mirrors(a, s) && Mirrors(b, t)
    ensures Mirrors(a + b, s + t)
  {
  }

  lemma DatedConcat(a: seq<Disruption>, b: seq<Disruption>, times: seq<Time>, at: Time)
    requires times != [] && at == times[|times| - 1] && DatedBy(a, times[..|times| - 1]) && DatedBy(b, [at])
    ensures DatedBy(a + b, times)
  {
    forall d | d in a + b ensures d.at in times { assert d in a || d in b; }
  }

  /** Dates that no action of a plan precedes. */
  ghost predicate NoneBefore(times: seq<Time>, now: Time) { forall i :: 0 <= i < |times| ==> times[i] >= now }

  lemma ValidCreatesFresh(goal: Goal, sim: World, a: Action, now: Time)
    requires Validate(goal, sim, a, now) && a.kind.CreateAllocation?
    ensures a.target !in sim.allocations
  {
  }

  /** The executed and the simulated end of a plan, and what was recorded on the way. */
  ghost predicate Carried(x: World, sim: World, ds: seq<Disruption>, hits: seq<Id>, times: seq<Time>) {
    SamePlaces(x, sim) && NamedNodes(x) && Mirrors(ds, hits) && DatedBy(ds, times)
  }

  lemma CarriedOn(goal: Goal, x: World, sim: World, ds: seq<Disruption>, hits: seq<Id>, times: seq<Time>, a: Action, now: Time,
                  x': World, sim': World)
    requires times != [] && times[|times| - 1] != 0 && Carried(x, sim, ds, hits, times[..|times| - 1])
    requires Validate(goal, sim, a, now) && Simulate(sim, a) == Ok(sim') && Perform(x, a, times[|times| - 1]) == Ok(x')
    ensures Carried(x', sim', ds + Recorded(x, Stamp(Execute(x, a).value, times[|times| - 1])), hits + HitBy(sim, a), times)
  {
    var at, e := times[|times| - 1], Execute(x, a).value;
    if a.kind.CreateAllocation? { ValidCreatesFresh(goal, sim, a, now); }
    StepRecords(x, sim, a, at, e);
    MirrorsConcat(ds, Recorded(x, Stamp(e, at)), hits, HitBy(sim, a));
    DatedConcat(ds, Recorded(x, Stamp(e, at)), times, at);
    StepKeepsPlaces(x, sim, a, at, x', sim');
    PerformKeepsNames(x, a, at);
  }

  /** Carrying out an accepted plan records one disruption for each hit, in the domain that was hit. */
  lemma {:induction false} PlanRecordsHits(goal: Goal, grants: set<ActionKind>, w: World, plan: seq<Action>, now: Time, x: World,
                                           times: seq<Time>)
    requires SamePlaces(x, w) && NamedNodes(x) && |times| == |plan| && now > 0 && NoneBefore(times, now)
    requires RunPlan(goal, grants, w, plan, now).Ok? && PerformAll(x, plan, times).Ok?
    ensures Carried(PerformAll(x, plan, times).value, RunPlan(goal, grants, w, plan, now).value,
                    RecordedAll(x, plan, times), Hits(goal, grants, w, plan, now), times)
    decreases |plan|
  {
    if plan != [] {
      var k := |plan| - 1;
      PlanRecordsHits(goal, grants, w, plan[..k], now, x, times[..k]);
      CarriedOn(goal, PerformAll(x, plan[..k], times[..k]).value, RunPlan(goal, grants, w, plan[..k], now).value,
                RecordedAll(x, plan[..k], times[..k]), Hits(goal, grants, w, plan[..k], now), times, plan[k], now,
                PerformAll(x, plan, times).value, RunPlan(goal, grants, w, plan, now).value);
    }
  }

  // ---- The exact condition ----

  /** All hits are in one domain, and in the domain of whatever was disrupted within the cooldown before. */
  ghost predicate OneDomainHit(cooldown: Duration, hits: seq<Id>, history: seq<Disruption>, now: Time) {
    && (forall i, j :: 0 <= i < j < |hits| ==> hits[i] == hits[j])
    && (forall i, d :: 0 <= i < |hits| && d in history && d.at > now - cooldown ==> d.domain == hits[i])
  }

  lemma OneDomainHitKeeps(p: Policy, hits: seq<Id>, history: seq<Disruption>, added: seq<Disruption>, now: Time)
    requires OneDomainAtATime(p, history) && Mirrors(added, hits) && NotBefore(added, now)
    requires OneDomainHit(p.cooldown, hits, history, now)
    ensures OneDomainAtATime(p, history + added)
  {
    var domains := set i | 0 <= i < |hits| :: hits[i];
    forall d | d in added ensures d.domain in domains {
      var i :| 0 <= i < |added| && added[i] == d;
      assert hits[i] == d.domain;
    }
    CooldownStillHolds(p, history, added, now, domains);
  }

  ghost predicate AllAt(ds: seq<Disruption>, now: Time) { forall d :: d in ds ==> d.at == now }

  ghost predicate NotAfter(history: seq<Disruption>, now: Time) { forall d :: d in history ==> d.at <= now }

  lemma HitsAgree(p: Policy, hits: seq<Id>, history: seq<Disruption>, added: seq<Disruption>, now: Time, i: nat, j: nat)
    requires p.cooldown > 0 && Mirrors(added, hits) && AllAt(added, now) && OneDomainAtATime(p, history + added)
    requires i < j < |hits|
    ensures hits[i] == hits[j]
  {
    var h, n := history + added, |history|;
    assert h[n + i] == added[i] && h[n + j] == added[j] && added[i] in added && added[j] in added;
    assert Near(h[n + i], h[n + j], p.cooldown);
  }

  lemma HitsAgreeWithRecent(p: Policy, hits: seq<Id>, history: seq<Disruption>, added: seq<Disruption>, now: Time, i: nat, d: Disruption)
    requires p.cooldown > 0 && Mirrors(added, hits) && AllAt(added, now) && OneDomainAtATime(p, history + added)
    requires i < |hits| && d in history && now - p.cooldown < d.at <= now
    ensures d.domain == hits[i]
  {
    var h, n := history + added, |history|;
    var k :| 0 <= k < |history| && history[k] == d;
    assert h[k] == d && h[n + i] == added[i] && added[i] in added;
    assert Near(h[k], h[n + i], p.cooldown);
  }

  lemma KeepingNeedsOneDomain(p: Policy, hits: seq<Id>, history: seq<Disruption>, added: seq<Disruption>, now: Time)
    requires p.cooldown > 0 && Mirrors(added, hits) && AllAt(added, now) && NotAfter(history, now)
    requires OneDomainAtATime(p, history + added)
    ensures OneDomainHit(p.cooldown, hits, history, now)
  {
    forall i, j | 0 <= i < j < |hits| ensures hits[i] == hits[j] { HitsAgree(p, hits, history, added, now, i, j); }
    forall i, d | 0 <= i < |hits| && d in history && d.at > now - p.cooldown ensures d.domain == hits[i] {
      HitsAgreeWithRecent(p, hits, history, added, now, i, d);
    }
  }

  /** However its actions are dated from the decision on, a plan that goes through keeps the cooldown. */
  ghost predicate AlwaysKeeps(p: Policy, x: World, plan: seq<Action>, history: seq<Disruption>, now: Time) {
    forall times: seq<Time> :: |times| == |plan| && NoneBefore(times, now) && PerformAll(x, plan, times).Ok? ==>
      OneDomainAtATime(p, history + RecordedAll(x, plan, times))
  }

  function Repeated(now: Time, n: nat): (times: seq<Time>)
    ensures |times| == n && forall i :: 0 <= i < n ==> times[i] == now
  {
    if n == 0 then [] else Repeated(now, n - 1) + [now]
  }

  lemma DatedNotBefore(ds: seq<Disruption>, times: seq<Time>, now: Time)
    requires DatedBy(ds, times) && NoneBefore(times, now)
    ensures NotBefore(ds, now)
  {
  }

  /** An accepted plan keeps the cooldown, whenever its evidence is dated, if and only if all its hits are in one
      domain, that of whatever was disrupted within the cooldown before the decision. */
  lemma CooldownExactly(p: Policy, goal: Goal, grants: set<ActionKind>, w: World, plan: seq<Action>, now: Time, x: World,
                        history: seq<Disruption>)
    requires p.cooldown > 0 && now > 0 && OneDomainAtATime(p, history) && NotAfter(history, now)
    requires SamePlaces(x, w) && NamedNodes(x) && RunPlan(goal, grants, w, plan, now).Ok?
    requires PerformAll(x, plan, Repeated(now, |plan|)).Ok?
    ensures AlwaysKeeps(p, x, plan, history, now) <==>
            OneDomainHit(p.cooldown, Hits(goal, grants, w, plan, now), history, now)
  {
    var hits := Hits(goal, grants, w, plan, now);
    if OneDomainHit(p.cooldown, hits, history, now) {
      forall times: seq<Time> | |times| == |plan| && NoneBefore(times, now) && PerformAll(x, plan, times).Ok?
        ensures OneDomainAtATime(p, history + RecordedAll(x, plan, times))
      {
        PlanRecordsHits(goal, grants, w, plan, now, x, times);
        DatedNotBefore(RecordedAll(x, plan, times), times, now);
        OneDomainHitKeeps(p, hits, history, RecordedAll(x, plan, times), now);
      }
    }
    if AlwaysKeeps(p, x, plan, history, now) {
      var times := Repeated(now, |plan|);
      PlanRecordsHits(goal, grants, w, plan, now, x, times);
      KeepingNeedsOneDomain(p, hits, history, RecordedAll(x, plan, times), now);
    }
  }

  lemma PlacesAreSame(x: World, w: World)
    requires x.nodes == w.nodes && x.allocations == w.allocations
    ensures SamePlaces(x, w)
  {
  }

  /** The same for plans that are known to go through: valid goal, well-formed world, nothing unnamed, and none of the
      two kinds that simulation does not mirror. */
  lemma AcceptedCooldownExactly(p: Policy, goal: Goal, grants: set<ActionKind>, w: World, plan: seq<Action>, now: Time,
                                history: seq<Disruption>)
    requires p.cooldown > 0 && now > 0 && OneDomainAtATime(p, history) && NotAfter(history, now)
    requires Exactness.GoalValid(goal) && Exactness.WellFormed(w) && Exactness.AllFaithful(plan) && Exactness.AllNamed(plan)
    requires RunPlan(goal, grants, w, plan, now).Ok?
    ensures AlwaysKeeps(p, w, plan, history, now) <==>
            OneDomainHit(p.cooldown, Hits(goal, grants, w, plan, now), history, now)
  {
    Exactness.PlanExecutesAsSimulated(goal, grants, w, plan, now, Repeated(now, |plan|));
    PlacesAreSame(w, w);
    CooldownExactly(p, goal, grants, w, plan, now, w, history);
  }

  // ---- Whole runs ----

  /** Evidence from elsewhere, or an authorized plan carried out by the executor as far as `done` says. */
  datatype Step =
    | Observes(e: Evidence)
    | Carries(actor: Id, goal: Goal, proposal: Proposal, clock: Time, provenance: bool, done: nat, times: seq<Time>)

  ghost predicate MayCarry(p: Policy, s: State, r: Step)
    requires r.Carries?
  {
    var seen := Seen(s.world, r.clock);
    && r.clock > 0 && r.done <= |r.proposal.actions| && |r.times| == r.done && NoneBefore(r.times, seen.observedAt)
    && Authorized(p, r.actor, r.goal, seen, r.proposal, r.clock, r.provenance)
    && PerformAll(s.world, r.proposal.actions[..r.done], r.times).Ok?
  }

  ghost function CarryOut(s: State, plan: seq<Action>, times: seq<Time>): State
    requires |times| == |plan| && PerformAll(s.world, plan, times).Ok?
  {
    State(PerformAll(s.world, plan, times).value, s.history + RecordedAll(s.world, plan, times))
  }

  ghost function Then(p: Policy, s: State, r: Step): Result<State> {
    match r
    case Observes(e) => if DisruptiveFact(e.fact) then Err else Take(s, e)
    case Carries(_, _, proposal, _, _, done, times) =>
      if MayCarry(p, s, r) then Ok(CarryOut(s, proposal.actions[..done], times)) else Err
  }

  ghost function RunSteps(p: Policy, s: State, steps: seq<Step>): Result<State> {
    if steps == [] then Ok(s)
    else
      var t :- RunSteps(p, s, steps[..|steps| - 1]);
      Then(p, t, steps[|steps| - 1])
  }

  lemma AcceptedPrefix(p: Policy, s: State, r: Step)
    requires r.Carries? && MayCarry(p, s, r)
    ensures var seen := Seen(s.world, r.clock);
            && r.proposal.agent in p.grants && seen.observedAt > 0
            && RunPlan(r.goal, p.grants[r.proposal.agent], seen, r.proposal.actions[..r.done], seen.observedAt).Ok?
  {
    var seen := Seen(s.world, r.clock);
    assert seen.Now(r.clock) == seen.observedAt;
    PlanPrefix(r.goal, p.grants[r.proposal.agent], seen, r.proposal.actions, seen.observedAt, r.done);
  }

  /** What is carried out hits one domain, read in the world the plan was decided on. */
  ghost predicate HitsOneDomain(p: Policy, s: State, r: Step) {
    r.Carries? && MayCarry(p, s, r) ==>
      var seen, plan := Seen(s.world, r.clock), r.proposal.actions[..r.done];
      && r.proposal.agent in p.grants && RunPlan(r.goal, p.grants[r.proposal.agent], seen, plan, seen.observedAt).Ok?
      && OneDomainHit(p.cooldown, Hits(r.goal, p.grants[r.proposal.agent], seen, plan, seen.observedAt), s.history, seen.observedAt)
  }

  ghost predicate Kept(p: Policy, s: State) { OneDomainAtATime(p, s.history) && NamedNodes(s.world) }

  lemma CarryKeeps(p: Policy, s: State, r: Step)
    requires r.Carries? && MayCarry(p, s, r) && Kept(p, s) && HitsOneDomain(p, s, r)
    ensures Kept(p, CarryOut(s, r.proposal.actions[..r.done], r.times))
  {
    var seen, plan, grants := Seen(s.world, r.clock), r.proposal.actions[..r.done], p.grants[r.proposal.agent];
    AcceptedPrefix(p, s, r);
    PlacesAreSame(s.world, seen);
    PlanRecordsHits(r.goal, grants, seen, plan, seen.observedAt, s.world, r.times);
    DatedNotBefore(RecordedAll(s.world, plan, r.times), r.times, seen.observedAt);
    OneDomainHitKeeps(p, Hits(r.goal, grants, seen, plan, seen.observedAt), s.history, RecordedAll(s.world, plan, r.times), seen.observedAt);
  }

  lemma ObserveKeeps(p: Policy, s: State, e: Evidence, t: State)
    requires Kept(p, s) && !DisruptiveFact(e.fact) && Take(s, e) == Ok(t)
    ensures Kept(p, t)
  {
    forall n | n in t.world.nodes { Exactness.ProjectKeepsNames(s.world, e, n); }
  }

  ghost predicate AllHitOneDomain(p: Policy, s: State, steps: seq<Step>) {
    forall i :: 0 <= i < |steps| && RunSteps(p, s, steps[..i]).Ok? ==>
      HitsOneDomain(p, RunSteps(p, s, steps[..i]).value, steps[i])
  }

  lemma HitsPrefix(p: Policy, s: State, steps: seq<Step>, k: nat)
    requires AllHitOneDomain(p, s, steps) && k <= |steps|
    ensures AllHitOneDomain(p, s, steps[..k])
  {
    forall i | 0 <= i < k && RunSteps(p, s, steps[..k][..i]).Ok?
      ensures HitsOneDomain(p, RunSteps(p, s, steps[..k][..i]).value, steps[..k][i])
    {
      assert steps[..k][..i] == steps[..i];
    }
  }

  /** Over every run of observations and authorized plans carried out by the executor, as far as each gets, in which
      each plan hits one domain as far as it is carried out, two disruptions closer than the cooldown are in one
      failure domain. Plans that disrupt what they created are included. */
  lemma {:induction false} CooldownAlongRuns(p: Policy, s: State, steps: seq<Step>)
    requires Kept(p, s) && AllHitOneDomain(p, s, steps) && RunSteps(p, s, steps).Ok?
    ensures Kept(p, RunSteps(p, s, steps).value)
    decreases |steps|
  {
    if steps != [] {
      var k := |steps| - 1;
      HitsPrefix(p, s, steps, k);
      CooldownAlongRuns(p, s, steps[..k]);
      var t := RunSteps(p, s, steps[..k]).value;
      if steps[k].Carries? { CarryKeeps(p, t, steps[k]); } else { ObserveKeeps(p, t, steps[k].e, RunSteps(p, s, steps).value); }
    }
  }

  // ---- And only those runs ----

  /** No entry is later than the world was observed. */
  ghost predicate Past(s: State) { NotAfter(s.history, s.world.observedAt) }

  lemma TakeStaysPast(s: State, e: Evidence, t: State)
    requires Past(s) && Take(s, e) == Ok(t)
    ensures Past(t) && t.world.observedAt >= s.world.observedAt
  {
    ObservationAdvances(s.world, e);
    forall d | d in t.history ensures d.at <= t.world.observedAt { assert d in s.history || d in Recorded(s.world, e); }
  }

  lemma {:induction false} CarryStaysPast(s: State, plan: seq<Action>, times: seq<Time>)
    requires Past(s) && |times| == |plan| && PerformAll(s.world, plan, times).Ok?
    ensures Past(CarryOut(s, plan, times))
    decreases |plan|
  {
    if plan == [] {
      assert s.history + [] == s.history;
    } else {
      var k := |plan| - 1;
      CarryStaysPast(s, plan[..k], times[..k]);
      var mid := CarryOut(s, plan[..k], times[..k]);
      var e := Stamp(Execute(mid.world, plan[k]).value, times[k]);
      TakeStaysPast(mid, e, Take(mid, e).value);
      Regrouped(s.history, RecordedAll(s.world, plan[..k], times[..k]), Recorded(mid.world, e));
    }
  }

  lemma Regrouped(a: seq<Disruption>, b: seq<Disruption>, c: seq<Disruption>)
    ensures (a + b) + c == a + (b + c)
  {
  }

  lemma {:induction false} RunsStayPast(p: Policy, s: State, steps: seq<Step>)
    requires Past(s) && RunSteps(p, s, steps).Ok?
    ensures Past(RunSteps(p, s, steps).value)
    decreases |steps|
  {
    if steps != [] {
      var k := |steps| - 1;
      RunsStayPast(p, s, steps[..k]);
      var t, r := RunSteps(p, s, steps[..k]).value, steps[k];
      if r.Carries? { CarryStaysPast(t, r.proposal.actions[..r.done], r.times); }
      else { TakeStaysPast(t, r.e, RunSteps(p, s, steps).value); }
    }
  }

  /** The step with everything reported at the time of the decision. */
  function AtOnce(s: State, r: Step): Step
    requires r.Carries?
  {
    r.(times := Repeated(Seen(s.world, r.clock).observedAt, r.done))
  }

  lemma CarryBreaks(p: Policy, s: State, r: Step)
    requires p.cooldown > 0 && Past(s) && NamedNodes(s.world) && r.Carries? && r == AtOnce(s, r) && MayCarry(p, s, r)
    requires !HitsOneDomain(p, s, r)
    ensures !OneDomainAtATime(p, CarryOut(s, r.proposal.actions[..r.done], r.times).history)
  {
    var seen, plan, grants := Seen(s.world, r.clock), r.proposal.actions[..r.done], p.grants[r.proposal.agent];
    AcceptedPrefix(p, s, r);
    PlacesAreSame(s.world, seen);
    PlanRecordsHits(r.goal, grants, seen, plan, seen.observedAt, s.world, r.times);
    if OneDomainAtATime(p, s.history + RecordedAll(s.world, plan, r.times)) {
      KeepingNeedsOneDomain(p, Hits(r.goal, grants, seen, plan, seen.observedAt), s.history, RecordedAll(s.world, plan, r.times), seen.observedAt);
      assert false;
    }
  }

  /** The first plan of a run that hits two domains, or another than was disrupted within the cooldown, breaks it when
      its evidence is dated at the decision. */
  lemma TangledRunsBreak(p: Policy, s: State, steps: seq<Step>, r: Step)
    requires p.cooldown > 0 && Kept(p, s) && Past(s) && AllHitOneDomain(p, s, steps) && RunSteps(p, s, steps).Ok?
    requires var t := RunSteps(p, s, steps).value;
             r.Carries? && r == AtOnce(t, r) && MayCarry(p, t, r) && !HitsOneDomain(p, t, r)
    ensures RunSteps(p, s, steps + [r]).Ok? && !OneDomainAtATime(p, RunSteps(p, s, steps + [r]).value.history)
  {
    CooldownAlongRuns(p, s, steps);
    RunsStayPast(p, s, steps);
    CarryBreaks(p, RunSteps(p, s, steps).value, r);
    assert (steps + [r])[..|steps|] == steps;
  }
}
