/** The control loop: decide, act, project the evidence, record it; and the projection rebuilt from the log. */
module Loop {
  import opened Types
  import opened Projection
  import opened History
  import Kernel
  import opened Governed
  import Governor
  import Executor

  // ---- The projection kept beside the log ----

  /** Each world follows from the one before by the projection of one item of evidence. */
  ghost predicate Folds(base: World, past: seq<Evidence>, worlds: seq<World>) {
    && |worlds| == |past| + 1 && worlds[0] == base
    && forall k {:trigger Steps(worlds[k], past[k], worlds[k + 1])} :: 0 <= k < |past| ==> Steps(worlds[k], past[k], worlds[k + 1])
  }

  lemma {:induction false} FoldsIsReplay(base: World, past: seq<Evidence>, worlds: seq<World>)
    requires Folds(base, past, worlds)
    ensures Replay(base, past) == Ok(worlds[|past|])
  {
    if past != [] {
      var n := |past| - 1;
      FoldsSnoc(base, past, worlds, n);
      FoldsIsReplay(base, past[..n], worlds[..n + 1]);
      assert Steps(worlds[n], past[n], worlds[n + 1]);
    }
  }

  lemma FoldsSnoc(base: World, past: seq<Evidence>, worlds: seq<World>, n: nat)
    requires Folds(base, past, worlds) && n <= |past|
    ensures Folds(base, past[..n], worlds[..n + 1])
  {
    forall k | 0 <= k < n ensures Steps(worlds[..n + 1][k], past[..n][k], worlds[..n + 1][k + 1]) {
      assert Steps(worlds[k], past[k], worlds[k + 1]);
    }
  }

  class DurableProjector {
    const base: World
    var world: World
    ghost var past: seq<Evidence>
    ghost var worlds: seq<World>

    /** The world is the fold of the projection over everything projected so far. */
    ghost predicate Valid()
      reads this
    {
      Folds(base, past, worlds) && world == worlds[|past|]
    }

    /** An empty history. */
    constructor (base: World)
      ensures Valid() && this.base == base && past == []
    {
      this.base, world, past, worlds := base, base, [], [base];
    }

    /** One more item of evidence, or a refusal that changes nothing. */
    method Project(e: Evidence) returns (ok: bool)
      requires Valid()
      modifies this
      ensures Valid() && past == if ok then old(past) + [e] else old(past)
      ensures ok == Projects(old(world), e)
      ensures if ok then worlds == old(worlds) + [world] else world == old(world) && worlds == old(worlds)
    {
      var next := Projection.Project(world, e);
      if next.Err? { return false; }
      assert Steps(world, e, next.value);
      FoldsOn(base, past, worlds, e, next.value);
      world, past, worlds := next.value, past + [e], worlds + [next.value];
      return true;
    }

    /** Recomputes the world from the base and the recorded evidence. */
    method Rebuild(recorded: seq<Evidence>) returns (ok: bool)
      modifies this
      ensures ok == Replay(base, recorded).Ok?
      ensures if ok then Valid() && past == recorded else world == old(world) && past == old(past)
    {
      var rebuilt, k := base, 0;
      ghost var seen := [base];
      while k < |recorded|
        invariant 0 <= k <= |recorded| && world == old(world) && past == old(past)
        invariant Folds(base, recorded[..k], seen) && rebuilt == seen[k]
      {
        var next := Projection.Project(rebuilt, recorded[k]);
        if next.Err? {
          FoldsIsReplay(base, recorded[..k], seen);
          assert recorded[..k + 1][..k] == recorded[..k];
          RefusedForGood(base, recorded, k + 1);
          return false;
        }
        FoldsOn(base, recorded[..k], seen, recorded[k], next.value);
        assert recorded[..k + 1] == recorded[..k] + [recorded[k]];
        rebuilt, seen, k := next.value, seen + [next.value], k + 1;
      }
      assert recorded[..k] == recorded;
      world, past, worlds := rebuilt, recorded, seen;
      FoldsIsReplay(base, past, worlds);
      return true;
    }
  }

  predicate Projects(w: World, e: Evidence) { Projection.Project(w, e).Ok? }

  lemma FoldsOn(base: World, past: seq<Evidence>, worlds: seq<World>, e: Evidence, after: World)
    requires Folds(base, past, worlds) && Steps(worlds[|past|], e, after)
    ensures Folds(base, past + [e], worlds + [after])
  {
    var more, further := past + [e], worlds + [after];
    forall k | 0 <= k < |more| ensures Steps(further[k], more[k], further[k + 1]) {
      if k < |past| { assert Steps(worlds[k], past[k], worlds[k + 1]); }
    }
  }

  lemma {:induction false} RefusedForGood(base: World, run: seq<Evidence>, k: nat)
    requires k <= |run| && Replay(base, run[..k]).Err?
    ensures Replay(base, run).Err?
    decreases |run| - k
  {
    if k < |run| {
      assert run[..k + 1][..k] == run[..k];
      RefusedForGood(base, run, k + 1);
    } else {
      assert run[..k] == run;
    }
  }

  // ---- Decisions ----

  class Gate {
    const policy: Kernel.Policy
    ghost var approved: set<Decision>

    ghost predicate Valid()
      reads this
    {
      AllApproved(policy, approved)
    }

    constructor (policy: Kernel.Policy)
      ensures Valid() && this.policy == policy && approved == {}
    {
      this.policy, approved := policy, {};
    }

    method Authorize(d: Decision) returns (ok: bool)
      requires Valid()
      modifies this
      ensures Valid() && old(approved) <= approved && (ok ==> d in approved)
    {
      ok := Kernel.Authorize(policy, d.actor, d.goal, d.seen, d.proposal, d.wall, d.provenance);
      if ok { approved := approved + {d}; }
    }
  }

  // ---- The loop ----

  /** An agent's answer: nothing it can do, a rollback only an operator may approve, or a plan. */
  datatype Answer = Declines | RollsBack | Proposes(p: Proposal)

  /** A call into the executor: the decision behind it and how many events preceded it. */
  datatype Execution = Execution(action: Action, decision: Decision, after: nat)

  datatype Outcome = Achieved(goal: Goal, seen: World, wall: Time) | Failed

  function EvidenceOf(events: seq<Event>): seq<Evidence> {
    if events == [] then []
    else
      var rest, e := EvidenceOf(events[..|events| - 1]), events[|events| - 1];
      if e.evidence.Some? then rest + [e.evidence.value] else rest
  }

  lemma EvidenceSnoc(events: seq<Event>, e: Event)
    ensures EvidenceOf(events + [e]) == EvidenceOf(events) + if e.evidence.Some? then [e.evidence.value] else []
  {
    assert (events + [e])[..|events|] == events;
  }

  predicate IsDispatch(e: Event, x: Execution) {
    e.kind.ActionDispatched? && e.action == x.action.id && e.target == x.action.target && e.proposal == x.decision.proposal.id
  }

  /** A world as the engine saw it at some point of its past, by its clock. */
  ghost predicate Had(worlds: seq<World>, seen: World, wall: Time) {
    exists k :: 0 <= k < |worlds| && IsSeen(worlds[k], seen, wall)
  }

  lemma HadNow(worlds: seq<World>, k: nat, seen: World, wall: Time)
    requires k < |worlds| && seen == Governor.Seen(worlds[k], wall)
    ensures Had(worlds, seen, wall)
  {
    assert IsSeen(worlds[k], seen, wall);
  }

  lemma StillHad(worlds: seq<World>, more: seq<World>, seen: World, wall: Time)
    requires Had(worlds, seen, wall) && worlds <= more
    ensures Had(more, seen, wall)
  {
    var k :| 0 <= k < |worlds| && IsSeen(worlds[k], seen, wall);
    assert IsSeen(more[k], seen, wall);
  }

  /** The execution was of an approved plan's action, the approval was given on a world the engine had, and the
      dispatch was recorded before. */
  ghost predicate Justified(events: seq<Event>, approved: set<Decision>, worlds: seq<World>, x: Execution) {
    && x.decision in approved && x.action in x.decision.proposal.actions
    && Had(worlds, x.decision.seen, x.decision.wall)
    && x.after <= |events| && exists i :: 0 <= i < x.after && IsDispatch(events[i], x)
  }

  ghost predicate AllJustified(events: seq<Event>, approved: set<Decision>, worlds: seq<World>, executed: seq<Execution>) {
    forall k :: 0 <= k < |executed| ==> Justified(events, approved, worlds, executed[k])
  }

  lemma StillJustified(events: seq<Event>, approved: set<Decision>, worlds: seq<World>, executed: seq<Execution>,
                       more: seq<Event>, wider: set<Decision>, longer: seq<World>)
    requires AllJustified(events, approved, worlds, executed) && events <= more && approved <= wider && worlds <= longer
    ensures AllJustified(more, wider, longer, executed)
  {
    forall k | 0 <= k < |executed| ensures Justified(more, wider, longer, executed[k]) {
      var x := executed[k];
      assert Justified(events, approved, worlds, x);
      var i :| 0 <= i < x.after && IsDispatch(events[i], x);
      assert IsDispatch(more[i], x);
      StillHad(worlds, longer, x.decision.seen, x.decision.wall);
    }
  }

  // ---- Rollbacks ----

  /** A replacement on the goal's image was observed to fail. */
  predicate RolloutFailed(goal: Goal, w: World) {
    exists id :: id in w.allocations &&
      var a := w.allocations[id];
      a.workload == goal.workload.name && a.image == goal.workload.image && a.phase == Stopped &&
      (a.exitCode != 0 || a.restarts > 0)
  }

  function RollbackTarget(goal: Goal, w: World): Option<string> {
    var name := goal.workload.name;
    if name in w.knownGood && w.knownGood[name] != goal.workload.image && RolloutFailed(goal, w) then Some(w.knownGood[name])
    else None
  }

  /** The image a rollback approval puts in place of the goal's, if it applies. */
  function Replacement(goal: Goal, w: World, a: Approval): Option<string> {
    if a.subject != "" && a.subject != goal.workload.image then None
    else
      var target := if a.rollback != "" then Some(a.rollback) else RollbackTarget(goal, w);
      if target == Some(goal.workload.image) then None else target
  }

  predicate RollbackApproved(w: World, id: Id, goal: Id, now: Time) {
    id in w.approvals && w.approvals[id].goal == goal && w.approvals[id].scope == "rollback" && w.approvals[id].Valid(now)
  }

  function WithImage(goal: Goal, image: string): Goal { goal.(workload := goal.workload.(image := image)) }

  /** The goal with nothing but its image replaced, as a live rollback approval in the world says. */
  ghost predicate Compensated(goal: Goal, w: World, now: Time, effective: Goal) {
    exists id :: RollbackApproved(w, id, goal.id, now) && Replacement(goal, w, w.approvals[id]).Some? &&
                 effective == WithImage(goal, Replacement(goal, w, w.approvals[id]).value)
  }

  /** What the engine works towards: the goal, or the goal rolled back in a world it had. */
  ghost predicate Means(worlds: seq<World>, goal: Goal, effective: Goal) {
    effective == goal ||
    exists seen, wall :: Had(worlds, seen, wall) && Compensated(goal, seen, seen.Now(wall), effective)
  }

  lemma StillMeans(worlds: seq<World>, more: seq<World>, goal: Goal, effective: Goal)
    requires Means(worlds, goal, effective) && worlds <= more
    ensures Means(more, goal, effective)
  {
    if effective != goal {
      var seen, wall :| Had(worlds, seen, wall) && Compensated(goal, seen, seen.Now(wall), effective);
      StillHad(worlds, more, seen, wall);
    }
  }

  /** Whatever is meant is the goal asked for, with at most its image changed. */
  lemma MeansTheGoal(worlds: seq<World>, goal: Goal, effective: Goal)
    requires Means(worlds, goal, effective)
    ensures effective == WithImage(goal, effective.workload.image)
  {
  }

  /** Some order to walk a map in. */
  method Walk(keys: set<Id>) returns (ids: seq<Id>)
    ensures Listing(ids, keys)
  {
    ids := [];
    var left := keys;
    while left != {}
      invariant left <= keys && Listing(ids, keys - left)
      decreases left
    {
      var id :| id in left;
      ids, left := ids + [id], left - {id};
    }
  }

  /** The first live approval in the order the map is walked decides. */
  method CompensatedGoal(goal: Goal, w: World, now: Time, ids: seq<Id>) returns (effective: Goal, compensating: bool)
    requires Listing(ids, w.approvals.Keys)
    ensures compensating ==> Compensated(goal, w, now, effective)
    ensures !compensating ==> effective == goal
    ensures !compensating ==>
      || (exists id :: RollbackApproved(w, id, goal.id, now) && Replacement(goal, w, w.approvals[id]).None?)
      || (forall id :: !RollbackApproved(w, id, goal.id, now))
  {
    for i := 0 to |ids|
      invariant forall j :: 0 <= j < i ==> !RollbackApproved(w, ids[j], goal.id, now)
    {
      if RollbackApproved(w, ids[i], goal.id, now) {
        var image := Replacement(goal, w, w.approvals[ids[i]]);
        if image.Some? { return WithImage(goal, image.value), true; }
        return goal, false;
      }
    }
    forall id ensures !RollbackApproved(w, id, goal.id, now) {
      if id in w.approvals { assert id in ids; }
    }
    return goal, false;
  }

  predicate Satisfied(goal: Goal, w: World, now: Time) {
    && |Kernel.MatchingReady(goal, w, now)| == goal.workload.replicas
    && (goal.route.Some? ==>
          var host := goal.route.value.host;
          host in w.routes && w.routes[host] == Route(host, goal.workload.name, goal.route.value.port, goal.route.value.exposure))
  }

  /** What a plan said would be observed. */
  predicate Observed(w: World, c: Check, now: Time) {
    var known := c.target in w.allocations;
    match c.kind
    case CheckAllocationReady => (known && w.allocations[c.target].ReadyAt(now)) == c.want
    case CheckAgentReady =>
      (known && w.allocations[c.target].ReadyAt(now) && !w.allocations[c.target].draining &&
       !w.allocations[c.target].Exhausted()) == c.want
    case CheckAllocationDrained =>
      (known && w.allocations[c.target].draining && w.allocations[c.target].task == "") == c.want
    case CheckRouteReachable => (c.target in w.routes) == c.want
  }

  /** The script tells everything projected after what came before. */
  ghost predicate IsTold(before: seq<Evidence>, script: seq<Entry>, past: seq<Evidence>, worlds: seq<World>, approved: set<Decision>) {
    past == before + EvidenceIn(script) && Scripted(script, worlds, |before|, approved)
  }

  lemma ToldOn(before: seq<Evidence>, script: seq<Entry>, worlds: seq<World>, approved: set<Decision>, x: Entry, more: seq<World>)
    requires IsTold(before, script, before + EvidenceIn(script), worlds, approved) && worlds <= more
    requires !x.Began? && Next(script, x, worlds, |before|, approved)
    ensures IsTold(before, script + [x], before + EvidenceIn(script) + [x.e], more, approved)
  {
    StillScripted(script, worlds, |before|, approved, more, approved);
    ScriptSnoc(script, x, more, |before|, approved);
    assert before + (EvidenceIn(script) + [x.e]) == before + EvidenceIn(script) + [x.e];
  }

  lemma BeganOn(before: seq<Evidence>, script: seq<Entry>, past: seq<Evidence>, worlds: seq<World>, approved: set<Decision>, d: Decision)
    requires IsTold(before, script, past, worlds, approved) && d in approved
    requires |worlds| == |past| + 1 && IsSeen(worlds[|past|], d.seen, d.wall)
    ensures IsTold(before, script + [Began(d)], past, worlds, approved)
    ensures Open(script + [Began(d)]) == Some(d) && Count(script + [Began(d)]) == 0
  {
    ScriptSnoc(script, Began(d), worlds, |before|, approved);
  }

  lemma StillTold(before: seq<Evidence>, script: seq<Entry>, past: seq<Evidence>, worlds: seq<World>, approved: set<Decision>, wider: set<Decision>)
    requires IsTold(before, script, past, worlds, approved) && approved <= wider
    ensures IsTold(before, script, past, worlds, wider)
  {
    StillScripted(script, worlds, |before|, approved, worlds, wider);
  }

  lemma AnsweredOn(script: seq<Entry>, e: Evidence)
    ensures Open(script + [Answered(e)]) == Open(script) && Count(script + [Answered(e)]) == Count(script) + 1
  {
    EntryAdds(script, Answered(e), script + [Answered(e)]);
  }

  class Engine {
    const projector: DurableProjector
    const gate: Gate
    const agents: seq<Id>
    const probers: nat
    var events: seq<Event>
    ghost var executed: seq<Execution>
    ghost var script: seq<Entry>
    ghost const before: seq<Evidence>

    ghost predicate Valid()
      reads this, projector, gate
    {
      projector.Valid() && AllJustified(events, gate.approved, projector.worlds, executed) && Told()
    }

    /** The script tells everything projected since the start. */
    ghost predicate Told()
      reads this, projector, gate
    {
      IsTold(before, script, projector.past, projector.worlds, gate.approved)
    }

    /** The plan is being carried out, and so many of its actions were answered. */
    ghost predicate Carrying(d: Decision, count: nat)
      reads this
    {
      Open(script) == Some(d) && Count(script) == count
    }

    /** The world is the fold over the evidence in the recorded events. */
    ghost predicate Level()
      reads this, projector
    {
      projector.past == before + EvidenceOf(events)
    }

    /** The world is ahead of the recorded events by one item of evidence. */
    ghost predicate OneAhead()
      reads this, projector
    {
      exists e :: projector.past == before + EvidenceOf(events) + [e]
    }

    /** Nothing recorded, executed or projected before is lost. */
    twostate predicate Onward()
      reads this, projector
    {
      old(events) <= events && old(executed) <= executed && old(projector.worlds) <= projector.worlds
    }

    constructor (projector: DurableProjector, gate: Gate, agents: seq<Id>, probers: nat)
      requires projector.Valid() && gate.Valid()
      ensures this.projector == projector && this.gate == gate && Valid() && Level() && events == [] && executed == []
    {
      this.projector, this.gate, this.agents, this.probers := projector, gate, agents, probers;
      events, executed, script, before := [], [], [], projector.past;
    }

    /** Appends one event; the sink behind it may fail, and then nothing is appended. */
    method Record(kind: EventType, goal: Id, proposal: Id, action: Id, target: Id, evidence: Option<Evidence>)
      returns (ok: bool)
      requires Valid()
      modifies this`events
      ensures Valid() && Onward()
      ensures !ok ==> events == old(events)
      ensures ok ==>
        && |events| == |old(events)| + 1
        && EvidenceOf(events) == EvidenceOf(old(events)) + (if evidence.Some? then [evidence.value] else [])
        && var e := events[|old(events)|];
           e.kind == kind && e.goal == goal && e.proposal == proposal && e.action == action && e.target == target && e.evidence == evidence
    {
      ok := *;
      if !ok { return; }
      var at: Time := *;
      var event := Event(|events| + 1, at, kind, goal, proposal, action, target, projector.world.revision, evidence);
      EvidenceSnoc(events, event);
      StillJustified(events, gate.approved, projector.worlds, executed, events + [event], gate.approved, projector.worlds);
      events := events + [event];
    }

    /** Projects evidence; refused evidence leaves the world alone. */
    method Apply(e: Evidence, ghost entry: Entry) returns (ok: bool)
      requires Valid() && !entry.Began? && entry.e == e && Next(script, entry, projector.worlds, |before|, gate.approved)
      modifies this`script, projector
      ensures Valid() && Onward()
      ensures ok ==> script == old(script) + [entry] && projector.past == old(projector.past) + [e]
      ensures ok ==> |projector.worlds| == |old(projector.worlds)| + 1
      ensures !ok ==> script == old(script) && projector.past == old(projector.past) && projector.worlds == old(projector.worlds)
    {
      ghost var worlds := projector.worlds;
      ok := projector.Project(e);
      if !ok { return; }
      StillJustified(events, gate.approved, worlds, executed, events, gate.approved, projector.worlds);
      ToldOn(before, script, worlds, gate.approved, entry, projector.worlds);
      script := script + [entry];
    }

    /** Projects evidence and records it; refused evidence leaves both world and log alone. */
    method Note(kind: EventType, goal: Id, proposal: Id, action: Id, target: Id, e: Evidence, ghost entry: Entry)
      returns (ok: bool, refused: bool)
      requires Valid() && Level() && !entry.Began? && entry.e == e && Next(script, entry, projector.worlds, |before|, gate.approved)
      modifies this`events, this`script, projector
      ensures Valid() && Onward() && (Level() || OneAhead()) && (ok || refused ==> Level())
      ensures !ok ==> events == old(events)
      ensures ok ==> script == old(script) + [entry]
      ensures ok ==>
        && |events| == |old(events)| + 1 && |projector.worlds| == |old(projector.worlds)| + 1
        && var x := events[|old(events)|]; x.kind == kind && x.target == target && x.evidence == Some(e)
    {
      var projected := Apply(e, entry);
      if !projected { return false, true; }
      ok := Record(kind, goal, proposal, action, target, Some(e));
      refused := false;
    }

    /** The events from `n` on are measurements, each of which changed the world it was taken in. */
    ghost predicate OnlyChanges(n: nat, first: nat)
      reads this, projector
    {
      && n <= |events| && first + (|events| - n) <= |projector.worlds|
      && forall j :: n <= j < |events| ==> ChangeNoted(projector.worlds[first + (j - n)], events[j])
    }

    /** A measurement is applied, and recorded, only when it changes whether the allocation counts as ready. */
    method RefreshReadiness(goal: Goal, ids: seq<Id>) returns (ok: bool)
      requires Valid() && Level()
      modifies this`events, this`script, projector
      ensures Valid() && Onward() && (Level() || OneAhead()) && (ok ==> Level())
      ensures OnlyChanges(|old(events)|, |old(projector.worlds)| - 1)
    {
      for i := 0 to |ids|
        invariant Valid() && Level() && Onward() && Measured(|old(events)|, |old(projector.worlds)|)
      {
        for j := 0 to probers
          invariant Valid() && Level() && Onward() && Measured(|old(events)|, |old(projector.worlds)|)
        {
          var probe: Option<Evidence> := *;
          if probe.Some? {
            ok := Measure(goal, ids[i], probe.value, |old(events)|, |old(projector.worlds)|);
            if !ok { return; }
          }
        }
      }
      return true;
    }

    /** As many measurements recorded since as worlds reached since. */
    ghost predicate Measured(n: nat, worlds: nat)
      reads this, projector
    {
      worlds > 0 && |projector.worlds| - worlds == |events| - n && OnlyChanges(n, worlds - 1)
    }

    method Measure(goal: Goal, id: Id, e: Evidence, ghost n: nat, ghost worlds: nat) returns (ok: bool)
      requires Valid() && Level() && Measured(n, worlds)
      modifies this`events, this`script, projector
      ensures Valid() && Onward() && (Level() || OneAhead()) && OnlyChanges(n, worlds - 1)
      ensures ok ==> Level() && Measured(n, worlds)
    {
      var clock: Time := *;
      var before := Governor.Seen(projector.world, clock);
      if !Changes(before, id, e, clock) { return true; }
      ghost var past, at := projector.worlds, |events|;
      var refused: bool;
      ok, refused := Note(ObservationRecorded, goal.id, "", "", id, e, Probed(e));
      if ok { assert ChangeNoted(past[|past| - 1], events[at]); }
    }

    /** A probe's answer is always projected and recorded; the verifier decides what it means. */
    method Observe(goal: Id, proposal: Proposal) returns (ok: bool)
      requires Valid() && Level()
      modifies this`events, this`script, projector
      ensures Valid() && Onward() && (Level() || OneAhead()) && (ok ==> Level())
    {
      for i := 0 to |proposal.expected|
        invariant Valid() && Level() && Onward()
      {
        for j := 0 to probers
          invariant Valid() && Level() && Onward()
        {
          var probe: Option<Evidence> := *;
          if probe.Some? {
            var refused: bool;
            ok, refused := Note(ObservationRecorded, goal, proposal.id, "", proposal.expected[i].target, probe.value, Probed(probe.value));
            if !ok { return; }
          }
        }
      }
      return true;
    }

    /** Intent is recorded before the executor is called. */
    method Dispatch(d: Decision, action: Action) returns (result: Option<Evidence>)
      requires Valid() && Level() && d in gate.approved && Had(projector.worlds, d.seen, d.wall) && action in d.proposal.actions
      modifies this`events, this`executed
      ensures Valid() && Level() && Onward()
      ensures old(executed) <= executed <= old(executed) + [Execution(action, d, |old(events)| + 1)]
    {
      var ok := Record(ActionDispatched, d.goal.id, d.proposal.id, action.id, action.target, None);
      if !ok { return None; }
      ghost var x := Execution(action, d, |events|);
      assert IsDispatch(events[|events| - 1], x);
      result := *;
      executed := executed + [x];
      if result.None? {
        var _ := Record(GoalBlocked, d.goal.id, d.proposal.id, action.id, action.target, None);
      }
    }

    /** The executor acts, then its evidence, dated if it was not, is projected and recorded. */
    method Act(d: Decision, action: Action, ghost i: nat) returns (ok: bool)
      requires Valid() && Level() && d in gate.approved && Had(projector.worlds, d.seen, d.wall)
      requires i < |d.proposal.actions| && action == d.proposal.actions[i] && Carrying(d, i)
      modifies this`events, this`executed, this`script, projector
      ensures Valid() && Onward() && (Level() || OneAhead()) && (ok ==> Level() && Carrying(d, i + 1))
      ensures old(executed) <= executed <= old(executed) + [Execution(action, d, |old(events)| + 1)]
    {
      var result := Dispatch(d, action);
      if result.None? { return false; }
      var clock: Time := *;
      ok := Report(d, action, Executor.Stamp(result.value, clock), i);
    }

    method Report(d: Decision, action: Action, e: Evidence, ghost i: nat) returns (ok: bool)
      requires Valid() && Level() && i < |d.proposal.actions| && Carrying(d, i)
      modifies this`events, this`script, projector
      ensures Valid() && Onward() && (Level() || OneAhead()) && (ok ==> Level() && Carrying(d, i + 1))
    {
      var refused: bool;
      AnsweredOn(script, e);
      ok, refused := Note(ActionCompleted, d.goal.id, d.proposal.id, action.id, action.target, e, Answered(e));
      if refused {
        var _ := Record(GoalBlocked, d.goal.id, d.proposal.id, action.id, action.target, None);
        ok := false;
      }
    }

    /** The plan's actions in order, as far as they go well. */
    method ActAll(d: Decision) returns (progress: bool, ok: bool)
      requires Valid() && Level() && d in gate.approved && Had(projector.worlds, d.seen, d.wall) && Carrying(d, 0)
      modifies this`events, this`executed, this`script, projector
      ensures Valid() && Onward() && (Level() || OneAhead()) && (ok ==> Level())
    {
      progress, ok := false, true;
      var plan := d.proposal.actions;
      for i := 0 to |plan|
        invariant Valid() && Level() && Onward() && Had(projector.worlds, d.seen, d.wall) && Carrying(d, i) && ok
      {
        ghost var worlds := projector.worlds;
        ok := Act(d, plan[i], i);
        if !ok { return; }
        StillHad(worlds, projector.worlds, d.seen, d.wall);
        progress := true;
      }
    }

    method ExecuteProposal(d: Decision) returns (progress: bool, ok: bool)
      requires Valid() && Level() && d in gate.approved && IsSeen(projector.world, d.seen, d.wall) && Had(projector.worlds, d.seen, d.wall)
      modifies this`events, this`executed, this`script, projector
      ensures Valid() && Onward() && (Level() || OneAhead()) && (ok ==> Level())
    {
      BeganOn(before, script, projector.past, projector.worlds, gate.approved, d);
      script := script + [Began(d)];
      progress, ok := ActAll(d);
      if !ok { return; }
      ok := Observe(d.goal.id, d.proposal);
      if !ok { return; }
      ok := Verify(d);
    }

    /** Everything the plan said would be observed is. */
    method Verify(d: Decision) returns (met: bool)
      requires Valid() && Level()
      modifies this`events
      ensures Valid() && Onward() && Level()
    {
      var clock: Time := *;
      var seen := Governor.Seen(projector.world, clock);
      met := forall i :: 0 <= i < |d.proposal.expected| ==> Observed(seen, d.proposal.expected[i], seen.Now(clock));
      if !met { var _ := Record(GoalBlocked, d.goal.id, d.proposal.id, "", "", None); }
    }

    /** A plan is recorded, judged, recorded as approved, and only then executed. */
    method Consider(d: Decision) returns (progress: bool, ok: bool)
      requires Valid() && gate.Valid() && Level() && IsSeen(projector.world, d.seen, d.wall) && Had(projector.worlds, d.seen, d.wall)
      modifies this`events, this`executed, this`script, projector, gate
      ensures Valid() && gate.Valid() && Onward()
      ensures (Level() || OneAhead()) && (ok ==> Level())
    {
      ok := Record(ProposalCreated, d.goal.id, d.proposal.id, "", "", None);
      if !ok { return false, false; }
      ghost var granted := gate.approved;
      var approved := gate.Authorize(d);
      StillJustified(events, granted, projector.worlds, executed, events, gate.approved, projector.worlds);
      StillTold(before, script, projector.past, projector.worlds, granted, gate.approved);
      if !approved {
        ok := Record(ProposalDenied, d.goal.id, d.proposal.id, "", "", None);
        return false, ok;
      }
      progress, ok := Carry(d);
    }

    method Carry(d: Decision) returns (progress: bool, ok: bool)
      requires Valid() && Level() && d in gate.approved && IsSeen(projector.world, d.seen, d.wall) && Had(projector.worlds, d.seen, d.wall)
      modifies this`events, this`executed, this`script, projector
      ensures Valid() && Onward() && (Level() || OneAhead()) && (ok ==> Level())
    {
      ok := Record(ProposalApproved, d.goal.id, d.proposal.id, "", "", None);
      if !ok { return false, false; }
      var leased: bool := *;
      if !leased {
        ok := Record(ProposalDenied, d.goal.id, d.proposal.id, "", "", None);
        return false, ok;
      }
      progress, ok := ExecuteProposal(d);
    }

    /** One agent's turn. */
    method Turn(agent: Id, goal: Goal) returns (progress: bool, ok: bool)
      requires Valid() && gate.Valid() && Level()
      modifies this`events, this`executed, this`script, projector, gate
      ensures Valid() && gate.Valid() && Onward()
      ensures (Level() || OneAhead()) && (ok ==> Level())
    {
      progress := false;
      var answer: Answer := *;
      var clock: Time := *;
      var provenance: bool := *;
      match answer {
        case RollsBack =>
          var _ := Record(GoalBlocked, goal.id, "", "", "", None);
          ok := false;
        case Declines =>
          ok := Record(ProposalDenied, goal.id, "", "", "", None);
        case Proposes(p) =>
          ok := true;
          if p.actions != [] {
            var seen := Governor.Seen(projector.world, clock);
            HadNow(projector.worlds, |projector.past|, seen, clock);
            progress, ok := Consider(Decision(agent, goal, seen, p, clock, provenance));
          }
      }
    }

    method Round(goal: Goal) returns (progress: bool, ok: bool)
      requires Valid() && gate.Valid() && Level()
      modifies this`events, this`executed, this`script, projector, gate
      ensures Valid() && gate.Valid() && Onward()
      ensures (Level() || OneAhead()) && (ok ==> Level())
    {
      progress, ok := false, true;
      for i := 0 to |agents|
        invariant Valid() && gate.Valid() && Level() && Onward() && ok
      {
        var moved: bool;
        moved, ok := Turn(agents[i], goal);
        progress := progress || moved;
        if !ok { return; }
      }
    }

    /** Re-measures, and either finds the goal satisfied and records that, or reports that it is not yet. */
    method Settle(goal: Goal, effective: Goal, compensating: bool) returns (r: Outcome, ok: bool)
      requires Valid() && Level()
      modifies this`events, this`script, projector
      ensures Valid() && Onward() && (Level() || OneAhead()) && (ok ==> Level())
      ensures r.Achieved? ==> ok && Finished(r) && r.goal == effective
    {
      if compensating {
        ok := Record(GoalCompensating, goal.id, "", "", goal.workload.name, None);
        if !ok { return Failed, false; }
      }
      var ids: seq<Id> := *;
      ok := RefreshReadiness(effective, ids);
      if !ok { return Failed, false; }
      r, ok := Judge(goal, effective);
    }

    method Judge(goal: Goal, effective: Goal) returns (r: Outcome, ok: bool)
      requires Valid() && Level()
      modifies this`events
      ensures Valid() && Onward() && Level()
      ensures r.Achieved? ==> ok && Finished(r) && r.goal == effective
    {
      r, ok := Failed, true;
      var clock: Time := *;
      var seen := Governor.Seen(projector.world, clock);
      if Satisfied(effective, seen, seen.Now(clock)) {
        ok := Record(EventType.GoalAchieved, goal.id, "", "", "", None);
        if ok { r := Achieved(effective, seen, clock); }
      }
    }

    /** The goal's conditions hold of the world as observed, and the last event says so. */
    ghost predicate Finished(r: Outcome)
      requires r.Achieved?
      reads this, projector
    {
      && events != [] && events[|events| - 1].kind.GoalAchieved?
      && Satisfied(r.goal, r.seen, r.seen.Now(r.wall)) && r.seen == Governor.Seen(projector.world, r.wall)
    }

    /** One round: done, or every agent had its turn. */
    method Attempt(goal: Goal) returns (r: Outcome, progress: bool, ok: bool)
      requires Valid() && gate.Valid() && Level()
      modifies this`events, this`executed, this`script, projector, gate
      ensures Valid() && gate.Valid() && Onward()
      ensures (Level() || OneAhead()) && (ok ==> Level())
      ensures r.Achieved? ==> ok && Finished(r) && Means(projector.worlds, goal, r.goal)
    {
      var clock: Time := *;
      var seen := Governor.Seen(projector.world, clock);
      var ids := Walk(seen.approvals.Keys);
      var effective, compensating := CompensatedGoal(goal, seen, seen.Now(clock), ids);
      HadNow(projector.worlds, |projector.past|, seen, clock);
      assert Means(projector.worlds, goal, effective);
      progress := false;
      ghost var worlds := projector.worlds;
      r, ok := Settle(goal, effective, compensating);
      StillMeans(worlds, projector.worlds, goal, effective);
      if ok && r.Failed? { progress, ok := Round(effective); }
    }

    /** A run that achieves its goal leaves the world level with the log, the goal's conditions true of the world
        as observed, and the achievement its last event. A run that fails leaves the world at most one item ahead. */
    method Run(goal: Goal, maxRounds: nat) returns (r: Outcome)
      requires Valid() && gate.Valid() && Level()
      modifies this`events, this`executed, this`script, projector, gate
      ensures Valid() && gate.Valid() && Onward() && (Level() || OneAhead())
      ensures r.Achieved? ==> Level() && Finished(r) && Means(projector.worlds, goal, r.goal)
    {
      var ok := Record(GoalAccepted, goal.id, "", "", "", None);
      if !ok { return Failed; }
      r := Attempts(goal, maxRounds);
    }

    method Attempts(goal: Goal, maxRounds: nat) returns (r: Outcome)
      requires Valid() && gate.Valid() && Level()
      modifies this`events, this`executed, this`script, projector, gate
      ensures Valid() && gate.Valid() && Onward() && (Level() || OneAhead())
      ensures r.Achieved? ==> Level() && Finished(r) && Means(projector.worlds, goal, r.goal)
    {
      for round := 0 to maxRounds
        invariant Valid() && gate.Valid() && Level() && Onward()
      {
        var progress, ok: bool;
        r, progress, ok := Attempt(goal);
        if !ok || r.Achieved? { return; }
        if !progress { break; }
      }
      var _ := Record(GoalBlocked, goal.id, "", "", "", None);
      return Failed;
    }
  }

  /** A probe's answer changes whether the allocation counts as ready. */
  predicate Changes(seen: World, id: Id, e: Evidence, clock: Time) {
    var now := seen.Now(clock);
    var was := id in seen.allocations && seen.allocations[id].ReadyAt(now);
    var willBe := e.fact.OfAllocation? && SaysReady(e.fact.a) && (e.expiresAt == 0 || now < e.expiresAt);
    was != willBe
  }

  /** The event records a measurement that changes readiness in the given world. */
  ghost predicate ChangeNoted(w: World, event: Event) {
    event.kind.ObservationRecorded? && event.evidence.Some? &&
    exists clock: Time :: Changes(Governor.Seen(w, clock), event.target, event.evidence.value, clock)
  }

  /** What was executed came from plans that the kernel authorizes on a world the engine had. */
  lemma ExecutedWasAuthorized(e: Engine, k: nat)
    requires e.Valid() && e.gate.Valid() && k < |e.executed|
    ensures var d := e.executed[k].decision; Approves(e.gate.policy, d) && Had(e.projector.worlds, d.seen, d.wall)
  {
    assert Justified(e.events, e.gate.approved, e.projector.worlds, e.executed[k]);
  }

  lemma ToldLeads(base: World, past: seq<Evidence>, worlds: seq<World>, before: seq<Evidence>, es: seq<Evidence>)
    requires Folds(base, past, worlds) && past == before + es
    ensures Leads(worlds, |before|, es)
  {
    var first := |before|;
    forall k | 0 <= k < |es| ensures Led(worlds, first, es, k) {
      var j := first + k;
      assert past[j] == es[k] && Steps(worlds[j], past[j], worlds[j + 1]);
    }
  }

  /** What an engine did is a run of the governor, as long as measurements disrupt nothing, decisions are taken by a
      running clock, and executors report on the action asked for and do not date it before the decision. Then no
      window of the disruptions recorded, with those on record when it started, holds more than the budget. */
  lemma EngineKeepsBudget(e: Engine, h: seq<Disruption>)
    requires e.Valid() && e.gate.Valid() && Behaved(e.script) && Governor.Budgeted(e.gate.policy)
    requires Governor.BudgetKept(e.gate.policy, Governor.State(e.projector.worlds[|e.before|], h))
    ensures var first, es := |e.before|, EvidenceIn(e.script);
            && first + |es| < |e.projector.worlds| && e.projector.past == e.before + es
            && Governor.BudgetKept(e.gate.policy,
                                   Governor.State(e.projector.world, h + RecordedAlong(e.projector.worlds, first, es)))
  {
    var first, es := |e.before|, EvidenceIn(e.script);
    ToldLeads(e.projector.base, e.projector.past, e.projector.worlds, e.before, es);
    ScriptKeepsBudget(e.gate.policy, e.projector.worlds, first, h, e.script, e.gate.approved);
  }

  /** Whoever is level with its log can be rebuilt from it: replaying the recorded evidence over the same base
      gives the incrementally kept world, so nothing is lost by a restart. */
  method Restart(kept: Engine, log: seq<Evidence>) returns (rebuilt: DurableProjector, ok: bool)
    requires kept.Valid() && kept.Level() && log == kept.before + EvidenceOf(kept.events)
    ensures ok && fresh(rebuilt) && rebuilt.Valid() && rebuilt.world == kept.projector.world
  {
    FoldsIsReplay(kept.projector.base, kept.projector.past, kept.projector.worlds);
    rebuilt := new DurableProjector(kept.projector.base);
    ok := rebuilt.Rebuild(log);
    FoldsIsReplay(rebuilt.base, rebuilt.past, rebuilt.worlds);
  }

  // ---- A standby takes over ----

  function EvidenceRecorded(records: seq<Record>): seq<Evidence> {
    if records == [] then []
    else
      var rest, e := EvidenceRecorded(records[..|records| - 1]), records[|records| - 1].event;
      if e.evidence.Some? then rest + [e.evidence.value] else rest
  }

  method ReplayEvidence(records: seq<Record>) returns (evidence: seq<Evidence>)
    ensures evidence == EvidenceRecorded(records)
  {
    evidence := [];
    for k := 0 to |records|
      invariant evidence == EvidenceRecorded(records[..k])
    {
      assert records[..k + 1][..k] == records[..k];
      if records[k].event.evidence.Some? { evidence := evidence + [records[k].event.evidence.value]; }
    }
    assert records[..|records|] == records;
  }

  /** A head that an anchor can be told: an empty one need not be, and a later or the same one may be. */
  predicate Recordable(head: Head, w: Witnessed) {
    head.hash == Root || head.sequence > w.sequence || w == Witnessed(head.sequence, head.hash)
  }

  /** The server that a promoted standby becomes: it is promotable, its history rebuilds the world, and the anchor
      takes its head; then the world is the fold of the recorded evidence and the anchor stands at the head. */
  method TakeOver(standby: Standby, current: Anchor, base: World) returns (projector: DurableProjector, ok: bool)
    requires standby.log.isOpen && current != standby.anchor && current.Valid()
    requires standby.anchor.last.hash == Root ==> standby.anchor.last.sequence == 0
    modifies standby, standby.log, current
    ensures standby.log.db.records == old(standby.log.db.records) && standby.log.db.head == old(standby.log.db.head)
    ensures ok <==>
      && old(standby.following) && Promotable(old(standby.log.View()), standby.anchor.last, old(current.last))
      && Replay(base, EvidenceRecorded(standby.log.db.records)).Ok? && Recordable(standby.log.db.head, old(current.last))
    ensures ok ==> projector.Valid() && projector.base == base && projector.past == EvidenceRecorded(standby.log.db.records)
    ensures ok && standby.log.db.head.hash != Root ==>
      current.Valid() && current.last == Witnessed(standby.log.db.head.sequence, standby.log.db.head.hash)
    ensures !ok ==> current.last == old(current.last)
  {
    projector := new DurableProjector(base);
    ok := standby.Promote(current);
    if !ok { return; }
    var evidence := ReplayEvidence(standby.log.db.records);
    ok := projector.Rebuild(evidence);
    if !ok { return; }
    var head := standby.log.head;
    if head.hash != Root { ok := current.Witness(head.sequence, head.hash); }
  }
}
