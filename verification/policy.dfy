/** The kernel: a whole plan is validated against a simulated world, action by action, before
    anything acts (control/policy.go, control/spread.go, control/clusterbudget.go). */
module Kernel {
  import opened Types
  import opened Sums
  import opened Ledger
  import opened Executor

  datatype Policy = Policy(
    maxActions: int, grants: map<Id, set<ActionKind>>, maxDisruptions: int, window: Duration, cooldown: Duration,
    clusterCeiling: Resources, maxAllocations: int, clusterBudget: Budget)

  const PLACEMENT_GRANTS: set<ActionKind> :=
    { PullImage, CreateAllocation, AttachNetwork, MountSecret, CreateVolume, AttachVolume, StartAllocation, GrantTools }
  const NETWORK_GRANTS: set<ActionKind> := { PublishRoute, ApplyPolicy, PublishZone }
  const REMEDIATION_GRANTS: set<ActionKind> := { CordonNode, StopAllocation, DeleteAllocation }
  const ROLLOUT_GRANTS: set<ActionKind> := { StopAllocation, DeleteAllocation, DrainAllocation, DetachVolume }
  const STORAGE_GRANTS: set<ActionKind> :=
    { SnapshotVolume, DatabaseBackup, BackupSnapshot, RestoreSnapshot, QuiesceVolume, TransferVolume, AdoptVolume,
      PruneSnapshots, CollectImages, VerifyBackup }

  const DEFAULT_POLICY := Policy(
    8,
    map["placement-agent" := PLACEMENT_GRANTS, "network-agent" := NETWORK_GRANTS,
        "remediation-agent" := REMEDIATION_GRANTS, "rollout-agent" := ROLLOUT_GRANTS, "storage-agent" := STORAGE_GRANTS],
    DEFAULT_MAX_DISRUPTIONS, DEFAULT_WINDOW, DEFAULT_COOLDOWN, NOTHING, 0, NO_BUDGET)

  const POLICY_TABLE := "a4s"

  // ---- Reading the goal and the world ----

  predicate Pinned(image: string) { |image| >= 8 && (image[..8] == "@sha256:" || Pinned(image[1..])) }

  predicate HealthyNode(w: World, n: Id) { n in w.nodes && w.nodes[n].healthy }

  function Label(n: Node, key: string): string { if key in n.labels then n.labels[key] else "" }

  predicate NodeAllowed(c: Constraints, n: Node) {
    && (c.allowed == [] || n.id in c.allowed)
    && forall key :: key in c.labels ==> Label(n, key) == c.labels[key]
  }

  predicate DeclaresVolume(goal: Goal, name: Id) {
    exists i :: 0 <= i < |goal.workload.volumes| && goal.workload.volumes[i].name == name
  }

  predicate HasApproval(w: World, goal: Id, scope: string, now: Time) {
    exists id :: id in w.approvals && w.approvals[id].goal == goal && w.approvals[id].scope == scope &&
                 w.approvals[id].Valid(now)
  }

  function AuthorizedReplicas(goal: Goal, w: World): int {
    var replicas := goal.workload.replicas;
    if goal.workload.runtime.None? || goal.workload.runtime.value.queue == "" then replicas
    else
      var q := goal.workload.runtime.value.queue;
      if q !in w.queues || w.queues[q].workload != goal.workload.name then replicas
      else Max(replicas, w.queues[q].maxWorkers)
  }

  /** The live allocations of a workload in a failure domain. */
  function Occupants(w: World, workload: Id, domain: Id): set<Id> {
    set id | id in w.allocations && w.allocations[id].workload == workload && w.allocations[id].phase != Stopped &&
             w.allocations[id].node in w.nodes && w.nodes[w.allocations[id].node].FailureDomain() == domain
  }

  /** The allocations of a workload measured as serving at an instant, whatever image they run. */
  function Serving(goal: Goal, w: World, now: Time): set<Id> {
    set id | id in w.allocations && w.allocations[id].workload == goal.workload.name && w.allocations[id].ReadyAt(now)
  }

  function MatchingReady(goal: Goal, w: World, now: Time): set<Id> {
    set id | id in w.allocations && w.allocations[id].node in w.nodes && w.allocations[id].ReadyAt(now) &&
             w.allocations[id].workload == goal.workload.name && w.allocations[id].image == goal.workload.image &&
             w.allocations[id].resources == goal.workload.resources &&
             NodeAllowed(goal.constraints, w.nodes[w.allocations[id].node]) &&
             !w.allocations[id].draining && !w.allocations[id].Exhausted()
  }

  function DisruptionFloor(goal: Goal): int {
    if goal.workload.replicas <= 1 then 0 else goal.workload.replicas - 1
  }

  // ---- One validator for each kind ----

  predicate SpreadAllows(goal: Goal, w: World, n: Id)
    requires n in w.nodes
  {
    goal.workload.maxPerDomain <= 0 ||
    |Occupants(w, goal.workload.name, w.nodes[n].FailureDomain())| < goal.workload.maxPerDomain
  }

  predicate AgentFits(goal: Goal, n: Node, a: Action, now: Time) {
    match goal.workload.runtime
    case None => a.budget.IsZero()
    case Some(runtime) =>
      a.budget == runtime.budget && n.CanReach(runtime.provider, now) &&
      n.budgetUsed.Add(a.budget).Fits(n.budgetCapacity)
  }

  /** Everything asked of a creation except that its id is still free. */
  predicate CreateFits(goal: Goal, w: World, a: Action, now: Time) {
    && HealthyNode(w, a.node)
    && !w.nodes[a.node].cordoned
    && NodeAllowed(goal.constraints, w.nodes[a.node])
    && a.workload == goal.workload.name
    && a.image == goal.workload.image && a.image in w.nodes[a.node].images
    && a.resources == goal.workload.resources
    && w.nodes[a.node].used.Add(a.resources).Fits(w.nodes[a.node].capacity)
    && 0 <= a.replica < AuthorizedReplicas(goal, w)
    && SpreadAllows(goal, w, a.node)
    && AgentFits(goal, w.nodes[a.node], a, now)
  }

  predicate CreateVolumeAllowed(goal: Goal, w: World, a: Action) {
    && a.volume.Some? && DeclaresVolume(goal, a.volume.value.name)
    && HealthyNode(w, a.node) && !w.nodes[a.node].cordoned
    && (a.volume.value.name in w.volumes ==> w.volumes[a.volume.value.name].node == a.node)
  }

  predicate AttachAllowed(goal: Goal, w: World, a: Action) {
    && a.volume.Some? && a.target in w.allocations && w.allocations[a.target].phase == Created
    && a.volume.value.name in w.volumes && DeclaresVolume(goal, a.volume.value.name)
    && var v := w.volumes[a.volume.value.name];
       (v.owner == "" || v.owner == a.target) && v.handoff.None? && v.node == w.allocations[a.target].node
  }

  predicate DetachAllowed(w: World, a: Action) {
    && a.volume.Some? && a.volume.value.name in w.volumes
    && (w.volumes[a.volume.value.name].owner == "" || w.volumes[a.volume.value.name].owner == a.target)
    && (a.target in w.allocations ==> w.allocations[a.target].phase != Running)
  }

  predicate QuiesceAllowed(goal: Goal, w: World, a: Action, now: Time) {
    && a.volume.Some? && a.volume.value.name in w.volumes && w.volumes[a.volume.value.name].owner == ""
    && HealthyNode(w, a.node) && !w.nodes[a.node].cordoned && a.node != w.volumes[a.volume.value.name].node
    && HasApproval(w, goal.id, "move-volume", now)
  }

  predicate HandoffAt(w: World, a: Action, phase: HandoffPhase) {
    && a.volume.Some? && a.volume.value.name in w.volumes
    && var h := w.volumes[a.volume.value.name].handoff;
       h.Some? && h.value.phase == phase && a.node == h.value.to
  }

  predicate SnapshotKnown(w: World, a: Action) {
    a.volume.Some? && a.snapshot != "" && a.volume.value.name in w.volumes &&
    a.snapshot in w.volumes[a.volume.value.name].snapshots
  }

  predicate HoldsVolumes(goal: Goal, w: World, a: Id)
    requires a in w.allocations
  {
    forall i :: 0 <= i < |goal.workload.volumes| ==>
      var name := goal.workload.volumes[i].name;
      && name in w.volumes && name in w.allocations[a].volumes
      && w.allocations[a].volumes[name] == w.volumes[name].generation && w.volumes[name].owner == a
  }

  predicate HoldsSecrets(goal: Goal, x: Allocation) {
    forall i :: 0 <= i < |goal.workload.secrets| ==>
      var ref := goal.workload.secrets[i];
      (if ref.name in x.secrets then x.secrets[ref.name] else "") == ref.version
  }

  predicate StartAllowed(goal: Goal, w: World, a: Action) {
    && a.target in w.allocations && w.allocations[a.target].phase == Created
    && a.workload == goal.workload.name && w.allocations[a.target].workload == a.workload
    && HoldsVolumes(goal, w, a.target)
    && HoldsSecrets(goal, w.allocations[a.target])
    && (goal.workload.port > 0 ==> w.allocations[a.target].address != "")
    && (goal.workload.runtime.Some? ==>
          && (goal.workload.runtime.value.tools != [] ==> w.allocations[a.target].tools != [])
          && !w.allocations[a.target].budget.IsZero() && !w.allocations[a.target].Exhausted())
  }

  predicate StopAllowed(goal: Goal, w: World, a: Action, now: Time) {
    && a.target in w.allocations
    && var x := w.allocations[a.target];
       && x.phase == Running && a.workload == x.workload
       && !(goal.workload.runtime.Some? && x.task != "" && !x.Exhausted())
       && (x.ReadyAt(now) ==> |Serving(goal, w, now)| - 1 >= DisruptionFloor(goal))
  }

  predicate DeleteAllowed(goal: Goal, w: World, a: Action, now: Time) {
    && a.target in w.allocations
    && var x := w.allocations[a.target];
       && x.phase != Running && a.workload == x.workload && x.volumes == map[]
       && (x.stateful ==> HasApproval(w, goal.id, "destroy-stateful", now))
  }

  predicate GrantAllowed(goal: Goal, w: World, a: Action, now: Time) {
    && a.target in w.allocations && w.allocations[a.target].phase == Created && goal.workload.runtime.Some?
    && (forall i :: 0 <= i < |a.tools| ==> a.tools[i] in goal.workload.runtime.value.tools)
    && ((exists i :: 0 <= i < |a.tools| && a.tools[i].mutating) ==>
          HasApproval(w, goal.id, "agent-mutating-tools", now))
  }

  predicate RouteAllowed(goal: Goal, w: World, a: Action, now: Time) {
    && goal.route.Some? && a.target == goal.route.value.host && a.port == goal.route.value.port
    && a.exposure == goal.route.value.exposure && a.workload == goal.workload.name
    && (a.exposure == "public" ==> HasApproval(w, goal.id, "public-route", now))
    && |MatchingReady(goal, w, now)| >= goal.workload.replicas
  }

  predicate Validate(goal: Goal, w: World, a: Action, now: Time) {
    match a.kind
    case PullImage => HealthyNode(w, a.node) && a.image == goal.workload.image && Pinned(a.image)
    case CreateAllocation => a.target !in w.allocations && CreateFits(goal, w, a, now)
    case CreateVolume => CreateVolumeAllowed(goal, w, a)
    case AttachVolume => AttachAllowed(goal, w, a)
    case DetachVolume => DetachAllowed(w, a)
    case SnapshotVolume =>
      a.volume.Some? && a.volume.value.name in w.volumes && goal.workload.engine == "" &&
      w.volumes[a.volume.value.name].owner == ""
    case QuiesceVolume => QuiesceAllowed(goal, w, a, now)
    case TransferVolume => HandoffAt(w, a, Snapshotted)
    case AdoptVolume => HandoffAt(w, a, Transferred)
    case DatabaseBackup =>
      a.volume.Some? && a.snapshot != "" && goal.workload.engine != "" && a.volume.value.name in w.volumes &&
      w.volumes[a.volume.value.name].owner != ""
    case VerifyBackup => SnapshotKnown(w, a)
    case PruneSnapshots =>
      a.volume.Some? && a.volume.value.name in w.volumes && a.retain >= 1 &&
      w.volumes[a.volume.value.name].handoff.None?
    case CollectImages =>
      a.node != "" && HealthyNode(w, a.node) &&
      forall id :: id in w.allocations && w.allocations[id].image != "" ==> w.allocations[id].image in a.protected
    case PublishZone => a.node != "" && a.node in w.nodes && a.zone.Some? && a.zone.value.node == a.node
    case ApplyPolicy =>
      a.node != "" && a.node in w.nodes && a.policy.Some? && a.policy.value.node == a.node &&
      a.policy.value.table == POLICY_TABLE && a.policy.value.rules > 0
    case BackupSnapshot => SnapshotKnown(w, a)
    case RestoreSnapshot =>
      SnapshotKnown(w, a) && w.volumes[a.volume.value.name].owner == "" &&
      HasApproval(w, goal.id, "restore-volume", now)
    case MountSecret =>
      a.target in w.allocations && w.allocations[a.target].phase == Created && a.secret.Some? &&
      a.secret.value in goal.workload.secrets
    case GrantTools => GrantAllowed(goal, w, a, now)
    case DrainAllocation =>
      a.target in w.allocations && w.allocations[a.target].phase == Running && goal.workload.runtime.Some? &&
      a.workload == w.allocations[a.target].workload
    case AttachNetwork =>
      a.target in w.allocations && w.allocations[a.target].phase == Created &&
      a.workload == w.allocations[a.target].workload
    case StartAllocation => StartAllowed(goal, w, a)
    case StopAllocation => StopAllowed(goal, w, a, now)
    case DeleteAllocation => DeleteAllowed(goal, w, a, now)
    case PublishRoute => RouteAllowed(goal, w, a, now)
    case CordonNode => a.target != "" && a.target in w.nodes
    case UncordonNode => a.target != "" && a.target in w.nodes
    case ProbeReadiness => false
  }

  // ---- The plan as a whole ----

  predicate Completed(plan: seq<Action>, id: Id) { exists i :: 0 <= i < |plan| && plan[i].id == id }

  /** An action may come next: its id is new, its kind granted and its dependencies done. */
  predicate InTurn(grants: set<ActionKind>, done: seq<Action>, a: Action) {
    && a.id != "" && !Completed(done, a.id) && a.kind in grants
    && forall i :: 0 <= i < |a.dependsOn| ==> Completed(done, a.dependsOn[i])
  }

  /** The simulated world at the end of a plan whose every action is valid in its turn. */
  function RunPlan(goal: Goal, grants: set<ActionKind>, w: World, plan: seq<Action>, now: Time): Result<World> {
    if plan == [] then Ok(w)
    else
      var done, a := plan[..|plan| - 1], plan[|plan| - 1];
      var sim :- RunPlan(goal, grants, w, done, now);
      if InTurn(grants, done, a) && Validate(goal, sim, a, now) then Simulate(sim, a) else Err
  }

  function RequiredCheck(goal: Goal, a: Action): Option<CheckKind> {
    match a.kind
    case StartAllocation => Some(if goal.workload.runtime.Some? then CheckAgentReady else CheckAllocationReady)
    case PublishRoute => Some(CheckRouteReachable)
    case DrainAllocation => Some(CheckAllocationDrained)
    case _ => None
  }

  predicate EvidencePromised(goal: Goal, p: Proposal) {
    forall i :: 0 <= i < |p.actions| && RequiredCheck(goal, p.actions[i]).Some? ==>
      Check(RequiredCheck(goal, p.actions[i]).value, p.actions[i].target, true) in p.expected
  }

  // ---- The governor ----

  predicate Disruptive(kind: ActionKind) { kind.StopAllocation? || kind.DeleteAllocation? || kind.DrainAllocation? }

  function DisruptiveCount(plan: seq<Action>): nat {
    if plan == [] then 0
    else DisruptiveCount(plan[..|plan| - 1]) + if Disruptive(plan[|plan| - 1].kind) then 1 else 0
  }

  function ActionDomain(w: World, a: Action): Id {
    var node := if a.target in w.allocations && w.allocations[a.target].node != "" then w.allocations[a.target].node else a.node;
    DomainOf(w.nodes, node)
  }

  function ProposedDomains(w: World, plan: seq<Action>): set<Id> {
    set i | 0 <= i < |plan| && Disruptive(plan[i].kind) && ActionDomain(w, plan[i]) != "" :: ActionDomain(w, plan[i])
  }

  function DisruptedDomains(w: World, now: Time, cooldown: Duration): set<Id> {
    set d | d in Recent(w, now, cooldown) && d.domain != "" :: d.domain
  }

  function Window(p: Policy): Duration { if p.window <= 0 then DEFAULT_WINDOW else p.window }

  predicate WithinDisruptionBudget(p: Policy, w: World, plan: seq<Action>, now: Time) {
    DisruptiveCount(plan) > 0 ==>
      && (p.maxDisruptions > 0 ==> |Recent(w, now, Window(p))| + DisruptiveCount(plan) <= p.maxDisruptions)
      && (p.cooldown > 0 ==>
            && |ProposedDomains(w, plan)| <= 1
            && forall d, o :: d in ProposedDomains(w, plan) && o in DisruptedDomains(w, now, p.cooldown) ==> d == o)
  }

  predicate OutOfBackoff(w: World, plan: seq<Action>, now: Time) {
    forall i :: 0 <= i < |plan| && (plan[i].kind.CreateAllocation? || plan[i].kind.StartAllocation?) ==>
      !(plan[i].target in w.backoff && w.backoff[plan[i].target].Active(now))
  }

  // ---- The cluster ceiling ----

  datatype Commitment = Commitment(count: int, resources: Resources, budget: Budget) {
    function Add(o: Commitment): Commitment {
      Commitment(count + o.count, resources.Add(o.resources), budget.Add(o.budget))
    }
  }

  const NO_COMMITMENT := Commitment(0, NOTHING, NO_BUDGET)

  function Adding(plan: seq<Action>): Commitment {
    if plan == [] then NO_COMMITMENT
    else
      var rest, a := Adding(plan[..|plan| - 1]), plan[|plan| - 1];
      if a.kind.CreateAllocation? then rest.Add(Commitment(1, a.resources, a.budget)) else rest
  }

  /** What the listed allocations commit, stopped ones excepted. */
  ghost function Committed(w: World, ids: set<Id>): Commitment
    requires ids <= w.allocations.Keys
  {
    if ids == {} then NO_COMMITMENT
    else
      var id := Pick(ids);
      Committed(w, ids - {id}).Add(CommitmentOf(w.allocations[id]))
  }

  function CommitmentOf(x: Allocation): Commitment {
    if x.phase == Stopped then NO_COMMITMENT else Commitment(1, x.resources, x.budget)
  }

  predicate Under(total: int, ceiling: int) { ceiling <= 0 || total <= ceiling }

  predicate CeilingHolds(p: Policy, total: Commitment) {
    && Under(total.count, p.maxAllocations)
    && Under(total.resources.cpu, p.clusterCeiling.cpu) && Under(total.resources.mem, p.clusterCeiling.mem)
    && Under(total.budget.tokens, p.clusterBudget.tokens) && Under(total.budget.cost, p.clusterBudget.cost)
    && Under(total.budget.wall, p.clusterBudget.wall) && Under(total.budget.calls, p.clusterBudget.calls)
  }

  ghost predicate WithinCeiling(p: Policy, w: World, plan: seq<Action>) {
    Adding(plan).count == 0 || CeilingHolds(p, Committed(w, w.allocations.Keys).Add(Adding(plan)))
  }

  // ---- Authorization ----

  predicate Addressed(p: Policy, actor: Id, goal: Goal, w: World, proposal: Proposal) {
    && proposal.agent == actor && proposal.agent != "" && proposal.goal == goal.id && proposal.revision == w.revision
    && 0 < |proposal.actions| <= p.maxActions
    && proposal.agent in p.grants && p.grants[proposal.agent] != {}
  }

  /** The kernel's verdict. `provenance` stands for the verdict on image signatures, which are not
      modelled, and `wall` for the clock, read only by a world without an observation time. */
  ghost predicate Authorized(p: Policy, actor: Id, goal: Goal, w: World, proposal: Proposal, wall: Time, provenance: bool) {
    && Addressed(p, actor, goal, w, proposal)
    && RunPlan(goal, p.grants[proposal.agent], w, proposal.actions, w.Now(wall)).Ok?
    && EvidencePromised(goal, proposal)
    && WithinDisruptionBudget(p, w, proposal.actions, w.Now(wall))
    && OutOfBackoff(w, proposal.actions, w.Now(wall))
    && provenance
    && WithinCeiling(p, w, proposal.actions)
  }

  lemma {:induction false} CommittedSplit(w: World, ids: set<Id>, id: Id)
    requires ids <= w.allocations.Keys && id in ids
    ensures Committed(w, ids) == Committed(w, ids - {id}).Add(CommitmentOf(w.allocations[id]))
    decreases |ids|
  {
    var first := Pick(ids);
    if first != id {
      CommittedSplit(w, ids - {first}, id);
      CommittedSplit(w, ids - {id}, first);
      var rest := ids - {first} - {id};
      assert rest == ids - {id} - {first};
      AddCommutes(Committed(w, rest), CommitmentOf(w.allocations[id]), CommitmentOf(w.allocations[first]));
    }
  }

  lemma AddCommutes(a: Commitment, b: Commitment, c: Commitment)
    ensures a.Add(b).Add(c) == a.Add(c).Add(b)
  {
  }

  /** The sum over live allocations, taken in whatever order the map is walked. */
  method CurrentCommitment(w: World) returns (total: Commitment)
    ensures total == Committed(w, w.allocations.Keys)
  {
    total := NO_COMMITMENT;
    var left := w.allocations.Keys;
    while left != {}
      invariant left <= w.allocations.Keys
      invariant total == Committed(w, w.allocations.Keys - left)
      decreases left
    {
      var id :| id in left;
      var done := w.allocations.Keys - left;
      CommittedSplit(w, done + {id}, id);
      assert done + {id} - {id} == done && w.allocations.Keys - (left - {id}) == done + {id};
      total := total.Add(CommitmentOf(w.allocations[id]));
      left := left - {id};
    }
    assert w.allocations.Keys - left == w.allocations.Keys;
  }

  /** Each action in turn: granted, valid in the world simulated so far, and simulated. */
  method SimulatePlan(goal: Goal, grants: set<ActionKind>, w: World, plan: seq<Action>, now: Time) returns (ok: bool)
    ensures ok == RunPlan(goal, grants, w, plan, now).Ok?
  {
    var sim := w;
    for i := 0 to |plan|
      invariant RunPlan(goal, grants, w, plan[..i], now) == Ok(sim)
    {
      assert plan[..i + 1][..i] == plan[..i];
      if !InTurn(grants, plan[..i], plan[i]) || !Validate(goal, sim, plan[i], now) || Simulate(sim, plan[i]).Err? {
        PlanPrefix(goal, grants, w, plan, now, i + 1);
        return false;
      }
      sim := Simulate(sim, plan[i]).value;
    }
    assert plan[..|plan|] == plan;
    return true;
  }

  method Authorize(p: Policy, actor: Id, goal: Goal, w: World, proposal: Proposal, wall: Time, provenance: bool)
      returns (ok: bool)
    ensures ok == Authorized(p, actor, goal, w, proposal, wall, provenance)
  {
    if !Addressed(p, actor, goal, w, proposal) { return false; }
    var now, plan := w.Now(wall), proposal.actions;
    ok := SimulatePlan(goal, p.grants[proposal.agent], w, plan, now);
    if !ok { return; }
    var held := CurrentCommitment(w);
    ok := EvidencePromised(goal, proposal) && WithinDisruptionBudget(p, w, plan, now) && OutOfBackoff(w, plan, now) &&
          provenance && (Adding(plan).count == 0 || CeilingHolds(p, held.Add(Adding(plan))));
  }

  lemma {:induction false} PlanPrefix(goal: Goal, grants: set<ActionKind>, w: World, plan: seq<Action>, now: Time, k: nat)
    requires k <= |plan|
    ensures RunPlan(goal, grants, w, plan, now).Ok? ==> RunPlan(goal, grants, w, plan[..k], now).Ok?
    decreases |plan|
  {
    if k < |plan| {
      PlanPrefix(goal, grants, w, plan[..|plan| - 1], now, k);
      assert plan[..|plan| - 1][..k] == plan[..k];
    } else {
      assert plan[..k] == plan;
    }
  }
}
