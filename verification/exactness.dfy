/** An authorized plan executes exactly as it was simulated. */
module Exactness {
  import opened Types
  import opened Projection
  import opened Snapshots
  import opened Executor
  import opened Kernel

  // ---- What must agree ----

  /** Everything but the agent budget, which deletion releases only in simulation, and the
      fingerprints, which simulation does not predict. */
  ghost predicate SameNode(x: Node, y: Node) {
    x == y.(budgetUsed := x.budgetUsed, zone := x.zone, policy := x.policy)
  }

  /** Everything but readiness, which only a probe reports, the concrete address and the content of the
      tool envelope. Having an address and the number of tools do agree. */
  ghost predicate SameAllocation(x: Allocation, y: Allocation) {
    && x == y.(ready := x.ready, readySince := x.readySince, readyExpiresAt := x.readyExpiresAt,
               address := x.address, tools := x.tools)
    && (x.address == "" <==> y.address == "")
    && |x.tools| == |y.tools|
  }

  ghost predicate SameVolume(x: Volume, y: Volume) {
    x == y.(verifiedAt := x.verifiedAt, verifiedSnapshot := x.verifiedSnapshot)
  }

  ghost predicate SameNodes(x: map<Id, Node>, y: map<Id, Node>) {
    x.Keys == y.Keys && forall n :: n in x ==> SameNode(x[n], y[n])
  }
  ghost predicate SameAllocations(x: map<Id, Allocation>, y: map<Id, Allocation>) {
    x.Keys == y.Keys && forall a :: a in x ==> SameAllocation(x[a], y[a])
  }
  ghost predicate SameVolumes(x: map<Id, Volume>, y: map<Id, Volume>) {
    x.Keys == y.Keys && forall v :: v in x ==> SameVolume(x[v], y[v])
  }

  /** The executed world `w` and the simulated world `sim` tell the same story. */
  ghost predicate Agree(w: World, sim: World) {
    && SameNodes(w.nodes, sim.nodes) && SameAllocations(w.allocations, sim.allocations)
    && SameVolumes(w.volumes, sim.volumes) && w.routes == sim.routes
    && w.queues == sim.queues && w.approvals == sim.approvals && w.knownGood == sim.knownGood && w.backoff == sim.backoff
  }

  // ---- What is assumed of the start ----

  /** The facts goal validation establishes before anything is planned. */
  ghost predicate GoalValid(goal: Goal) {
    && goal.workload.resources.cpu >= 1 && goal.workload.resources.mem >= 1
    && goal.workload.replicas >= 1
    && (forall i :: 0 <= i < |goal.workload.volumes| ==> goal.workload.volumes[i].name != "")
    && (forall i :: 0 <= i < |goal.workload.secrets| ==>
          goal.workload.secrets[i].name != "" && goal.workload.secrets[i].version != "")
    && (goal.route.Some? ==> goal.route.value.host != "")
  }

  /** Nodes filed under their own, non-empty id; snapshot indexes exact; a snapshotted move remembers
      its checksum. Every run of evidence keeps this. */
  ghost predicate WellFormed(w: World) {
    && (forall n :: n in w.nodes ==> n != "" && w.nodes[n].id == n)
    && WorldIndexed(w)
    && (forall v :: v in w.volumes ==> ChecksumKnown(w.volumes[v]))
  }

  ghost predicate ChecksumKnown(v: Volume) {
    v.handoff.Some? && v.handoff.value.phase == Snapshotted ==> v.handoff.value.checksum != ""
  }

  /** The two kinds whose simulation differs from their evidence: simulated snapshots are not
      indexed, and dry-run pruning is projected as if it had removed something. */
  predicate Faithful(a: Action) {
    !a.kind.SnapshotVolume? && !(a.kind.PruneSnapshots? && a.dryRun)
  }

  /** Creating and attaching need a name; the kernel does not ask for one, the projection does. */
  predicate Named(a: Action) {
    (a.kind.CreateAllocation? || a.kind.AttachVolume?) ==> a.target != ""
  }

  // ---- What a valid action has going for it ----

  /** The part of a validation that carrying the action out relies on. */
  ghost predicate Feasible(w: World, a: Action) {
    if ActsOnNode(a.kind) then
      && NodeTouched(a) in w.nodes && (a.kind.PullImage? ==> a.image != "")
      && (a.kind.ApplyPolicy? ==> a.policy.Some?) && (a.kind.PublishZone? ==> a.zone.Some?)
    else if ActsOnVolume(a.kind) then a.volume.Some? && VolumeFeasible(w, a, a.volume.value.name)
    else if a.kind.CreateAllocation? then
      a.target !in w.allocations && a.node in w.nodes && a.resources.cpu >= 1 && a.resources.mem >= 1
    else if a.kind.PublishRoute? then a.target != ""
    else
      && !a.kind.ProbeReadiness? && a.target in w.allocations
      && (a.kind.MountSecret? ==> a.secret.Some? && a.secret.value.name != "" && a.secret.value.version != "")
      && (a.kind.GrantTools? ==> w.allocations[a.target].phase == Created)
  }

  ghost predicate VolumeFeasible(w: World, a: Action, name: Id) {
    if a.kind.CreateVolume? then name != "" && a.node in w.nodes
    else
      && name in w.volumes
      && var v := w.volumes[name];
         match a.kind
         case AttachVolume => a.target in w.allocations && (v.owner == "" || v.owner == a.target)
         case DetachVolume => v.owner == "" || v.owner == a.target
         case QuiesceVolume => v.owner == "" && a.node in w.nodes
         case TransferVolume => v.handoff.Some? && v.handoff.value.phase == Snapshotted
         case AdoptVolume => v.handoff.Some? && v.handoff.value.phase == Transferred && a.node == v.handoff.value.to
         case DatabaseBackup => a.snapshot != ""
         case VerifyBackup => a.snapshot != "" && a.snapshot in v.snapshots
         case BackupSnapshot => a.snapshot != "" && a.snapshot in v.snapshots
         case RestoreSnapshot => a.snapshot != "" && a.snapshot in v.snapshots
         case _ => true
  }

  lemma ValidIsFeasible(goal: Goal, w: World, a: Action, now: Time)
    requires GoalValid(goal) && Validate(goal, w, a, now)
    ensures Feasible(w, a)
  {
    if a.kind.PullImage? { assert Pinned(a.image); }
  }

  // ---- One action, by what it acts on ----

  /** The executed step went through and still agrees with the simulated one. */
  ghost predicate StepAgrees(w: World, sim: World, a: Action, at: Time) {
    Perform(w, a, at).Ok? && Simulate(sim, a).Ok? && Agree(Perform(w, a, at).value, Simulate(sim, a).value)
  }

  lemma Concludes(w: World, sim: World, a: Action, at: Time, e: Evidence, mid: World)
    requires Execute(w, a) == Ok(e) && Project(w, Stamp(e, at)).Ok? && SameElsewhere(Project(w, Stamp(e, at)).value, mid)
    requires Simulate(sim, a).Ok? && Agree(mid, Simulate(sim, a).value)
    ensures StepAgrees(w, sim, a, at)
  {
  }

  /** The evidence an action on a known allocation is reported by. */
  predicate Mirrors(a: Action, f: AllocationFact) {
    match a.kind
    case MountSecret =>
      a.secret.Some? && a.secret.value.name != "" && a.secret.value.version != "" &&
      f == SecretMounted(a.secret.value.name, a.secret.value.version)
    case AttachNetwork => f.NetworkAttached? && f.address != ""
    case StartAllocation => f == AllocationRunning
    case StopAllocation => f == AllocationStopped
    case GrantTools => f == ToolsGranted(|a.tools|)
    case DrainAllocation => f == AllocationDrained
    case _ => false
  }

  predicate OnAllocation(kind: ActionKind) {
    kind.MountSecret? || kind.AttachNetwork? || kind.StartAllocation? || kind.StopAllocation? ||
    kind.GrantTools? || kind.DrainAllocation?
  }

  lemma ExecuteMirrors(w: World, a: Action)
    requires a.target in w.allocations && OnAllocation(a.kind)
    requires a.kind.MountSecret? ==> a.secret.Some? && a.secret.value.name != "" && a.secret.value.version != ""
    ensures var r := Execute(w, a);
            r.Ok? && r.value.target == a.target && r.value.fact.OfAllocation? && Mirrors(a, r.value.fact.a)
  {
  }

  lemma MirroredStepAgrees(x: Allocation, y: Allocation, a: Action, e: Evidence, f: AllocationFact)
    requires SameAllocation(x, y) && Mirrors(a, f) && (a.kind.GrantTools? ==> y.phase == Created)
    ensures AllocationStep(x, e, f).Ok? && SimulateAllocation(y, a).Ok?
    ensures SameAllocation(AllocationStep(x, e, f).value, SimulateAllocation(y, a).value)
  {
    match a.kind
    case MountSecret =>
    case AttachNetwork =>
    case StartAllocation =>
    case StopAllocation =>
    case GrantTools =>
    case DrainAllocation =>
  }

  lemma MirroredProjection(w: World, e: Evidence, f: AllocationFact, a: Action)
    requires e.fact == OfAllocation(f) && e.target in w.allocations && Mirrors(a, f)
    requires AllocationStep(w.allocations[e.target], e, f).Ok?
    ensures Project(w, e).Ok?
    ensures SameElsewhere(Project(w, e).value,
              w.(allocations := w.allocations[e.target := AllocationStep(w.allocations[e.target], e, f).value]))
  {
  }

  /** Equal on everything agreement looks at. */
  ghost predicate SameElsewhere(x: World, y: World) {
    && x.nodes == y.nodes && x.allocations == y.allocations && x.volumes == y.volumes && x.routes == y.routes
    && x.queues == y.queues && x.approvals == y.approvals && x.knownGood == y.knownGood && x.backoff == y.backoff
  }

  lemma SimulatedOn(sim: World, a: Action)
    requires OnAllocation(a.kind) && a.target in sim.allocations && SimulateAllocation(sim.allocations[a.target], a).Ok?
    ensures Simulate(sim, a).Ok?
    ensures Simulate(sim, a).value ==
            sim.(allocations := sim.allocations[a.target := SimulateAllocation(sim.allocations[a.target], a).value])
  {
  }

  lemma AllocationReplaced(w: World, w': World, sim: World, sim': World, id: Id, x: Allocation, y: Allocation)
    requires Agree(w, sim) && SameAllocation(x, y)
    requires SameElsewhere(w', w.(allocations := w.allocations[id := x]))
    requires sim' == sim.(allocations := sim.allocations[id := y])
    ensures Agree(w', sim')
  {
  }

  lemma OnAllocationAgrees(w: World, sim: World, a: Action, at: Time)
    requires Agree(w, sim) && OnAllocation(a.kind) && a.target in sim.allocations
    requires a.kind.MountSecret? ==> a.secret.Some? && a.secret.value.name != "" && a.secret.value.version != ""
    requires a.kind.GrantTools? ==> sim.allocations[a.target].phase == Created
    ensures StepAgrees(w, sim, a, at)
  {
    ExecuteMirrors(w, a);
    var id, e := a.target, Stamp(Execute(w, a).value, at);
    MirroredStepAgrees(w.allocations[id], sim.allocations[id], a, e, e.fact.a);
    MirroredProjection(w, e, e.fact.a, a);
    SimulatedOn(sim, a);
    AllocationReplaced(w, Project(w, e).value, sim, Simulate(sim, a).value, id,
      AllocationStep(w.allocations[id], e, e.fact.a).value, SimulateAllocation(sim.allocations[id], a).value);
  }

  // ---- Nodes ----

  predicate NodeMirrors(a: Action, e: Evidence) {
    e.fact.OfNode? &&
    match a.kind
    case PullImage => a.image != "" && e.fact.n == ImagePresent(a.node, a.image)
    case CordonNode => e.target == a.target && e.fact.n == NodeCordoned(a.reason)
    case UncordonNode => e.target == a.target && e.fact.n == NodeUncordoned
    case ApplyPolicy => e.target == a.node && e.fact.n.PolicyApplied?
    case PublishZone => e.target == a.node && e.fact.n.ZonePublished?
    case CollectImages => e.target == a.node && e.fact.n == ImagesCollected([])
    case _ => false
  }

  lemma ExecuteMirrorsNode(w: World, a: Action)
    requires ActsOnNode(a.kind) && NodeTouched(a) in w.nodes && NodeTouched(a) != ""
    requires a.kind.PullImage? ==> a.image != ""
    requires (a.kind.ApplyPolicy? ==> a.policy.Some?) && (a.kind.PublishZone? ==> a.zone.Some?)
    ensures Execute(w, a).Ok? && NodeMirrors(a, Execute(w, a).value)
  {
  }

  lemma NodeStepAgrees(x: Node, y: Node, a: Action, e: Evidence)
    requires SameNode(x, y) && NodeMirrors(a, e)
    ensures NodeStep(x, e, e.fact.n).Ok? && NodeOf(e.target, e.fact.n) == NodeTouched(a)
    ensures SameNode(NodeStep(x, e, e.fact.n).value, SimulateNode(y, a))
  {
    if a.kind.CollectImages? { assert x.images - Members([]) == x.images; }
  }

  lemma NodeProjection(w: World, e: Evidence, n: Id)
    requires e.fact.OfNode? && n == NodeOf(e.target, e.fact.n) && n in w.nodes && NodeStep(w.nodes[n], e, e.fact.n).Ok?
    ensures Project(w, e).Ok?
    ensures SameElsewhere(Project(w, e).value, w.(nodes := w.nodes[n := NodeStep(w.nodes[n], e, e.fact.n).value]))
  {
  }

  lemma SimulatedNode(sim: World, a: Action)
    requires ActsOnNode(a.kind) && NodeTouched(a) in sim.nodes
    ensures Simulate(sim, a).Ok?
    ensures var n := NodeTouched(a);
            SameElsewhere(Simulate(sim, a).value, sim.(nodes := sim.nodes[n := SimulateNode(sim.nodes[n], a)]))
  {
    assert Simulate(sim, a) == SimulateOnNode(sim, a);
    assert sim.nodes[NodeTouched(a) := sim.nodes[NodeTouched(a)]] == sim.nodes;
  }

  lemma NodeReplaced(w: World, w': World, sim: World, sim': World, n: Id, x: Node, y: Node)
    requires Agree(w, sim) && SameNode(x, y)
    requires SameElsewhere(w', w.(nodes := w.nodes[n := x])) && SameElsewhere(sim', sim.(nodes := sim.nodes[n := y]))
    ensures Agree(w', sim')
  {
  }

  lemma OnNodeAgrees(w: World, sim: World, a: Action, at: Time)
    requires Agree(w, sim) && ActsOnNode(a.kind) && Feasible(sim, a) && NodeTouched(a) != ""
    ensures StepAgrees(w, sim, a, at)
  {
    ExecuteMirrorsNode(w, a);
    var n, e := NodeTouched(a), Stamp(Execute(w, a).value, at);
    NodeStepAgrees(w.nodes[n], sim.nodes[n], a, e);
    NodeProjection(w, e, n);
    SimulatedNode(sim, a);
    NodeReplaced(w, Project(w, e).value, sim, Simulate(sim, a).value, n,
                 NodeStep(w.nodes[n], e, e.fact.n).value, SimulateNode(sim.nodes[n], a));
  }

  // ---- Creating and deleting allocations, publishing routes ----

  lemma CreatedProjection(w: World, e: Evidence, a: Action)
    requires e.fact == OfAllocation(AllocationCreated(a.node, a.workload, a.image, a.replica, a.resources, a.budget))
    requires e.target == a.target != "" && a.target !in w.allocations && a.node in w.nodes && w.nodes[a.node].id == a.node
    requires a.resources.cpu >= 1 && a.resources.mem >= 1
    ensures Project(w, e).Ok? && SimulateCreate(w, a).Ok?
    ensures SameElsewhere(Project(w, e).value, SimulateCreate(w, a).value)
  {
  }

  lemma SimulatedCreatesAgree(w: World, sim: World, a: Action)
    requires Agree(w, sim) && a.node in w.nodes
    ensures SimulateCreate(w, a).Ok? && SimulateCreate(sim, a).Ok?
    ensures Agree(SimulateCreate(w, a).value, SimulateCreate(sim, a).value)
  {
    assert SameNode(w.nodes[a.node], sim.nodes[a.node]);
  }

  lemma CreateAgrees(w: World, sim: World, a: Action, at: Time)
    requires Agree(w, sim) && a.kind.CreateAllocation? && a.target != "" && a.target !in sim.allocations
    requires a.node in w.nodes && w.nodes[a.node].id == a.node && a.resources.cpu >= 1 && a.resources.mem >= 1
    ensures StepAgrees(w, sim, a, at)
  {
    ExecuteCreate(w, a);
    var e := Execute(w, a).value;
    CreatedProjection(w, Stamp(e, at), a);
    SimulatedCreatesAgree(w, sim, a);
    Concludes(w, sim, a, at, e, SimulateCreate(w, a).value);
  }

  lemma ExecuteCreate(w: World, a: Action)
    requires a.kind.CreateAllocation? && a.node in w.nodes
    ensures Execute(w, a) == Ok(Evidence(a.target, 0, 0,
              OfAllocation(AllocationCreated(a.node, a.workload, a.image, a.replica, a.resources, a.budget))))
    ensures Simulate(w, a) == SimulateCreate(w, a)
  {
  }

  lemma DeletedProjection(w: World, e: Evidence)
    requires e.fact == OfAllocation(AllocationDeleted)
    ensures Project(w, e).Ok? && SameElsewhere(Project(w, e).value, ProjectDeleted(w, e))
  {
  }

  lemma PutNode(x: map<Id, Node>, y: map<Id, Node>, n: Id, p: Node, q: Node)
    requires SameNodes(x, y) && SameNode(p, q)
    ensures SameNodes(x[n := p], y[n := q])
  {
  }

  lemma ReleasedAgree(p: Node, q: Node, r: Resources, b: Budget)
    requires SameNode(p, q)
    ensures SameNode(Released(p, r), ReleasedWithBudget(q, r, b))
  {
  }

  lemma ReleasedNodesAgree(m: map<Id, Node>, k: map<Id, Node>, x: Allocation, y: Allocation)
    requires SameNodes(m, k) && SameAllocation(x, y)
    ensures SameNodes(WithoutPlaced(m, x), WithoutReserved(k, y))
  {
    if x.node in m {
      ReleasedAgree(m[x.node], k[x.node], x.resources, y.budget);
      PutNode(m, k, x.node, Released(m[x.node], x.resources), ReleasedWithBudget(k[x.node], x.resources, y.budget));
    }
  }

  lemma DeletionsAgree(w: World, sim: World, e: Evidence, a: Action)
    requires Agree(w, sim) && a.target == e.target && a.target in sim.allocations
    ensures SimulateDelete(sim, a).Ok? && Agree(ProjectDeleted(w, e), SimulateDelete(sim, a).value)
  {
    ReleasedNodesAgree(w.nodes, sim.nodes, w.allocations[a.target], sim.allocations[a.target]);
    assert SameAllocations(w.allocations - {a.target}, sim.allocations - {a.target});
  }

  lemma ExecuteDelete(w: World, a: Action)
    requires a.kind.DeleteAllocation? && a.target in w.allocations
    ensures Execute(w, a) == Ok(Evidence(a.target, 0, 0, OfAllocation(AllocationDeleted)))
  {
  }

  lemma SimulatedDelete(sim: World, a: Action)
    requires a.kind.DeleteAllocation?
    ensures Simulate(sim, a) == SimulateDelete(sim, a)
  {
  }

  lemma DeleteAgrees(w: World, sim: World, a: Action, at: Time)
    requires Agree(w, sim) && a.kind.DeleteAllocation? && a.target in sim.allocations
    ensures StepAgrees(w, sim, a, at)
  {
    ExecuteDelete(w, a);
    var e := Execute(w, a).value;
    DeletedProjection(w, Stamp(e, at));
    DeletionsAgree(w, sim, Stamp(e, at), a);
    SimulatedDelete(sim, a);
    Concludes(w, sim, a, at, e, ProjectDeleted(w, Stamp(e, at)));
  }

  function Routed(w: World, a: Action): World {
    w.(routes := w.routes[a.target := Route(a.target, a.workload, a.port, a.exposure)])
  }

  lemma RouteRecorded(w: World, a: Action, e: Evidence)
    requires a.kind.PublishRoute? && a.target != "" && e.target == a.target
    requires e.fact == OfWorld(RouteReachable(a.workload, a.port, a.exposure))
    ensures Project(w, e).Ok? && SameElsewhere(Project(w, e).value, Routed(w, a))
  {
  }

  lemma RoutedAgree(w: World, sim: World, a: Action)
    requires Agree(w, sim)
    ensures Agree(Routed(w, a), Routed(sim, a))
  {
  }

  lemma RouteAgrees(w: World, sim: World, a: Action, at: Time)
    requires Agree(w, sim) && a.kind.PublishRoute? && a.target != ""
    ensures StepAgrees(w, sim, a, at)
  {
    var e := Evidence(a.target, 0, 0, OfWorld(RouteReachable(a.workload, a.port, a.exposure)));
    RouteRecorded(w, a, Stamp(e, at));
    RoutedAgree(w, sim, a);
    assert Simulate(sim, a) == Ok(Routed(sim, a));
    Concludes(w, sim, a, at, e, Routed(w, a));
  }

  // ---- Volumes ----

  /** Acts on one known volume and nothing else. */
  predicate OnVolume(kind: ActionKind) {
    ActsOnVolume(kind) && !kind.CreateVolume? && !kind.AttachVolume? && !kind.DetachVolume? && !kind.SnapshotVolume?
  }

  predicate VolumeMirrors(a: Action, f: VolumeFact, v: Volume) {
    match a.kind
    case QuiesceVolume => f == VolumeQuiesced(a.node)
    case TransferVolume => v.handoff.Some? && f == VolumeTransferred(v.handoff.value.checksum)
    case AdoptVolume => f == VolumeAdopted(a.node)
    case DatabaseBackup => f == DatabaseBackedUp(a.snapshot, "simulated")
    case VerifyBackup => f == BackupVerified(a.snapshot, true)
    case PruneSnapshots => f == SnapshotsPruned(Prunable(v, a.retain))
    case BackupSnapshot => f == VolumeBackedUp(a.snapshot, "simulated", "")
    case RestoreSnapshot => f == VolumeRestored(a.snapshot)
    case _ => false
  }

  lemma ExecuteMirrorsVolume(w: World, a: Action, name: Id)
    requires OnVolume(a.kind) && a.volume.Some? && a.volume.value.name == name && name in w.volumes
    requires VolumeFeasible(w, a, name)
    ensures var r := Execute(w, a);
            r.Ok? && r.value.target == name && r.value.fact.OfVolume? && VolumeMirrors(a, r.value.fact.v, w.volumes[name])
  {
  }

  lemma PrunedStepAgrees(x: Volume, y: Volume, a: Action, e: Evidence, nodes: set<Id>)
    requires SameVolume(x, y) && Indexed(x) && a.kind.PruneSnapshots? && !a.dryRun
    ensures var r := VolumeStep(x, e, SnapshotsPruned(Prunable(x, a.retain)), nodes);
            r.Ok? && SameVolume(r.value, SimulateVolume(y, a))
  {
    PruneEvidenceIsPrune(x, a.retain, e, nodes);
    assert Prunable(x, a.retain) == Prunable(y, a.retain);
  }

  lemma VolumeStepAgrees(w: World, x: Volume, y: Volume, a: Action, e: Evidence, f: VolumeFact, sim: World, name: Id)
    requires SameVolume(x, y) && Indexed(x) && ChecksumKnown(x) && VolumeMirrors(a, f, x) && Faithful(a)
    requires name in sim.volumes && y == sim.volumes[name] && VolumeFeasible(sim, a, name)
    requires sim.nodes.Keys == w.nodes.Keys && "" !in w.nodes
    ensures var r := VolumeStep(x, e, f, w.nodes.Keys); r.Ok? && SameVolume(r.value, SimulateVolume(y, a))
  {
    if a.kind.PruneSnapshots? { PrunedStepAgrees(x, y, a, e, w.nodes.Keys); }
  }

  lemma VolumeProjection(w: World, e: Evidence, f: VolumeFact)
    requires e.fact == OfVolume(f) && e.target in w.volumes && VolumeStep(w.volumes[e.target], e, f, w.nodes.Keys).Ok?
    ensures Project(w, e).Ok?
    ensures SameElsewhere(Project(w, e).value,
              w.(volumes := w.volumes[e.target := VolumeStep(w.volumes[e.target], e, f, w.nodes.Keys).value]))
  {
  }

  lemma SimulatedVolume(sim: World, a: Action, name: Id)
    requires OnVolume(a.kind) && a.volume.Some? && a.volume.value.name == name && name in sim.volumes
    requires VolumeFeasible(sim, a, name)
    ensures Simulate(sim, a) == Ok(sim.(volumes := sim.volumes[name := SimulateVolume(sim.volumes[name], a)]))
  {
  }

  lemma VolumeReplaced(w: World, sim: World, name: Id, x: Volume, y: Volume)
    requires Agree(w, sim) && SameVolume(x, y)
    ensures Agree(w.(volumes := w.volumes[name := x]), sim.(volumes := sim.volumes[name := y]))
  {
  }

  lemma FeasibleInBoth(w: World, sim: World, a: Action, name: Id)
    requires Agree(w, sim) && VolumeFeasible(sim, a, name)
    ensures VolumeFeasible(w, a, name)
  {
    if name in sim.volumes { assert SameVolume(w.volumes[name], sim.volumes[name]); }
  }

  lemma OnVolumeAgrees(w: World, sim: World, a: Action, at: Time, name: Id)
    requires WellFormed(w) && Agree(w, sim) && OnVolume(a.kind) && Faithful(a)
    requires a.volume.Some? && a.volume.value.name == name && VolumeFeasible(sim, a, name)
    ensures StepAgrees(w, sim, a, at)
  {
    FeasibleInBoth(w, sim, a, name);
    ExecuteMirrorsVolume(w, a, name);
    VolumeEvidenceAgrees(w, sim, a, at, Execute(w, a).value, name);
  }

  lemma VolumeEvidenceAgrees(w: World, sim: World, a: Action, at: Time, e: Evidence, name: Id)
    requires Agree(w, sim) && OnVolume(a.kind) && Faithful(a) && "" !in w.nodes
    requires a.volume.Some? && a.volume.value.name == name && name in w.volumes && VolumeFeasible(sim, a, name)
    requires Indexed(w.volumes[name]) && ChecksumKnown(w.volumes[name])
    requires Execute(w, a) == Ok(e) && e.target == name && e.fact.OfVolume? && VolumeMirrors(a, e.fact.v, w.volumes[name])
    ensures StepAgrees(w, sim, a, at)
  {
    var dated, f := Stamp(e, at), e.fact.v;
    VolumeStepAgrees(w, w.volumes[name], sim.volumes[name], a, dated, f, sim, name);
    VolumeProjection(w, dated, f);
    VolumeStepConcludes(w, sim, a, at, e, name, VolumeStep(w.volumes[name], dated, f, w.nodes.Keys).value);
  }

  lemma VolumeStepConcludes(w: World, sim: World, a: Action, at: Time, e: Evidence, name: Id, x: Volume)
    requires Agree(w, sim) && OnVolume(a.kind) && Execute(w, a) == Ok(e) && Project(w, Stamp(e, at)).Ok?
    requires a.volume.Some? && a.volume.value.name == name && name in sim.volumes && VolumeFeasible(sim, a, name)
    requires SameElsewhere(Project(w, Stamp(e, at)).value, w.(volumes := w.volumes[name := x]))
    requires SameVolume(x, SimulateVolume(sim.volumes[name], a))
    ensures StepAgrees(w, sim, a, at)
  {
    SimulatedVolume(sim, a, name);
    VolumeReplaced(w, sim, name, x, SimulateVolume(sim.volumes[name], a));
    Concludes(w, sim, a, at, e, w.(volumes := w.volumes[name := x]));
  }

  // ---- Creating, attaching and detaching volumes ----

  lemma ExecuteCreateVolume(w: World, a: Action, name: Id)
    requires a.kind.CreateVolume? && a.volume.Some? && a.volume.value.name == name && a.node in w.nodes
    ensures Execute(w, a) == Ok(Evidence(name, 0, 0, OfVolume(VolumeCreated(a.node, 0))))
    ensures Simulate(w, a) == Ok(if name in w.volumes then w
                                 else w.(volumes := w.volumes[name := FreshVolume(name, a.node, 0)]))
  {
  }

  lemma CreatedVolumeProjection(w: World, e: Evidence, node: Id)
    requires e.fact == OfVolume(VolumeCreated(node, 0)) && e.target != "" && node in w.nodes
    ensures Project(w, e).Ok?
    ensures SameElsewhere(Project(w, e).value,
              if e.target in w.volumes then w
              else w.(volumes := w.volumes[e.target := FreshVolume(e.target, node, 0)]))
  {
  }

  lemma CreateVolumeAgrees(w: World, sim: World, a: Action, at: Time, name: Id)
    requires Agree(w, sim) && a.kind.CreateVolume? && a.volume.Some? && a.volume.value.name == name != "" && a.node in w.nodes
    ensures StepAgrees(w, sim, a, at)
  {
    ExecuteCreateVolume(w, a, name);
    ExecuteCreateVolume(sim, a, name);
    var e, v := Execute(w, a).value, FreshVolume(name, a.node, 0);
    CreatedVolumeProjection(w, Stamp(e, at), a.node);
    VolumeReplaced(w, sim, name, v, v);
    Concludes(w, sim, a, at, e, if name in w.volumes then w else w.(volumes := w.volumes[name := v]));
  }

  lemma ExecuteAttach(w: World, a: Action, name: Id)
    requires a.kind.AttachVolume? && a.volume.Some? && a.volume.value.name == name && a.target in w.allocations
    ensures Execute(w, a) == Ok(Evidence(name, 0, 0, OfVolume(VolumeAttached(a.target))))
    ensures Simulate(w, a) == SimulateAttach(w, a)
  {
  }

  lemma AttachedProjection(w: World, e: Evidence, a: Action)
    requires e.fact == OfVolume(VolumeAttached(a.target)) && a.volume.Some? && a.volume.value.name == e.target
    requires a.target != "" && a.target in w.allocations && e.target in w.volumes
    requires w.volumes[e.target].owner == "" || w.volumes[e.target].owner == a.target
    ensures Project(w, e).Ok? && SimulateAttach(w, a).Ok?
    ensures SameElsewhere(Project(w, e).value, SimulateAttach(w, a).value)
  {
  }

  lemma PutVolume(x: map<Id, Volume>, y: map<Id, Volume>, name: Id, p: Volume, q: Volume)
    requires SameVolumes(x, y) && SameVolume(p, q)
    ensures SameVolumes(x[name := p], y[name := q])
  {
  }

  lemma PutAllocation(x: map<Id, Allocation>, y: map<Id, Allocation>, id: Id, p: Allocation, q: Allocation)
    requires SameAllocations(x, y) && SameAllocation(p, q)
    ensures SameAllocations(x[id := p], y[id := q])
  {
  }

  lemma SimulatedAttachesAgree(w: World, sim: World, a: Action)
    requires Agree(w, sim) && SimulateAttach(w, a).Ok?
    ensures SimulateAttach(sim, a).Ok? && Agree(SimulateAttach(w, a).value, SimulateAttach(sim, a).value)
  {
    var name, w', sim' := a.volume.value.name, SimulateAttach(w, a).value, SimulateAttach(sim, a).value;
    PutVolume(w.volumes, sim.volumes, name, w'.volumes[name], sim'.volumes[name]);
    PutAllocation(w.allocations, sim.allocations, a.target, w'.allocations[a.target], sim'.allocations[a.target]);
  }

  lemma AttachAgrees(w: World, sim: World, a: Action, at: Time, name: Id)
    requires Agree(w, sim) && a.kind.AttachVolume? && a.volume.Some? && a.volume.value.name == name
    requires VolumeFeasible(w, a, name) && a.target != ""
    ensures StepAgrees(w, sim, a, at)
  {
    ExecuteAttach(w, a, name);
    ExecuteAttach(sim, a, name);
    var e := Execute(w, a).value;
    AttachedProjection(w, Stamp(e, at), a);
    SimulatedAttachesAgree(w, sim, a);
    Concludes(w, sim, a, at, e, SimulateAttach(w, a).value);
  }

  lemma ExecuteDetach(w: World, a: Action, name: Id)
    requires a.kind.DetachVolume? && a.volume.Some? && a.volume.value.name == name
    ensures Execute(w, a) == Ok(Evidence(name, 0, 0, OfVolume(VolumeDetached(a.target))))
    ensures Simulate(w, a) == SimulateDetach(w, a)
  {
  }

  lemma DetachedProjection(w: World, e: Evidence, a: Action)
    requires e.fact == OfVolume(VolumeDetached(a.target)) && a.volume.Some? && a.volume.value.name == e.target
    requires e.target in w.volumes && (w.volumes[e.target].owner == "" || w.volumes[e.target].owner == a.target)
    ensures Project(w, e).Ok? && SimulateDetach(w, a).Ok?
    ensures SameElsewhere(Project(w, e).value, SimulateDetach(w, a).value)
  {
  }

  lemma UnmountedAgree(x: map<Id, Allocation>, y: map<Id, Allocation>, owner: Id, name: Id)
    requires SameAllocations(x, y)
    ensures SameAllocations(Unmounted(x, owner, name), Unmounted(y, owner, name))
  {
    if owner in x {
      assert SameAllocation(x[owner], y[owner]);
      PutAllocation(x, y, owner, x[owner].(volumes := x[owner].volumes - {name}), y[owner].(volumes := y[owner].volumes - {name}));
    }
  }

  lemma SimulatedDetachesAgree(w: World, sim: World, a: Action)
    requires Agree(w, sim) && a.volume.Some? && a.volume.value.name in w.volumes
    ensures SimulateDetach(sim, a).Ok? && Agree(SimulateDetach(w, a).value, SimulateDetach(sim, a).value)
  {
    var name, w', sim' := a.volume.value.name, SimulateDetach(w, a).value, SimulateDetach(sim, a).value;
    PutVolume(w.volumes, sim.volumes, name, w'.volumes[name], sim'.volumes[name]);
    UnmountedAgree(w.allocations, sim.allocations, w.volumes[name].owner, name);
  }

  lemma DetachAgrees(w: World, sim: World, a: Action, at: Time, name: Id)
    requires Agree(w, sim) && a.kind.DetachVolume? && a.volume.Some? && a.volume.value.name == name
    requires VolumeFeasible(w, a, name)
    ensures StepAgrees(w, sim, a, at)
  {
    ExecuteDetach(w, a, name);
    ExecuteDetach(sim, a, name);
    var e := Execute(w, a).value;
    DetachedProjection(w, Stamp(e, at), a);
    SimulatedDetachesAgree(w, sim, a);
    Concludes(w, sim, a, at, e, SimulateDetach(w, a).value);
  }

  // ---- Any action ----

  lemma FeasibleStepAgrees(w: World, sim: World, a: Action, at: Time)
    requires WellFormed(w) && Agree(w, sim) && Feasible(sim, a) && Faithful(a) && Named(a)
    ensures StepAgrees(w, sim, a, at)
  {
    if ActsOnNode(a.kind) {
      OnNodeAgrees(w, sim, a, at);
    } else if ActsOnVolume(a.kind) {
      var name := a.volume.value.name;
      FeasibleInBoth(w, sim, a, name);
      if a.kind.CreateVolume? { CreateVolumeAgrees(w, sim, a, at, name); }
      else if a.kind.AttachVolume? { AttachAgrees(w, sim, a, at, name); }
      else if a.kind.DetachVolume? { DetachAgrees(w, sim, a, at, name); }
      else { OnVolumeAgrees(w, sim, a, at, name); }
    } else if a.kind.CreateAllocation? {
      CreateAgrees(w, sim, a, at);
    } else if a.kind.DeleteAllocation? {
      DeleteAgrees(w, sim, a, at);
    } else if a.kind.PublishRoute? {
      RouteAgrees(w, sim, a, at);
    } else {
      OnAllocationAgrees(w, sim, a, at);
    }
  }

  lemma UnnamedCreateIsRefused(w: World, a: Action, at: Time)
    requires a.kind.CreateAllocation? && a.node in w.nodes && a.target == ""
    ensures Perform(w, a, at) == Err
  {
    ExecuteCreate(w, a);
  }

  lemma UnnamedAttachIsRefused(w: World, a: Action, at: Time)
    requires a.kind.AttachVolume? && a.volume.Some? && a.target == "" && a.target in w.allocations
    ensures Perform(w, a, at) == Err
  {
    ExecuteAttach(w, a, a.volume.value.name);
  }

  /** Without a name, what the kernel accepted is refused when its evidence is projected. */
  lemma UnnamedIsRefused(w: World, sim: World, a: Action, at: Time)
    requires Agree(w, sim) && Feasible(sim, a) && !Named(a)
    ensures Perform(w, a, at) == Err
  {
    if a.kind.CreateAllocation? { UnnamedCreateIsRefused(w, a, at); } else { UnnamedAttachIsRefused(w, a, at); }
  }

  // ---- Well-formedness is kept by every run of evidence ----

  lemma VolumeStepKnowsChecksum(v: Volume, e: Evidence, f: VolumeFact, nodes: set<Id>)
    requires ChecksumKnown(v) && VolumeStep(v, e, f, nodes).Ok?
    ensures ChecksumKnown(VolumeStep(v, e, f, nodes).value)
  {
  }

  lemma ProjectKnowsChecksum(w: World, e: Evidence, f: VolumeFact, v: Id)
    requires ProjectVolume(w, e, f).Ok? && v in ProjectVolume(w, e, f).value.volumes
    requires v in w.volumes ==> ChecksumKnown(w.volumes[v])
    ensures ChecksumKnown(ProjectVolume(w, e, f).value.volumes[v])
  {
    if v == e.target && v in w.volumes && !f.VolumeCreated? && !f.VolumeAttached? && !f.VolumeDetached? {
      VolumeStepKnowsChecksum(w.volumes[v], e, f, w.nodes.Keys);
    }
  }

  lemma AllocationEvidenceKeepsNames(w: World, e: Evidence, f: AllocationFact, n: Id)
    requires ProjectAllocation(w, e, f).Ok? && n in ProjectAllocation(w, e, f).value.nodes
    ensures n in w.nodes && ProjectAllocation(w, e, f).value.nodes[n].id == w.nodes[n].id
  {
  }

  lemma ProjectKeepsNames(w: World, e: Evidence, n: Id)
    requires Project(w, e).Ok? && n in Project(w, e).value.nodes
    ensures n in w.nodes && Project(w, e).value.nodes[n].id == w.nodes[n].id
  {
    match e.fact
    case OfNode(f) =>
    case OfAllocation(f) => AllocationEvidenceKeepsNames(w, e, f, n);
    case _ =>
  }

  lemma ProjectKeepsWellFormed(w: World, e: Evidence)
    requires WellFormed(w) && Project(w, e).Ok?
    ensures WellFormed(Project(w, e).value)
  {
    ProjectKeepsIndex(w, e);
    forall n | n in Project(w, e).value.nodes { ProjectKeepsNames(w, e, n); }
    ProjectKeepsChecksums(w, e);
  }

  lemma ProjectKeepsChecksums(w: World, e: Evidence)
    requires Project(w, e).Ok? && forall v :: v in w.volumes ==> ChecksumKnown(w.volumes[v])
    ensures forall v :: v in Project(w, e).value.volumes ==> ChecksumKnown(Project(w, e).value.volumes[v])
  {
    match e.fact
    case OfVolume(f) => forall v | v in ProjectVolume(w, e, f).value.volumes { ProjectKnowsChecksum(w, e, f, v); }
    case _ => OnlyVolumeEvidenceTouchesVolumes(w, e);
  }

  lemma {:induction false} WellFormedAlongRuns(w: World, run: seq<Evidence>)
    requires WellFormed(w) && Replay(w, run).Ok?
    ensures WellFormed(Replay(w, run).value)
  {
    if run != [] {
      WellFormedAlongRuns(w, run[..|run| - 1]);
      ProjectKeepsWellFormed(Replay(w, run[..|run| - 1]).value, run[|run| - 1]);
    }
  }

  // ---- Whole plans ----

  ghost predicate AllFaithful(plan: seq<Action>) { forall i :: 0 <= i < |plan| ==> Faithful(plan[i]) }
  ghost predicate AllNamed(plan: seq<Action>) { forall i :: 0 <= i < |plan| ==> Named(plan[i]) }

  lemma PerformKeepsWellFormed(w: World, a: Action, at: Time)
    requires WellFormed(w) && Perform(w, a, at).Ok?
    ensures WellFormed(Perform(w, a, at).value)
  {
    ProjectKeepsWellFormed(w, Stamp(Execute(w, a).value, at));
  }

  /** The plan simulated without looking back, and what makes each step of it feasible. */
  ghost function SimulateAll(w: World, plan: seq<Action>): Result<World> {
    if plan == [] then Ok(w)
    else
      var sim :- SimulateAll(w, plan[..|plan| - 1]);
      Simulate(sim, plan[|plan| - 1])
  }

  ghost predicate FeasiblePlan(w: World, plan: seq<Action>) {
    plan != [] ==>
      && FeasiblePlan(w, plan[..|plan| - 1])
      && SimulateAll(w, plan[..|plan| - 1]).Ok?
      && Feasible(SimulateAll(w, plan[..|plan| - 1]).value, plan[|plan| - 1])
  }

  lemma {:induction false} AcceptedIsFeasible(goal: Goal, grants: set<ActionKind>, w: World, plan: seq<Action>, now: Time)
    requires GoalValid(goal) && RunPlan(goal, grants, w, plan, now).Ok?
    ensures SimulateAll(w, plan) == RunPlan(goal, grants, w, plan, now) && FeasiblePlan(w, plan)
    decreases |plan|
  {
    if plan != [] {
      AcceptedIsFeasible(goal, grants, w, plan[..|plan| - 1], now);
      ValidIsFeasible(goal, RunPlan(goal, grants, w, plan[..|plan| - 1], now).value, plan[|plan| - 1], now);
    }
  }

  /** The execution went through exactly when everything was named, and then matches the simulation. */
  ghost predicate Matches(executed: Result<World>, simulated: Result<World>, named: bool) {
    && (executed.Ok? <==> named)
    && (executed.Ok? ==> WellFormed(executed.value) && simulated.Ok? && Agree(executed.value, simulated.value))
  }

  lemma LastStepMatches(before: Result<World>, sim: Result<World>, named: bool, a: Action, at: Time,
                        executed: Result<World>, simulated: Result<World>)
    requires Matches(before, sim, named) && sim.Ok? && Feasible(sim.value, a) && Faithful(a)
    requires executed == if before.Ok? then Perform(before.value, a, at) else Err
    requires simulated == Simulate(sim.value, a)
    ensures Matches(executed, simulated, named && Named(a))
  {
    if before.Ok? {
      if Named(a) {
        FeasibleStepAgrees(before.value, sim.value, a, at);
        PerformKeepsWellFormed(before.value, a, at);
      } else {
        UnnamedIsRefused(before.value, sim.value, a, at);
      }
    }
  }

  lemma NothingPlannedMatches(w: World)
    requires WellFormed(w)
    ensures Matches(Ok(w), Ok(w), true)
  {
  }

  lemma {:induction false} FeasiblePlanExecutes(w: World, plan: seq<Action>, times: seq<Time>)
    requires WellFormed(w) && |times| == |plan| && AllFaithful(plan) && FeasiblePlan(w, plan)
    ensures Matches(PerformAll(w, plan, times), SimulateAll(w, plan), AllNamed(plan))
    decreases |plan|
  {
    if plan == [] {
      NothingPlannedMatches(w);
    } else {
      var k := |plan| - 1;
      FeasiblePlanExecutes(w, plan[..k], times[..k]);
      assert AllNamed(plan) == (AllNamed(plan[..k]) && Named(plan[k]));
      LastStepMatches(PerformAll(w, plan[..k], times[..k]), SimulateAll(w, plan[..k]), AllNamed(plan[..k]), plan[k],
                      times[k], PerformAll(w, plan, times), SimulateAll(w, plan));
    }
  }

  /** A plan the kernel accepts, carried out action by action at any times, is never refused on the way
      and ends in the world the kernel had simulated: if and only if its creations and attachments are
      named. This covers every kind of action but the two that simulation does not mirror. */
  lemma PlanExecutesAsSimulated(
      goal: Goal, grants: set<ActionKind>, w: World, plan: seq<Action>, now: Time, times: seq<Time>)
    requires GoalValid(goal) && WellFormed(w) && |times| == |plan| && AllFaithful(plan)
    requires RunPlan(goal, grants, w, plan, now).Ok?
    ensures PerformAll(w, plan, times).Ok? <==> AllNamed(plan)
    ensures PerformAll(w, plan, times).Ok? ==>
      && WellFormed(PerformAll(w, plan, times).value)
      && Agree(PerformAll(w, plan, times).value, RunPlan(goal, grants, w, plan, now).value)
  {
    AcceptedIsFeasible(goal, grants, w, plan, now);
    FeasiblePlanExecutes(w, plan, times);
  }

  /** The same, from the kernel's verdict on a proposal. */
  lemma AuthorizedPlanIsExact(p: Policy, actor: Id, goal: Goal, w: World, proposal: Proposal, wall: Time,
                              provenance: bool, times: seq<Time>)
    requires GoalValid(goal) && WellFormed(w) && |times| == |proposal.actions| && AllFaithful(proposal.actions)
    requires Authorized(p, actor, goal, w, proposal, wall, provenance)
    ensures PerformAll(w, proposal.actions, times).Ok? <==> AllNamed(proposal.actions)
    ensures AllNamed(proposal.actions) ==>
      Agree(PerformAll(w, proposal.actions, times).value,
            RunPlan(goal, p.grants[proposal.agent], w, proposal.actions, w.Now(wall)).value)
  {
    PlanExecutesAsSimulated(goal, p.grants[proposal.agent], w, proposal.actions, w.Now(wall), times);
  }

  // ---- The two kinds that differ ----

  /** A simulated snapshot never matches the one that is taken. */
  lemma SnapshotDiffers(w: World, sim: World, a: Action, at: Time, name: Id)
    requires a.kind.SnapshotVolume? && a.volume.Some? && a.volume.value.name == name
    requires name in w.volumes && name in sim.volumes && Perform(w, a, at).Ok?
    ensures Simulate(sim, a).Ok? && name in Perform(w, a, at).value.volumes && name in Simulate(sim, a).value.volumes
    ensures Perform(w, a, at).value.volumes[name].last != Simulate(sim, a).value.volumes[name].last
  {
    assert Simulate(sim, a).value.volumes[name].last == "simulated";
    assert Perform(w, a, at).value.volumes[name].last == name + "-simulated";
    assert |name + "-simulated"| > |"simulated"|;
  }

  lemma PerformedPrune(w: World, a: Action, at: Time, name: Id, gone: seq<Id>)
    requires a.kind.PruneSnapshots? && a.volume.Some? && a.volume.value.name == name
    requires name in w.volumes && Indexed(w.volumes[name]) && gone == Prunable(w.volumes[name], a.retain)
    ensures Perform(w, a, at).Ok? && name in Perform(w, a, at).value.volumes
    ensures Perform(w, a, at).value.volumes[name].order == RemoveEach(w.volumes[name].order, gone)
  {
    var e := Evidence(name, 0, 0, OfVolume(SnapshotsPruned(gone)));
    assert Execute(w, a) == Ok(e);
    PruneEvidenceIsPrune(w.volumes[name], a.retain, Stamp(e, at), w.nodes.Keys);
    VolumeProjection(w, Stamp(e, at), SnapshotsPruned(gone));
  }

  lemma SimulatedDryRun(w: World, a: Action, name: Id)
    requires a.kind.PruneSnapshots? && a.dryRun && a.volume.Some? && a.volume.value.name == name && name in w.volumes
    ensures Simulate(w, a).Ok? && name in Simulate(w, a).value.volumes
    ensures Simulate(w, a).value.volumes[name].order == w.volumes[name].order
  {
    assert Simulate(w, a) == SimulateOnVolume(w, a);
  }

  lemma PrunedOrder(v: Volume, retain: int, gone: seq<Id>)
    requires Indexed(v) && gone == Prunable(v, retain)
    ensures RemoveEach(v.order, gone) == v.order <==> gone == []
  {
    RemoveEachIsFilter(v.order, gone);
    PruneRemoves(v, retain);
    WithoutMembers(v.order, Members(gone));
    EmptyMembers(gone);
  }

  /** A dry-run prune matches its simulation exactly when there was nothing to prune. */
  lemma DryRunPruneDiffers(w: World, a: Action, at: Time, name: Id)
    requires a.kind.PruneSnapshots? && a.dryRun && a.volume.Some? && a.volume.value.name == name
    requires name in w.volumes && Indexed(w.volumes[name])
    ensures Perform(w, a, at).Ok? && Simulate(w, a).Ok?
    ensures name in Perform(w, a, at).value.volumes && name in Simulate(w, a).value.volumes
    ensures Perform(w, a, at).value.volumes[name].order == Simulate(w, a).value.volumes[name].order <==>
            Prunable(w.volumes[name], a.retain) == []
  {
    PerformedPrune(w, a, at, name, Prunable(w.volumes[name], a.retain));
    SimulatedDryRun(w, a, name);
    PrunedOrder(w.volumes[name], a.retain, Prunable(w.volumes[name], a.retain));
  }
}
