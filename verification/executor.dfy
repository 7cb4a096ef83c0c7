/** What an action is expected to do, and what it does (control/executor.go).
    `Simulate` advances the kernel's private copy of the world; `Execute` is the deterministic data
    plane, which reports evidence and changes nothing itself. */
module Executor {
  import opened Types
  import opened Projection
  import opened Snapshots

  // ---- Simulation ----

  function SimulateVolume(v: Volume, a: Action): Volume {
    match a.kind
    case SnapshotVolume => v.(snapshots := v.snapshots["simulated" := "simulated"], last := "simulated")
    case QuiesceVolume => v.(handoff := Some(Handoff(v.node, a.node, Quiescent, "", "")))
    case TransferVolume =>
      if v.handoff.None? then v else v.(handoff := Some(v.handoff.value.(phase := Transferred)))
    case AdoptVolume =>
      if v.handoff.None? then v
      else v.(node := v.handoff.value.to, generation := v.generation + 1, handoff := None)
    case DatabaseBackup =>
      v.(order := if a.snapshot in v.snapshots then v.order else v.order + [a.snapshot],
         snapshots := v.snapshots[a.snapshot := "simulated"], last := a.snapshot)
    case PruneSnapshots => if a.dryRun then v else PruneSnapshotIds(v, Prunable(v, a.retain))
    case BackupSnapshot => v.(backups := v.backups[a.snapshot := "simulated"])
    case RestoreSnapshot => v.(restoredFrom := a.snapshot)
    case _ => v
  }

  function SimulateAllocation(x: Allocation, a: Action): Result<Allocation> {
    match a.kind
    case MountSecret =>
      if a.secret.None? then Err else Ok(x.(secrets := x.secrets[a.secret.value.name := a.secret.value.version]))
    case AttachNetwork => Ok(x.(address := "simulated"))
    case StartAllocation => Ok(x.(phase := Running, ready := true))
    case StopAllocation => Ok(x.(phase := Stopped, ready := false))
    case GrantTools => Ok(x.(tools := a.tools))
    case DrainAllocation => Ok(x.(draining := true, task := ""))
    case _ => Err
  }

  predicate NeedsSnapshot(kind: ActionKind) {
    kind.DatabaseBackup? || kind.VerifyBackup? || kind.BackupSnapshot? || kind.RestoreSnapshot?
  }

  function SimulateCreate(w: World, a: Action): (r: Result<World>)
    ensures r.Ok? ==> r.value == w.(nodes := r.value.nodes, allocations := r.value.allocations)
  {
    if a.node !in w.nodes then Err
    else
      var n := w.nodes[a.node];
      Ok(w.(allocations := w.allocations[a.target :=
              Fresh(a.target, a.workload, a.replica, a.node, a.image, a.resources, a.budget)],
            nodes := w.nodes[a.node := n.(used := n.used.Add(a.resources), budgetUsed := n.budgetUsed.Add(a.budget))]))
  }

  function ReleasedWithBudget(n: Node, r: Resources, b: Budget): Node {
    n.(used := n.used.Subtract(r), budgetUsed := n.budgetUsed.Subtract(b))
  }

  function WithoutReserved(nodes: map<Id, Node>, x: Allocation): map<Id, Node> {
    if x.node in nodes then nodes[x.node := ReleasedWithBudget(nodes[x.node], x.resources, x.budget)] else nodes
  }

  function SimulateDelete(w: World, a: Action): (r: Result<World>)
    ensures r.Ok? ==> r.value == w.(nodes := r.value.nodes, allocations := r.value.allocations)
  {
    if a.target !in w.allocations then Err
    else
      Ok(w.(nodes := WithoutReserved(w.nodes, w.allocations[a.target]), allocations := w.allocations - {a.target}))
  }

  function SimulateAttach(w: World, a: Action): (r: Result<World>)
    ensures r.Ok? ==> r.value == w.(volumes := r.value.volumes, allocations := r.value.allocations)
  {
    if a.volume.None? || a.volume.value.name !in w.volumes || a.target !in w.allocations then Err
    else
      var name := a.volume.value.name;
      var v, x := w.volumes[name], w.allocations[a.target];
      var v' := if v.owner != a.target then v.(owner := a.target, generation := v.generation + 1) else v;
      Ok(w.(volumes := w.volumes[name := v'],
            allocations := w.allocations[a.target := x.(volumes := x.volumes[name := v'.generation])]))
  }

  function SimulateDetach(w: World, a: Action): (r: Result<World>)
    ensures r.Ok? ==> r.value == w.(volumes := r.value.volumes, allocations := r.value.allocations)
  {
    if a.volume.None? then Err
    else if a.volume.value.name !in w.volumes then Ok(w)
    else
      var name := a.volume.value.name;
      var v := w.volumes[name];
      Ok(w.(volumes := w.volumes[name := v.(owner := "", generation := v.generation + 1)],
            allocations := Unmounted(w.allocations, v.owner, name)))
  }

  predicate ActsOnVolume(kind: ActionKind) {
    kind.CreateVolume? || kind.AttachVolume? || kind.DetachVolume? || kind.SnapshotVolume? || kind.RestoreSnapshot? ||
    kind.BackupSnapshot? || kind.QuiesceVolume? || kind.TransferVolume? || kind.AdoptVolume? || kind.PruneSnapshots? ||
    kind.VerifyBackup? || kind.DatabaseBackup?
  }

  predicate ActsOnNode(kind: ActionKind) {
    kind.PullImage? || kind.CordonNode? || kind.UncordonNode? || kind.ApplyPolicy? || kind.PublishZone? || kind.CollectImages?
  }

  function NodeTouched(a: Action): Id { if a.kind.CordonNode? || a.kind.UncordonNode? then a.target else a.node }

  function SimulateNode(n: Node, a: Action): Node {
    match a.kind
    case PullImage => n.(images := n.images + {a.image})
    case CordonNode => n.(cordoned := true, cordonReason := a.reason)
    case UncordonNode => n.(cordoned := false, cordonReason := "")
    case _ => n
  }

  function SimulateOnNode(w: World, a: Action): (r: Result<World>)
    ensures r.Ok? ==> r.value == w.(nodes := r.value.nodes)
  {
    if a.kind.ApplyPolicy? || a.kind.PublishZone? || a.kind.CollectImages? then Ok(w)
    else if NodeTouched(a) !in w.nodes then Err
    else Ok(w.(nodes := w.nodes[NodeTouched(a) := SimulateNode(w.nodes[NodeTouched(a)], a)]))
  }

  function SimulateOnVolume(w: World, a: Action): (r: Result<World>)
    ensures r.Ok? ==> r.value == w.(volumes := r.value.volumes)
  {
    if a.volume.None? || (NeedsSnapshot(a.kind) && a.snapshot == "") then Err
    else if a.kind.CreateVolume? then
      if a.volume.value.name in w.volumes then Ok(w)
      else Ok(w.(volumes := w.volumes[a.volume.value.name := FreshVolume(a.volume.value.name, a.node, 0)]))
    else if a.volume.value.name !in w.volumes then Ok(w)
    else Ok(w.(volumes := w.volumes[a.volume.value.name := SimulateVolume(w.volumes[a.volume.value.name], a)]))
  }

  function SimulateOn(w: World, a: Action): (r: Result<World>)
    ensures r.Ok? ==> r.value == w.(allocations := r.value.allocations)
  {
    if a.target !in w.allocations then Err
    else
      var x :- SimulateAllocation(w.allocations[a.target], a);
      Ok(w.(allocations := w.allocations[a.target := x]))
  }

  function Simulate(w: World, a: Action): Result<World> {
    if a.kind.AttachVolume? then SimulateAttach(w, a)
    else if a.kind.DetachVolume? then SimulateDetach(w, a)
    else if ActsOnVolume(a.kind) then SimulateOnVolume(w, a)
    else if ActsOnNode(a.kind) then SimulateOnNode(w, a)
    else if a.kind.CreateAllocation? then SimulateCreate(w, a)
    else if a.kind.DeleteAllocation? then SimulateDelete(w, a)
    else if a.kind.PublishRoute? then
      Ok(w.(routes := w.routes[a.target := Route(a.target, a.workload, a.port, a.exposure)]))
    else SimulateOn(w, a)
  }

  // ---- Execution ----

  function Report(target: Id, fact: Fact): Result<Evidence> { Ok(Evidence(target, 0, 0, fact)) }

  function ExecuteVolume(w: World, a: Action): Result<Evidence> {
    if a.volume.None? then Err
    else
      var name := a.volume.value.name;
      match a.kind
      case CreateVolume => if a.node !in w.nodes then Err else Report(name, OfVolume(VolumeCreated(a.node, 0)))
      case AttachVolume =>
        if a.target !in w.allocations then Err else Report(name, OfVolume(VolumeAttached(a.target)))
      case DetachVolume => Report(name, OfVolume(VolumeDetached(a.target)))
      case SnapshotVolume => Report(name, OfVolume(VolumeSnapshotted(name + "-simulated", "simulated")))
      case QuiesceVolume => Report(name, OfVolume(VolumeQuiesced(a.node)))
      case TransferVolume =>
        if name !in w.volumes || w.volumes[name].handoff.None? then Err
        else Report(name, OfVolume(VolumeTransferred(w.volumes[name].handoff.value.checksum)))
      case AdoptVolume => Report(name, OfVolume(VolumeAdopted(a.node)))
      case DatabaseBackup =>
        if a.snapshot == "" then Err else Report(name, OfVolume(DatabaseBackedUp(a.snapshot, "simulated")))
      case VerifyBackup =>
        if a.snapshot == "" || name !in w.volumes then Err else Report(name, OfVolume(BackupVerified(a.snapshot, true)))
      case PruneSnapshots =>
        if name !in w.volumes then Err
        else Report(name, OfVolume(SnapshotsPruned(Prunable(w.volumes[name], a.retain))))
      case BackupSnapshot =>
        if a.snapshot == "" then Err else Report(name, OfVolume(VolumeBackedUp(a.snapshot, "simulated", "")))
      case RestoreSnapshot => if a.snapshot == "" then Err else Report(name, OfVolume(VolumeRestored(a.snapshot)))
      case _ => Err
  }

  function ExecuteAllocation(w: World, a: Action): Result<Evidence> {
    if a.target !in w.allocations then Err
    else
      match a.kind
      case MountSecret =>
        if a.secret.None? then Err
        else Report(a.target, OfAllocation(SecretMounted(a.secret.value.name, a.secret.value.version)))
      case AttachNetwork =>
        var replica := w.allocations[a.target].replica;
        Report(a.target, OfAllocation(NetworkAttached(
          "10.42." + DecimalInt(replica / 256 + 1) + "." + DecimalInt(replica % 256 + 2))))
      case StartAllocation => Report(a.target, OfAllocation(AllocationRunning))
      case StopAllocation => Report(a.target, OfAllocation(AllocationStopped))
      case DeleteAllocation => Report(a.target, OfAllocation(AllocationDeleted))
      case GrantTools => Report(a.target, OfAllocation(ToolsGranted(|a.tools|)))
      case DrainAllocation => Report(a.target, OfAllocation(AllocationDrained))
      case _ => Err
  }

  function ExecuteOnNode(w: World, a: Action): Result<Evidence> {
    match a.kind
    case PullImage =>
      if a.node !in w.nodes then Err else Report(a.image, OfNode(ImagePresent(a.node, a.image)))
    case CordonNode =>
      if a.target !in w.nodes || a.target == "" then Err else Report(a.target, OfNode(NodeCordoned(a.reason)))
    case UncordonNode =>
      if a.target !in w.nodes || a.target == "" then Err else Report(a.target, OfNode(NodeUncordoned))
    case ApplyPolicy =>
      if a.policy.None? then Err else Report(a.node, OfNode(PolicyApplied(a.policy.value.fingerprint)))
    case PublishZone =>
      if a.zone.None? then Err else Report(a.node, OfNode(ZonePublished(a.zone.value.fingerprint)))
    case CollectImages => Report(a.node, OfNode(ImagesCollected([])))
    case _ => Err
  }

  function Execute(w: World, a: Action): Result<Evidence> {
    if ActsOnVolume(a.kind) then ExecuteVolume(w, a)
    else if ActsOnNode(a.kind) then ExecuteOnNode(w, a)
    else if a.kind.CreateAllocation? then
      if a.node !in w.nodes then Err
      else Report(a.target, OfAllocation(
             AllocationCreated(a.node, a.workload, a.image, a.replica, a.resources, a.budget)))
    else if a.kind.PublishRoute? then Report(a.target, OfWorld(RouteReachable(a.workload, a.port, a.exposure)))
    else ExecuteAllocation(w, a)
  }

  /** The engine dates evidence that carries no time of its own. */
  function Stamp(e: Evidence, now: Time): Evidence {
    if e.observedAt == 0 then e.(observedAt := now) else e
  }

  /** One action carried out: executed, dated and projected. */
  function Perform(w: World, a: Action, now: Time): Result<World> {
    var e :- Execute(w, a);
    Project(w, Stamp(e, now))
  }

  /** A whole plan carried out, each action at its own time. */
  function PerformAll(w: World, plan: seq<Action>, times: seq<Time>): Result<World>
    requires |times| == |plan|
  {
    if plan == [] then Ok(w)
    else
      var before :- PerformAll(w, plan[..|plan| - 1], times[..|plan| - 1]);
      Perform(before, plan[|plan| - 1], times[|plan| - 1])
  }
}
