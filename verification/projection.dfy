/** The projection: the only path from evidence to the world (control/projection.go).
    The source applies evidence in place to a deep clone; here the clone is a value. */
module Projection {
  import opened Types
  import opened Ledger

  const APPROVAL_SCOPES: set<string> :=
    { "public-route", "destroy-stateful", "restore-volume", "move-volume", "agent-mutating-tools", "rollback" }

  /** Removes the first occurrence. */
  function RemoveFirst(values: seq<Id>, target: Id): seq<Id> {
    if values == [] then []
    else if values[0] == target then values[1..]
    else [values[0]] + RemoveFirst(values[1..], target)
  }

  function RemoveEach(values: seq<Id>, targets: seq<Id>): seq<Id> {
    if targets == [] then values
    else RemoveFirst(RemoveEach(values, targets[..|targets| - 1]), targets[|targets| - 1])
  }

  function Members(ids: seq<Id>): set<Id> { set id | id in ids }

  // ---- Evidence about a node ----

  function NodeOf(target: Id, f: NodeFact): Id {
    match f
    case ImagePresent(node, _) => node
    case ProviderReachable(node, _, _) => node
    case _ => target
  }

  function NodeStep(n: Node, e: Evidence, f: NodeFact): Result<Node> {
    match f
    case ImagePresent(_, image) => if image == "" then Err else Ok(n.(images := n.images + {image}))
    case PolicyApplied(fp) => Ok(n.(policy := fp))
    case ZonePublished(fp) => Ok(n.(zone := fp))
    case ImagesCollected(reclaimed) => Ok(n.(images := n.images - Members(reclaimed)))
    case NodeCordoned(reason) => Ok(n.(cordoned := true, cordonReason := reason))
    case NodeUncordoned => Ok(n.(cordoned := false, cordonReason := ""))
    case NodeReachable => Ok(n.(healthy := true))
    case NodeUnreachable => Ok(n.(healthy := false))
    case ProviderReachable(_, reachable, detail) =>
      if e.target == "" then Err
      else if e.target in n.providers && n.providers[e.target].observedAt != 0 &&
              e.observedAt < n.providers[e.target].observedAt then Ok(n)
      else Ok(n.(providers := n.providers[e.target := ProviderReach(reachable, e.observedAt, e.expiresAt, detail)]))
  }

  function ProjectNode(w: World, e: Evidence, f: NodeFact): (r: Result<World>)
    ensures r.Ok? ==> r.value == w.(nodes := r.value.nodes)
  {
    var id := NodeOf(e.target, f);
    if id !in w.nodes then Err
    else
      var n :- NodeStep(w.nodes[id], e, f);
      Ok(w.(nodes := w.nodes[id := n]))
  }

  // ---- Evidence about a volume ----

  function PruneSnapshotIds(v: Volume, removed: seq<Id>): Volume {
    v.(snapshots := v.snapshots - Members(removed), backups := v.backups - Members(removed),
       order := RemoveEach(v.order, removed))
  }

  /** What evidence does to a volume that is already known. */
  function VolumeStep(v: Volume, e: Evidence, f: VolumeFact, nodes: set<Id>): Result<Volume> {
    match f
    case VolumeSnapshotted(snapshot, checksum) =>
      if snapshot == "" || checksum == "" then Err
      else if snapshot in v.snapshots && v.snapshots[snapshot] != checksum then Err
      else
        var order := if snapshot in v.snapshots then v.order else v.order + [snapshot];
        var handoff :=
          if v.handoff.Some? && v.handoff.value.phase == Quiescent
          then Some(v.handoff.value.(phase := Snapshotted, snapshot := snapshot, checksum := checksum))
          else v.handoff;
        Ok(v.(snapshots := v.snapshots[snapshot := checksum], order := order, last := snapshot, handoff := handoff))
    case VolumeBackedUp(snapshot, location, checksum) =>
      if snapshot == "" || location == "" || snapshot !in v.snapshots then Err
      else if checksum != "" && checksum != v.snapshots[snapshot] then Err
      else Ok(v.(backups := v.backups[snapshot := location]))
    case VolumeQuiesced(to) =>
      if to == "" || to !in nodes || v.owner != "" then Err
      else Ok(v.(handoff := Some(Handoff(v.node, to, Quiescent, "", ""))))
    case VolumeTransferred(checksum) =>
      if v.handoff.None? || v.handoff.value.phase != Snapshotted then Err
      else if checksum == "" || checksum != v.handoff.value.checksum then Err
      else Ok(v.(handoff := Some(v.handoff.value.(phase := Transferred))))
    case VolumeAdopted(node) =>
      if v.handoff.None? || v.handoff.value.phase != Transferred || node != v.handoff.value.to then Err
      else Ok(v.(node := v.handoff.value.to, generation := v.generation + 1, handoff := None))
    case SnapshotsPruned(removed) =>
      var p := PruneSnapshotIds(v, removed);
      if p.last in p.snapshots then Ok(p)
      else Ok(p.(last := if p.order == [] then "" else p.order[|p.order| - 1]))
    case DatabaseBackedUp(lbl, checksum) =>
      if lbl == "" || checksum == "" then Err
      else
        var order := if lbl in v.snapshots then v.order else v.order + [lbl];
        Ok(v.(snapshots := v.snapshots[lbl := checksum], order := order, last := lbl))
    case BackupVerified(snapshot, verified) =>
      if snapshot == "" then Err
      else if !verified then Ok(v)
      else if snapshot !in v.snapshots then Err
      else Ok(v.(verifiedSnapshot := snapshot,
                 verifiedAt := if e.observedAt == 0 then v.verifiedAt else e.observedAt))
    case VolumeRestored(snapshot) =>
      if snapshot == "" || snapshot !in v.snapshots then Err else Ok(v.(restoredFrom := snapshot))
    case _ => Err
  }

  /** The allocations once `owner`, if there is one, has let go of a volume. */
  function Unmounted(allocations: map<Id, Allocation>, owner: Id, volume: Id): map<Id, Allocation> {
    if owner in allocations
    then allocations[owner := allocations[owner].(volumes := allocations[owner].volumes - {volume})]
    else allocations
  }

  function ProjectVolume(w: World, e: Evidence, f: VolumeFact): (r: Result<World>)
    ensures r.Ok? ==> r.value == w.(volumes := r.value.volumes, allocations := r.value.allocations)
  {
    match f
    case VolumeCreated(node, sizeMB) =>
      if e.target == "" || node !in w.nodes then Err
      else if e.target in w.volumes then Ok(w)
      else Ok(w.(volumes := w.volumes[e.target := FreshVolume(e.target, node, sizeMB)]))
    case VolumeAttached(owner) =>
      if e.target !in w.volumes || owner == "" || owner !in w.allocations then Err
      else
        var v, a := w.volumes[e.target], w.allocations[owner];
        if v.owner != "" && v.owner != owner then Err
        else
          var v' := if v.owner != owner then v.(owner := owner, generation := v.generation + 1) else v;
          Ok(w.(volumes := w.volumes[e.target := v'],
                allocations := w.allocations[owner := a.(volumes := a.volumes[e.target := v'.generation])]))
    case VolumeDetached(owner) =>
      if e.target !in w.volumes then Ok(w)
      else
        var v := w.volumes[e.target];
        if v.owner != "" && owner != "" && v.owner != owner then Ok(w)
        else Ok(w.(volumes := w.volumes[e.target := v.(owner := "", generation := v.generation + 1)],
                   allocations := Unmounted(w.allocations, v.owner, e.target)))
    case _ =>
      if e.target !in w.volumes then Err
      else
        var v :- VolumeStep(w.volumes[e.target], e, f, w.nodes.Keys);
        Ok(w.(volumes := w.volumes[e.target := v]))
  }

  // ---- Evidence about an allocation ----

  /** Records one readiness measurement. A run of readiness restarts when it lapsed. */
  function Measured(a: Allocation, e: Evidence, ready: bool): Allocation {
    var lapsed := !a.ready || (a.readyExpiresAt != 0 && a.readyExpiresAt <= e.observedAt);
    var since := if !ready then 0 else if lapsed || a.readySince == 0 then e.observedAt else a.readySince;
    a.(ready := ready, readySince := since, readyExpiresAt := e.expiresAt)
  }

  /** What evidence does to a known allocation, apart from its effect on the rest of the world. */
  function AllocationStep(a: Allocation, e: Evidence, f: AllocationFact): Result<Allocation> {
    match f
    case SecretMounted(secret, version) =>
      if secret == "" || version == "" then Err else Ok(a.(secrets := a.secrets[secret := version]))
    case NetworkAttached(address) => if address == "" then Err else Ok(a.(address := address))
    case NetworkDetached => Ok(a.(address := ""))
    case AllocationRunning => Ok(a.(phase := Running))
    case AllocationReady(ready) => if a.phase != Running then Err else Ok(Measured(a, e, ready))
    case AgentReady(ready) => if a.phase != Running then Err else Ok(Measured(a, e, ready))
    case AllocationStopped => Ok(a.(phase := Stopped, ready := false, readySince := 0))
    case AllocationFailed(exitCode, restarts) =>
      Ok(a.(phase := Stopped, ready := false, readySince := 0, exitCode := exitCode, restarts := restarts))
    case ToolsGranted(count) =>
      if a.phase != Created then Err
      else Ok(a.(tools := seq(count, i => ToolGrant("", "", false))))
    case AgentSpent(spent) =>
      if spent.tokens < a.spent.tokens || spent.cost < a.spent.cost then Ok(a)
      else
        var s := a.(spent := spent);
        Ok(if s.Exhausted() then s.(ready := false) else s)
    case AgentDraining(task) =>
      Ok(a.(draining := true, task := if task.Some? then task.value else a.task))
    case AllocationDrained => Ok(a.(draining := true, task := "", ready := false, readySince := 0))
    case _ => Err
  }

  /** The effect on the ledger, the backoff table and the known-good images. */
  function LedgerAfter(w: World, a: Allocation, e: Evidence, f: AllocationFact): seq<Disruption> {
    match f
    case AllocationStopped => Charged(w, a, ByStop, e.observedAt)
    case AllocationDrained => Charged(w, a, ByDrain, e.observedAt)
    case _ => w.disruptions
  }

  predicate SaysReady(f: AllocationFact) {
    (f.AllocationReady? && f.ready) || (f.AgentReady? && f.ready)
  }

  function BackoffAfter(w: World, a: Allocation, e: Evidence, f: AllocationFact): map<Id, Backoff> {
    if f.AllocationFailed? then Escalated(w, e.target, e.observedAt)
    else if SaysReady(f) then w.backoff - {a.id}
    else w.backoff
  }

  function KnownGoodAfter(w: World, a: Allocation, f: AllocationFact): map<Id, string> {
    if SaysReady(f) then w.knownGood[a.workload := a.image] else w.knownGood
  }

  /** Creation evidence. A repeat must not count the capacity twice. */
  function ProjectCreated(w: World, e: Evidence, node: Id, workload: Id, image: string, replica: int,
                          resources: Resources, budget: Budget): Result<World>
  {
    if node !in w.nodes || e.target == "" then Err
    else if e.target in w.allocations then Ok(w)
    else if resources.cpu < 1 || resources.mem < 1 then Err
    else
      var n := w.nodes[node];
      Ok(w.(allocations := w.allocations[e.target := Fresh(e.target, workload, replica, n.id, image, resources, budget)],
            nodes := w.nodes[node := n.(used := n.used.Add(resources), budgetUsed := n.budgetUsed.Add(budget))]))
  }

  function Released(n: Node, r: Resources): Node { n.(used := n.used.Subtract(r)) }

  function WithoutPlaced(nodes: map<Id, Node>, a: Allocation): map<Id, Node> {
    if a.node in nodes then nodes[a.node := Released(nodes[a.node], a.resources)] else nodes
  }

  /** Deletion releases the node's compute. It does not release the node's agent budget. */
  function ProjectDeleted(w: World, e: Evidence): World {
    if e.target !in w.allocations then w
    else
      var a := w.allocations[e.target];
      w.(nodes := WithoutPlaced(w.nodes, a),
         disruptions := Charged(w, a, ByDelete, e.observedAt),
         allocations := w.allocations - {e.target})
  }

  function ProjectAllocation(w: World, e: Evidence, f: AllocationFact): (r: Result<World>)
    ensures r.Ok? ==>
      r.value == w.(nodes := r.value.nodes, allocations := r.value.allocations,
                    disruptions := r.value.disruptions, backoff := r.value.backoff, knownGood := r.value.knownGood)
  {
    match f
    case AllocationCreated(node, workload, image, replica, resources, budget) =>
      ProjectCreated(w, e, node, workload, image, replica, resources, budget)
    case AllocationDeleted => Ok(ProjectDeleted(w, e))
    case _ =>
      if e.target !in w.allocations then (if f.NetworkDetached? then Ok(w) else Err)
      else
        var was := w.allocations[e.target];
        var a :- AllocationStep(was, e, f);
        Ok(w.(allocations := w.allocations[e.target := a],
              disruptions := LedgerAfter(w, was, e, f),
              backoff := BackoffAfter(w, was, e, f),
              knownGood := KnownGoodAfter(w, was, f)))
  }

  // ---- Everything else ----

  function ProjectOther(w: World, e: Evidence, f: WorldFact): (r: Result<World>)
    ensures r.Ok? ==>
      r.value == w.(routes := r.value.routes, queues := r.value.queues, approvals := r.value.approvals)
  {
    match f
    case RouteReachable(workload, port, exposure) =>
      if e.target == "" then Err
      else Ok(w.(routes := w.routes[e.target := Route(e.target, workload, port, exposure)]))
    case RouteRemoved => Ok(w.(routes := w.routes - {e.target}))
    case QueueObserved(depth, inFlight) =>
      if e.target == "" || e.target !in w.queues then Err
      else
        var q := w.queues[e.target].(depth := depth, inFlight := inFlight, observedAt := e.observedAt);
        Ok(w.(queues := w.queues[e.target := q]))
    case ApprovalGranted(goal, scope, issuedBy, revision, reason, subject, rollback) =>
      if e.target == "" || goal == "" || scope == "" || scope !in APPROVAL_SCOPES then Err
      else
        var a := Approval(e.target, goal, scope, issuedBy, true, e.observedAt, e.expiresAt,
                          revision, subject, rollback, reason);
        Ok(w.(approvals := w.approvals[e.target := a]))
    case ApprovalRevoked =>
      if e.target !in w.approvals then Ok(w)
      else Ok(w.(approvals := w.approvals[e.target := w.approvals[e.target].(granted := false)]))
    case DiagnosisRecorded => Ok(w)
    case UnknownKind => Err
  }

  function ProjectInto(w: World, e: Evidence): Result<World> {
    match e.fact
    case OfNode(f) => ProjectNode(w, e, f)
    case OfVolume(f) => ProjectVolume(w, e, f)
    case OfAllocation(f) => ProjectAllocation(w, e, f)
    case OfWorld(f) => ProjectOther(w, e, f)
  }

  /** Applies one piece of evidence. Only a diagnosis leaves the revision where it was. */
  function Project(w: World, e: Evidence): Result<World> {
    var next :- ProjectInto(w, e);
    if e.fact == OfWorld(DiagnosisRecorded) then Ok(next)
    else
      var at := if e.observedAt != 0 && e.observedAt > next.observedAt then e.observedAt else next.observedAt;
      Ok(next.(revision := w.revision + 1, observedAt := at))
  }

  /** The world after a whole run of evidence, or a refusal if one item was refused. */
  function Replay(w: World, run: seq<Evidence>): Result<World> {
    if run == [] then Ok(w)
    else
      var before :- Replay(w, run[..|run| - 1]);
      Project(before, run[|run| - 1])
  }

  lemma OnlyVolumeEvidenceTouchesVolumes(w: World, e: Evidence)
    requires Project(w, e).Ok? && !e.fact.OfVolume?
    ensures Project(w, e).value.volumes == w.volumes
  {
    match e.fact
    case OfNode(f) =>
    case OfAllocation(f) =>
    case OfWorld(f) =>
  }

  lemma ReplayExtend(w: World, run: seq<Evidence>, e: Evidence)
    ensures Replay(w, run + [e]) ==
            if Replay(w, run).Ok? then Project(Replay(w, run).value, e) else Err
  {
    assert (run + [e])[..|run|] == run;
  }
}
