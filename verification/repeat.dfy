/** Repeated evidence: exactly when projecting the same item twice in a row changes
    nothing but the revision. */
module Repeat {
  import opened Types
  import opened Ledger
  import opened Projection
  import opened Snapshots

  /** The first measurement kept an older start of the healthy run, and it had expired already
      when it was made, so a repeat takes it for a lapse and restarts the run. */
  predicate RestartsReadiness(a: Allocation, e: Evidence) {
    && e.expiresAt != 0 && e.expiresAt <= e.observedAt
    && a.ready && (a.readyExpiresAt == 0 || e.observedAt < a.readyExpiresAt)
    && a.readySince != 0 && a.readySince != e.observedAt
  }

  /** Evidence whose repeat is not absorbed, decided before it is applied at all. */
  predicate RepeatMatters(w: World, e: Evidence) {
    match e.fact
    case OfVolume(VolumeDetached(owner)) =>
      e.target in w.volumes &&
      (w.volumes[e.target].owner == "" || owner == "" || w.volumes[e.target].owner == owner)
    case OfVolume(VolumeTransferred(_)) => true
    case OfVolume(VolumeAdopted(_)) => true
    case OfAllocation(AllocationFailed(_, _)) => true
    case OfAllocation(AllocationDrained) =>
      e.target in w.allocations && w.allocations[e.target].phase != Stopped && e.observedAt != 0
    case OfAllocation(AllocationReady(ready)) =>
      ready && e.target in w.allocations && RestartsReadiness(w.allocations[e.target], e)
    case OfAllocation(AgentReady(ready)) =>
      ready && e.target in w.allocations && RestartsReadiness(w.allocations[e.target], e)
    case _ => false
  }

  ghost predicate OnlyRevisionMoved(before: World, after: Result<World>) {
    after.Ok? && after.value == before.(revision := after.value.revision)
  }

  // ---- Volumes ----

  lemma PrunedAlready(p: Volume, removed: seq<Id>)
    requires Indexed(p) && p.snapshots.Keys !! Members(removed)
    ensures PruneSnapshotIds(p, removed) == p
  {
    RemoveEachIsFilter(p.order, removed);
    WithoutNothing(p.order, Members(removed));
    assert p.snapshots - Members(removed) == p.snapshots;
    assert p.backups - Members(removed) == p.backups;
  }

  lemma PrunedTwice(v: Volume, e: Evidence, removed: seq<Id>, nodes: set<Id>)
    requires Indexed(v)
    ensures var p := VolumeStep(v, e, SnapshotsPruned(removed), nodes).value;
            VolumeStep(p, e, SnapshotsPruned(removed), nodes) == Ok(p)
  {
    PrunedKeepsIndex(v, removed, e, nodes);
    PrunedAlready(VolumeStep(v, e, SnapshotsPruned(removed), nodes).value, removed);
  }

  lemma VolumeStepTwice(v: Volume, e: Evidence, f: VolumeFact, nodes: set<Id>)
    requires Indexed(v) && VolumeStep(v, e, f, nodes).Ok?
    ensures var p := VolumeStep(v, e, f, nodes).value;
            VolumeStep(p, e, f, nodes) == if f.VolumeTransferred? || f.VolumeAdopted? then Err else Ok(p)
  {
    var p := VolumeStep(v, e, f, nodes).value;
    match f
    case SnapshotsPruned(removed) => PrunedTwice(v, e, removed, nodes);
    case VolumeSnapshotted(id, checksum) => assert p.snapshots[id := checksum] == p.snapshots;
    case DatabaseBackedUp(id, checksum) => assert p.snapshots[id := checksum] == p.snapshots;
    case VolumeBackedUp(id, location, _) => assert p.backups[id := location] == p.backups;
    case _ =>
  }

  lemma KnownVolumeEvidenceTwice(w: World, e: Evidence, f: VolumeFact)
    requires WorldIndexed(w) && e.fact == OfVolume(f) && Project(w, e).Ok?
    requires !f.VolumeCreated? && !f.VolumeAttached? && !f.VolumeDetached?
    ensures var once := Project(w, e).value;
            if f.VolumeTransferred? || f.VolumeAdopted? then Project(once, e) == Err
            else OnlyRevisionMoved(once, Project(once, e))
  {
    var once := Project(w, e).value;
    var v := w.volumes[e.target];
    VolumeStepTwice(v, e, f, w.nodes.Keys);
    var p := VolumeStep(v, e, f, w.nodes.Keys).value;
    assert once.volumes == w.volumes[e.target := p] && once.nodes.Keys == w.nodes.Keys;
    assert once.volumes[e.target := p] == once.volumes;
  }

  lemma AttachTwice(w: World, e: Evidence, owner: Id)
    requires e.fact == OfVolume(VolumeAttached(owner)) && Project(w, e).Ok?
    ensures OnlyRevisionMoved(Project(w, e).value, Project(Project(w, e).value, e))
  {
    var once := Project(w, e).value;
    var a := once.allocations[owner];
    assert a.volumes[e.target := once.volumes[e.target].generation] == a.volumes;
    assert once.allocations[owner := a] == once.allocations;
    assert once.volumes[e.target := once.volumes[e.target]] == once.volumes;
  }

  /** Evidence that the world it led to absorbs moves only the revision when repeated. */
  lemma AbsorbedRepeat(w: World, e: Evidence, once: World)
    requires Project(w, e) == Ok(once) && ProjectInto(once, e) == Ok(once)
    ensures OnlyRevisionMoved(once, Project(once, e))
  {
  }

  lemma DetachHarmless(w: World, e: Evidence, owner: Id)
    requires e.fact == OfVolume(VolumeDetached(owner)) && !RepeatMatters(w, e)
    ensures ProjectVolume(w, e, VolumeDetached(owner)) == Ok(w)
  {
  }

  lemma DetachRaises(w: World, e: Evidence, owner: Id)
    requires e.fact == OfVolume(VolumeDetached(owner)) && RepeatMatters(w, e)
    ensures var next := ProjectVolume(w, e, VolumeDetached(owner));
            next.Ok? && RepeatMatters(next.value, e) &&
            next.value.volumes[e.target].generation == w.volumes[e.target].generation + 1
  {
  }

  lemma DetachMatters(w: World, e: Evidence, owner: Id)
    requires e.fact == OfVolume(VolumeDetached(owner)) && RepeatMatters(w, e)
    ensures Project(w, e).Ok? && !OnlyRevisionMoved(Project(w, e).value, Project(Project(w, e).value, e))
  {
    DetachRaises(w, e, owner);
    var once := Project(w, e).value;
    DetachRaises(once, e, owner);
    assert Project(once, e).value.volumes[e.target].generation == once.volumes[e.target].generation + 1;
  }

  lemma DetachTwice(w: World, e: Evidence, owner: Id)
    requires e.fact == OfVolume(VolumeDetached(owner))
    ensures Project(w, e).Ok?
    ensures OnlyRevisionMoved(Project(w, e).value, Project(Project(w, e).value, e)) <==> !RepeatMatters(w, e)
  {
    if RepeatMatters(w, e) {
      DetachMatters(w, e, owner);
    } else {
      DetachHarmless(w, e, owner);
      var once := Project(w, e).value;
      DetachHarmless(once, e, owner);
      AbsorbedRepeat(w, e, once);
    }
  }

  lemma CreateVolumeTwice(w: World, e: Evidence, f: VolumeFact)
    requires f.VolumeCreated? && e.fact == OfVolume(f) && Project(w, e).Ok?
    ensures OnlyRevisionMoved(Project(w, e).value, Project(Project(w, e).value, e))
  {
    assert e.target in Project(w, e).value.volumes;
  }

  // ---- Nodes and the rest ----

  lemma NodeStepTwice(n: Node, e: Evidence, f: NodeFact)
    requires NodeStep(n, e, f).Ok?
    ensures NodeStep(NodeStep(n, e, f).value, e, f) == Ok(NodeStep(n, e, f).value)
  {
    var p := NodeStep(n, e, f).value;
    match f
    case ImagePresent(_, image) => assert p.images + {image} == p.images;
    case ImagesCollected(gone) => assert p.images - Members(gone) == p.images;
    case ProviderReachable(_, r, d) =>
      assert e.target in p.providers;
      assert p.providers[e.target := p.providers[e.target]] == p.providers;
    case _ =>
  }

  lemma NodeEvidenceTwice(w: World, e: Evidence, f: NodeFact)
    requires e.fact == OfNode(f) && Project(w, e).Ok?
    ensures OnlyRevisionMoved(Project(w, e).value, Project(Project(w, e).value, e))
  {
    var id := NodeOf(e.target, f);
    NodeStepTwice(w.nodes[id], e, f);
    var once := Project(w, e).value;
    assert once.nodes[id := once.nodes[id]] == once.nodes;
  }

  lemma OtherStepTwice(w: World, once: World, e: Evidence, f: WorldFact)
    requires ProjectOther(w, e, f).Ok?
    requires once == ProjectOther(w, e, f).value.(revision := once.revision, observedAt := once.observedAt)
    ensures ProjectOther(once, e, f) == Ok(once)
  {
    match f
    case RouteReachable(_, _, _) => assert once.routes[e.target := once.routes[e.target]] == once.routes;
    case RouteRemoved => assert once.routes - {e.target} == once.routes;
    case QueueObserved(_, _) => assert once.queues[e.target := once.queues[e.target]] == once.queues;
    case ApprovalGranted(_, _, _, _, _, _, _) =>
      assert once.approvals[e.target := once.approvals[e.target]] == once.approvals;
    case ApprovalRevoked =>
      if e.target in once.approvals { assert once.approvals[e.target := once.approvals[e.target]] == once.approvals; }
    case DiagnosisRecorded =>
  }

  lemma OtherEvidenceTwice(w: World, e: Evidence, f: WorldFact)
    requires e.fact == OfWorld(f) && Project(w, e).Ok?
    ensures OnlyRevisionMoved(Project(w, e).value, Project(Project(w, e).value, e))
  {
    OtherStepTwice(w, Project(w, e).value, e, f);
  }

  // ---- Allocations ----

  lemma AllocationStepTwice(a: Allocation, e: Evidence, f: AllocationFact)
    requires AllocationStep(a, e, f).Ok?
    ensures var p := AllocationStep(a, e, f).value;
            && AllocationStep(p, e, f).Ok?
            && (AllocationStep(p, e, f).value == p <==> !(SaysReady(f) && RestartsReadiness(a, e)))
  {
    var p := AllocationStep(a, e, f).value;
    match f
    case SecretMounted(secret, version) => assert p.secrets[secret := version] == p.secrets;
    case _ =>
  }

  /** A second drain of a live allocation is charged again. */
  lemma ChargedTwice(w: World, once: World, a: Allocation, p: Allocation, kind: DisruptionKind, at: Time)
    requires once.disruptions == Charged(w, a, kind, at)
    ensures p.phase == Stopped || at == 0 ==> Charged(once, p, kind, at) == once.disruptions
    ensures p.phase == a.phase != Stopped && at != 0 ==> |Charged(once, p, kind, at)| == |once.disruptions| + 1
  {
    if p.phase == a.phase != Stopped && at != 0 {
      var cutoff := at - RETENTION;
      var d := Disruption(a.id, a.workload, a.node, DomainOf(w.nodes, a.node), kind, at);
      var d' := Disruption(p.id, p.workload, p.node, DomainOf(once.nodes, p.node), kind, at);
      SinceTwice(w.disruptions + [d], cutoff, cutoff);
      SinceConcat(once.disruptions, [d'], cutoff);
      assert [d'][..0] == [];
      assert Since([d'], cutoff) == [d'];
    }
  }

  lemma FailedTwice(w: World, e: Evidence, f: AllocationFact)
    requires f.AllocationFailed? && e.fact == OfAllocation(f) && Project(w, e).Ok?
    ensures var once := Project(w, e).value;
            && Project(once, e).Ok?
            && Project(once, e).value.backoff[e.target].failures == once.backoff[e.target].failures + 1
            && Project(once, e).value != once.(revision := Project(once, e).value.revision)
  {
  }

  lemma CreatedTwice(w: World, e: Evidence, f: AllocationFact)
    requires f.AllocationCreated? && e.fact == OfAllocation(f) && Project(w, e).Ok?
    ensures OnlyRevisionMoved(Project(w, e).value, Project(Project(w, e).value, e))
  {
    assert e.target in Project(w, e).value.allocations;
  }

  lemma DeletedTwice(w: World, e: Evidence)
    requires e.fact == OfAllocation(AllocationDeleted) && Project(w, e).Ok?
    ensures OnlyRevisionMoved(Project(w, e).value, Project(Project(w, e).value, e))
  {
    assert e.target !in Project(w, e).value.allocations;
  }

  /** What known evidence makes of a world, field by field. */
  lemma KnownEvidence(w: World, e: Evidence, f: AllocationFact)
    requires e.fact == OfAllocation(f) && e.target in w.allocations && !f.AllocationCreated? && !f.AllocationDeleted?
    requires AllocationStep(w.allocations[e.target], e, f).Ok?
    ensures var was := w.allocations[e.target];
            ProjectInto(w, e) == Ok(w.(allocations := w.allocations[e.target := AllocationStep(was, e, f).value],
                                       disruptions := LedgerAfter(w, was, e, f), backoff := BackoffAfter(w, was, e, f),
                                       knownGood := KnownGoodAfter(w, was, f)))
  {
  }

  /** The parts of the world around an allocation that its evidence touches stay put when it is repeated. */
  lemma AroundTwice(w: World, e: Evidence, f: AllocationFact, once: World)
    requires e.fact == OfAllocation(f) && Project(w, e) == Ok(once) && e.target in w.allocations
    requires !f.AllocationCreated? && !f.AllocationDeleted? && !f.AllocationFailed?
    requires !RepeatMatters(w, e)
    ensures e.target in once.allocations
    ensures var p := once.allocations[e.target];
            && LedgerAfter(once, p, e, f) == once.disruptions && BackoffAfter(once, p, e, f) == once.backoff
            && KnownGoodAfter(once, p, f) == once.knownGood
  {
    var a := w.allocations[e.target];
    KnownEvidence(w, e, f);
    AllocationStepTwice(a, e, f);
    var p := once.allocations[e.target];
    if f.AllocationStopped? { ChargedTwice(w, once, a, p, ByStop, e.observedAt); }
    if f.AllocationDrained? { ChargedTwice(w, once, a, p, ByDrain, e.observedAt); }
    if SaysReady(f) {
      assert once.backoff - {p.id} == once.backoff;
      assert once.knownGood[p.workload := p.image] == once.knownGood;
    }
  }

  lemma KnownEvidenceAbsorbed(w: World, e: Evidence, f: AllocationFact, once: World)
    requires e.fact == OfAllocation(f) && Project(w, e) == Ok(once) && e.target in w.allocations
    requires !f.AllocationCreated? && !f.AllocationDeleted? && !f.AllocationFailed? && !RepeatMatters(w, e)
    ensures OnlyRevisionMoved(once, Project(once, e))
  {
    var a := w.allocations[e.target];
    AllocationStepTwice(a, e, f);
    AroundTwice(w, e, f, once);
    var p := once.allocations[e.target];
    assert once.allocations[e.target := p] == once.allocations;
    KnownEvidence(once, e, f);
    AbsorbedRepeat(w, e, once);
  }

  lemma KnownEvidenceMatters(w: World, e: Evidence, f: AllocationFact, once: World)
    requires e.fact == OfAllocation(f) && Project(w, e) == Ok(once) && e.target in w.allocations
    requires !f.AllocationCreated? && !f.AllocationDeleted? && !f.AllocationFailed? && RepeatMatters(w, e)
    ensures !OnlyRevisionMoved(once, Project(once, e))
  {
    var a := w.allocations[e.target];
    AllocationStepTwice(a, e, f);
    var p := AllocationStep(a, e, f).value;
    if f.AllocationDrained? { ChargedTwice(w, once, a, p, ByDrain, e.observedAt); }
  }

  lemma KnownAllocationEvidenceTwice(w: World, e: Evidence, f: AllocationFact)
    requires e.fact == OfAllocation(f) && Project(w, e).Ok? && e.target in w.allocations
    requires !f.AllocationCreated? && !f.AllocationDeleted? && !f.AllocationFailed?
    ensures OnlyRevisionMoved(Project(w, e).value, Project(Project(w, e).value, e)) <==> !RepeatMatters(w, e)
  {
    if RepeatMatters(w, e) {
      KnownEvidenceMatters(w, e, f, Project(w, e).value);
    } else {
      KnownEvidenceAbsorbed(w, e, f, Project(w, e).value);
    }
  }

  lemma DetachedNetworkTwice(w: World, e: Evidence)
    requires e.fact == OfAllocation(NetworkDetached) && e.target !in w.allocations
    ensures OnlyRevisionMoved(Project(w, e).value, Project(Project(w, e).value, e))
  {
  }

  /** Every kind of evidence, on every well-indexed world: projecting it again right away moves only
      the revision, except exactly in the cases named by `RepeatMatters`; a transfer or an adoption
      is not absorbed but refused. */
  lemma RepeatedEvidence(w: World, e: Evidence)
    requires WorldIndexed(w) && Project(w, e).Ok?
    ensures OnlyRevisionMoved(Project(w, e).value, Project(Project(w, e).value, e)) <==> !RepeatMatters(w, e)
    ensures e.fact.OfVolume? && (e.fact.v.VolumeTransferred? || e.fact.v.VolumeAdopted?) ==>
            Project(Project(w, e).value, e) == Err
  {
    match e.fact
    case OfNode(f) => NodeEvidenceTwice(w, e, f);
    case OfWorld(f) => OtherEvidenceTwice(w, e, f);
    case OfVolume(f) =>
      if f.VolumeCreated? { CreateVolumeTwice(w, e, f); }
      else if f.VolumeAttached? { AttachTwice(w, e, f.allocation); }
      else if f.VolumeDetached? { DetachTwice(w, e, f.allocation); }
      else { KnownVolumeEvidenceTwice(w, e, f); }
    case OfAllocation(f) =>
      if f.AllocationCreated? { CreatedTwice(w, e, f); }
      else if f.AllocationDeleted? { DeletedTwice(w, e); }
      else if f.AllocationFailed? { FailedTwice(w, e, f); }
      else if e.target in w.allocations { KnownAllocationEvidenceTwice(w, e, f); }
      else { DetachedNetworkTwice(w, e); }
  }
}
