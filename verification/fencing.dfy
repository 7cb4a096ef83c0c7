/** Single-writer volumes: generations only grow, and whoever holds the current one owns the volume. */
module Fencing {
  import opened Types
  import opened Projection

  /** The allocation holds the volume at its current generation: it is not fenced off. */
  ghost predicate Writes(w: World, allocation: Id, volume: Id) {
    && allocation in w.allocations && volume in w.volumes
    && volume in w.allocations[allocation].volumes
    && w.allocations[allocation].volumes[volume] == w.volumes[volume].generation
  }

  ghost predicate HeldSoundly(w: World, a: Id, v: Id)
    requires a in w.allocations && v in w.allocations[a].volumes
  {
    && v in w.volumes
    && w.allocations[a].volumes[v] <= w.volumes[v].generation
    && (w.allocations[a].volumes[v] == w.volumes[v].generation ==> w.volumes[v].owner == a)
  }

  ghost predicate Fenced(w: World) {
    forall a, v :: a in w.allocations && v in w.allocations[a].volumes ==> HeldSoundly(w, a, v)
  }

  ghost predicate GenerationsGrow(before: World, after: World) {
    forall v :: v in before.volumes ==>
      v in after.volumes && before.volumes[v].generation <= after.volumes[v].generation
  }

  /** At most one allocation may write a volume at any time. */
  lemma OneWriter(w: World, a: Id, b: Id, v: Id)
    requires Fenced(w) && Writes(w, a, v) && Writes(w, b, v)
    ensures a == b == w.volumes[v].owner
  {
    assert HeldSoundly(w, a, v) && HeldSoundly(w, b, v);
  }

  lemma VolumeStepOnlyRaisesGeneration(v: Volume, e: Evidence, f: VolumeFact, nodes: set<Id>)
    requires VolumeStep(v, e, f, nodes).Ok?
    ensures var v' := VolumeStep(v, e, f, nodes).value;
            v'.generation >= v.generation && v'.owner == v.owner
  {
  }

  lemma AttachFences(w: World, e: Evidence, owner: Id)
    requires Fenced(w) && ProjectVolume(w, e, VolumeAttached(owner)).Ok?
    ensures Fenced(ProjectVolume(w, e, VolumeAttached(owner)).value)
  {
    var after := ProjectVolume(w, e, VolumeAttached(owner)).value;
    forall a, v | a in after.allocations && v in after.allocations[a].volumes ensures HeldSoundly(after, a, v) {
      if v in w.allocations[a].volumes { assert HeldSoundly(w, a, v); }
    }
  }

  lemma DetachFences(w: World, e: Evidence, owner: Id)
    requires Fenced(w)
    ensures Fenced(ProjectVolume(w, e, VolumeDetached(owner)).value)
  {
    var after := ProjectVolume(w, e, VolumeDetached(owner)).value;
    forall a, v | a in after.allocations && v in after.allocations[a].volumes ensures HeldSoundly(after, a, v) {
      assert HeldSoundly(w, a, v);
    }
  }

  lemma OtherVolumeEvidenceFences(w: World, e: Evidence, f: VolumeFact)
    requires Fenced(w) && ProjectVolume(w, e, f).Ok? && !f.VolumeAttached? && !f.VolumeDetached?
    ensures Fenced(ProjectVolume(w, e, f).value)
  {
    var after := ProjectVolume(w, e, f).value;
    if !f.VolumeCreated? { VolumeStepOnlyRaisesGeneration(w.volumes[e.target], e, f, w.nodes.Keys); }
    forall a, v | a in after.allocations && v in after.allocations[a].volumes ensures HeldSoundly(after, a, v) {
      assert HeldSoundly(w, a, v);
    }
  }

  lemma VolumeEvidenceRaisesGeneration(w: World, e: Evidence, f: VolumeFact, v: Id)
    requires ProjectVolume(w, e, f).Ok? && v in w.volumes
    ensures v in ProjectVolume(w, e, f).value.volumes
    ensures w.volumes[v].generation <= ProjectVolume(w, e, f).value.volumes[v].generation
  {
  }

  lemma VolumeEvidenceFences(w: World, e: Evidence, f: VolumeFact)
    requires Fenced(w) && ProjectVolume(w, e, f).Ok?
    ensures Fenced(ProjectVolume(w, e, f).value)
  {
    match f
    case VolumeAttached(owner) => AttachFences(w, e, owner);
    case VolumeDetached(owner) => DetachFences(w, e, owner);
    case _ => OtherVolumeEvidenceFences(w, e, f);
  }

  /** Evidence about an allocation attaches nothing: each surviving one keeps what it held. */
  lemma AllocationEvidenceAttachesNothing(w: World, e: Evidence, f: AllocationFact, a: Id)
    requires ProjectAllocation(w, e, f).Ok? && a in ProjectAllocation(w, e, f).value.allocations
    ensures var held := ProjectAllocation(w, e, f).value.allocations[a].volumes;
            if a in w.allocations then held == w.allocations[a].volumes else held == map[]
  {
  }

  lemma ProjectFences(w: World, e: Evidence)
    requires Fenced(w) && Project(w, e).Ok?
    ensures Fenced(Project(w, e).value) && GenerationsGrow(w, Project(w, e).value)
  {
    match e.fact
    case OfVolume(f) =>
      VolumeEvidenceFences(w, e, f);
      forall v | v in w.volumes { VolumeEvidenceRaisesGeneration(w, e, f, v); }
      SameHoldings(ProjectVolume(w, e, f).value, Project(w, e).value);
    case OfAllocation(f) => AllocationEvidenceFences(w, e, f);
    case _ => SameHoldings(w, Project(w, e).value);
  }

  lemma SameHoldings(w: World, after: World)
    requires Fenced(w) && after.volumes == w.volumes && after.allocations == w.allocations
    ensures Fenced(after)
  {
    forall a, v | a in after.allocations && v in after.allocations[a].volumes ensures HeldSoundly(after, a, v) {
      assert HeldSoundly(w, a, v);
    }
  }

  lemma AllocationEvidenceFences(w: World, e: Evidence, f: AllocationFact)
    requires Fenced(w) && e.fact == OfAllocation(f) && Project(w, e).Ok?
    ensures Fenced(Project(w, e).value)
  {
    var after := Project(w, e).value;
    forall a, v | a in after.allocations && v in after.allocations[a].volumes ensures HeldSoundly(after, a, v) {
      AllocationEvidenceAttachesNothing(w, e, f, a);
      assert HeldSoundly(w, a, v);
    }
  }

  /** Fencing over whole runs: from any sound world, every run of evidence keeps at most one
      unfenced holder for each volume, and no generation ever goes back between two points of the run. */
  lemma {:induction false} FencingAlongRuns(w: World, run: seq<Evidence>, k: nat)
    requires Fenced(w) && k <= |run| && Replay(w, run).Ok?
    ensures Replay(w, run[..k]).Ok?
    ensures Fenced(Replay(w, run).value)
    ensures GenerationsGrow(Replay(w, run[..k]).value, Replay(w, run).value)
    decreases |run|
  {
    if k == |run| {
      assert run[..k] == run;
      if run != [] { FencingAlongRuns(w, run[..|run| - 1], |run| - 1); ProjectFences(Replay(w, run[..|run| - 1]).value, run[|run| - 1]); }
    } else {
      var front := run[..|run| - 1];
      assert front[..k] == run[..k];
      FencingAlongRuns(w, front, k);
      ProjectFences(Replay(w, front).value, run[|run| - 1]);
    }
  }
}
