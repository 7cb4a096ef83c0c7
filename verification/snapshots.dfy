/** The snapshot index of a volume and what pruning may remove from it. */
module Snapshots {
  import opened Types
  import opened Projection

  ghost predicate NoDup(ids: seq<Id>) {
    forall i, j :: 0 <= i < j < |ids| ==> ids[i] != ids[j]
  }

  /** `order` lists exactly the recorded snapshots, oldest first, each once; the last known
      snapshot is one of them, and is missing only when there is none. */
  ghost predicate Indexed(v: Volume) {
    && NoDup(v.order)
    && Members(v.order) == v.snapshots.Keys
    && v.backups.Keys <= v.snapshots.Keys
    && "" !in v.snapshots
    && (v.last == "" <==> v.order == [])
    && (v.last != "" ==> v.last in v.snapshots)
  }

  ghost predicate WorldIndexed(w: World) {
    forall name :: name in w.volumes ==> Indexed(w.volumes[name])
  }

  /** The ids outside a set, in their original order. */
  function Without(ids: seq<Id>, gone: set<Id>): seq<Id> {
    if ids == [] then []
    else
      var rest := Without(ids[..|ids| - 1], gone);
      if ids[|ids| - 1] in gone then rest else rest + [ids[|ids| - 1]]
  }

  lemma MembersConcat(a: seq<Id>, b: seq<Id>)
    ensures Members(a + b) == Members(a) + Members(b)
  {
  }

  lemma EmptyMembers(ids: seq<Id>)
    ensures Members(ids) == {} <==> ids == []
  {
    if ids != [] { assert ids[0] in Members(ids); }
  }

  lemma {:induction false} WithoutMembers(ids: seq<Id>, gone: set<Id>)
    ensures Members(Without(ids, gone)) == Members(ids) - gone
    ensures NoDup(ids) ==> NoDup(Without(ids, gone))
  {
    if ids != [] {
      var front := ids[..|ids| - 1];
      WithoutMembers(front, gone);
      MembersConcat(front, [ids[|ids| - 1]]);
      MembersConcat(Without(front, gone), [ids[|ids| - 1]]);
      assert ids == front + [ids[|ids| - 1]];
      if NoDup(ids) {
        assert ids[|ids| - 1] !in Members(front);
        assert ids[|ids| - 1] !in Members(Without(front, gone));
      }
    }
  }

  lemma {:induction false} WithoutConcat(a: seq<Id>, b: seq<Id>, gone: set<Id>)
    ensures Without(a + b, gone) == Without(a, gone) + Without(b, gone)
  {
    if b == [] {
      assert a + b == a;
    } else {
      var front := b[..|b| - 1];
      WithoutConcat(a, front, gone);
      assert (a + b)[..|a + b| - 1] == a + front;
      assert Without(a, gone) + (Without(front, gone) + [b[|b| - 1]]) ==
             (Without(a, gone) + Without(front, gone)) + [b[|b| - 1]];
    }
  }

  lemma {:induction false} WithoutNothing(ids: seq<Id>, gone: set<Id>)
    requires Members(ids) !! gone
    ensures Without(ids, gone) == ids
  {
    if ids != [] {
      assert forall id :: id in ids[..|ids| - 1] ==> id in ids;
      WithoutNothing(ids[..|ids| - 1], gone);
      assert ids[|ids| - 1] in Members(ids);
    }
  }

  lemma {:induction false} RemoveFirstIsFilter(ids: seq<Id>, id: Id)
    requires NoDup(ids)
    ensures RemoveFirst(ids, id) == Without(ids, {id})
  {
    if ids != [] {
      assert ids == [ids[0]] + ids[1..];
      WithoutConcat([ids[0]], ids[1..], {id});
      assert Without([ids[0]], {id}) == if ids[0] == id then [] else [ids[0]] by {
        assert [ids[0]][..0] == [];
      }
      if ids[0] == id {
        WithoutNothing(ids[1..], {id});
      } else {
        RemoveFirstIsFilter(ids[1..], id);
      }
    }
  }

  lemma {:induction false} WithoutTwice(ids: seq<Id>, a: set<Id>, b: set<Id>)
    ensures Without(Without(ids, a), b) == Without(ids, a + b)
  {
    if ids != [] {
      var front := ids[..|ids| - 1];
      WithoutTwice(front, a, b);
      if ids[|ids| - 1] !in a {
        assert (Without(front, a) + [ids[|ids| - 1]])[..|Without(front, a)|] == Without(front, a);
      }
    }
  }

  /** Removing ids one at a time is filtering, because no id is listed twice. */
  lemma {:induction false} RemoveEachIsFilter(ids: seq<Id>, gone: seq<Id>)
    requires NoDup(ids)
    ensures RemoveEach(ids, gone) == Without(ids, Members(gone))
  {
    if gone == [] {
      WithoutNothing(ids, Members(gone));
    } else {
      var front, id := gone[..|gone| - 1], gone[|gone| - 1];
      RemoveEachIsFilter(ids, front);
      WithoutMembers(ids, Members(front));
      RemoveFirstIsFilter(Without(ids, Members(front)), id);
      WithoutTwice(ids, Members(front), {id});
      assert gone == front + [id];
      assert Members(gone) == Members(front) + {id};
    }
  }

  // ---- The index survives every run ----

  lemma AppendKeepsIndex(v: Volume, id: Id, order: seq<Id>)
    requires Indexed(v) && id != ""
    requires order == if id in v.snapshots then v.order else v.order + [id]
    ensures NoDup(order) && Members(order) == v.snapshots.Keys + {id} && order != []
  {
    assert id in v.snapshots ==> id in Members(v.order);
    if id !in v.snapshots {
      assert id !in Members(v.order);
    }
  }

  lemma PruneIdsKeepsIndex(v: Volume, removed: seq<Id>)
    requires Indexed(v)
    ensures var p := PruneSnapshotIds(v, removed);
            && p.order == Without(v.order, Members(removed))
            && NoDup(p.order) && Members(p.order) == p.snapshots.Keys
            && p.backups.Keys <= p.snapshots.Keys && "" !in p.snapshots
  {
    RemoveEachIsFilter(v.order, removed);
    WithoutMembers(v.order, Members(removed));
  }

  lemma PrunedKeepsIndex(v: Volume, removed: seq<Id>, e: Evidence, nodes: set<Id>)
    requires Indexed(v)
    ensures Indexed(VolumeStep(v, e, SnapshotsPruned(removed), nodes).value)
  {
    PruneIdsKeepsIndex(v, removed);
    var p := PruneSnapshotIds(v, removed);
    if p.last !in p.snapshots && p.order != [] {
      assert p.order[|p.order| - 1] in Members(p.order);
    } else if p.last in p.snapshots {
      assert p.last in Members(p.order);
    }
  }

  lemma NewSnapshotKeepsIndex(v: Volume, id: Id, checksum: string, p: Volume)
    requires Indexed(v) && id != "" && p.order == (if id in v.snapshots then v.order else v.order + [id])
    requires p.snapshots == v.snapshots[id := checksum] && p.last == id && p.backups == v.backups
    ensures Indexed(p)
  {
    AppendKeepsIndex(v, id, p.order);
  }

  lemma VolumeStepKeepsIndex(v: Volume, e: Evidence, f: VolumeFact, nodes: set<Id>)
    requires Indexed(v) && VolumeStep(v, e, f, nodes).Ok?
    ensures Indexed(VolumeStep(v, e, f, nodes).value)
  {
    match f
    case VolumeSnapshotted(id, checksum) => NewSnapshotKeepsIndex(v, id, checksum, VolumeStep(v, e, f, nodes).value);
    case DatabaseBackedUp(id, checksum) => NewSnapshotKeepsIndex(v, id, checksum, VolumeStep(v, e, f, nodes).value);
    case SnapshotsPruned(removed) => PrunedKeepsIndex(v, removed, e, nodes);
    case _ =>
  }

  lemma IndexedPut(w: World, name: Id, v: Volume, after: World)
    requires WorldIndexed(w) && Indexed(v) && after.volumes == w.volumes[name := v]
    ensures WorldIndexed(after)
  {
  }

  lemma CreateKeepsIndex(w: World, e: Evidence, f: VolumeFact, after: World)
    requires WorldIndexed(w) && f.VolumeCreated? && ProjectVolume(w, e, f) == Ok(after)
    ensures WorldIndexed(after)
  {
    if after.volumes != w.volumes { IndexedPut(w, e.target, after.volumes[e.target], after); }
  }

  lemma AttachKeepsIndex(w: World, e: Evidence, owner: Id, after: World)
    requires WorldIndexed(w) && ProjectVolume(w, e, VolumeAttached(owner)) == Ok(after)
    ensures WorldIndexed(after)
  {
    assert Indexed(w.volumes[e.target]);
    IndexedPut(w, e.target, after.volumes[e.target], after);
  }

  lemma DetachKeepsIndex(w: World, e: Evidence, owner: Id, after: World)
    requires WorldIndexed(w) && ProjectVolume(w, e, VolumeDetached(owner)) == Ok(after)
    ensures WorldIndexed(after)
  {
    if after.volumes != w.volumes {
      assert Indexed(w.volumes[e.target]);
      IndexedPut(w, e.target, after.volumes[e.target], after);
    }
  }

  lemma StepKeepsIndex(w: World, e: Evidence, f: VolumeFact, after: World)
    requires WorldIndexed(w) && ProjectVolume(w, e, f) == Ok(after)
    requires !f.VolumeCreated? && !f.VolumeAttached? && !f.VolumeDetached?
    ensures WorldIndexed(after)
  {
    VolumeStepKeepsIndex(w.volumes[e.target], e, f, w.nodes.Keys);
    IndexedPut(w, e.target, after.volumes[e.target], after);
  }

  lemma ProjectVolumeKeepsIndex(w: World, e: Evidence, f: VolumeFact)
    requires WorldIndexed(w) && ProjectVolume(w, e, f).Ok?
    ensures WorldIndexed(ProjectVolume(w, e, f).value)
  {
    var after := ProjectVolume(w, e, f).value;
    match f
    case VolumeCreated(_, _) => CreateKeepsIndex(w, e, f, after);
    case VolumeAttached(owner) => AttachKeepsIndex(w, e, owner, after);
    case VolumeDetached(owner) => DetachKeepsIndex(w, e, owner, after);
    case _ => StepKeepsIndex(w, e, f, after);
  }

  lemma ProjectKeepsIndex(w: World, e: Evidence)
    requires WorldIndexed(w) && Project(w, e).Ok?
    ensures WorldIndexed(Project(w, e).value)
  {
    match e.fact
    case OfVolume(f) => ProjectVolumeKeepsIndex(w, e, f);
    case _ => OnlyVolumeEvidenceTouchesVolumes(w, e);
  }

  /** Along every run of evidence the index of every volume stays exact. */
  lemma {:induction false} IndexAlongRuns(w: World, run: seq<Evidence>)
    requires WorldIndexed(w) && Replay(w, run).Ok?
    ensures WorldIndexed(Replay(w, run).value)
  {
    if run != [] {
      IndexAlongRuns(w, run[..|run| - 1]);
      ProjectKeepsIndex(Replay(w, run[..|run| - 1]).value, run[|run| - 1]);
    }
  }

  // ---- Pruning ----

  /** How many of the newest snapshots a prune keeps: at least one, at most all. */
  function Kept(order: seq<Id>, retain: int): (k: nat)
    ensures k <= |order|
  {
    Min(Max(1, retain), |order|)
  }

  function Newest(order: seq<Id>, retain: int): seq<Id> { order[|order| - Kept(order, retain)..] }

  function Protected(v: Volume, retain: int): set<Id> {
    (if v.last != "" then {v.last} else {}) + v.backups.Keys + Members(Newest(v.order, retain))
  }

  function Prunable(v: Volume, retain: int): seq<Id> { Without(v.order, Protected(v, retain)) }

  /** Counts back from the newest snapshot, protecting each. */
  method ProtectNewest(order: seq<Id>, retain: int) returns (newest: set<Id>)
    ensures newest == Members(Newest(order, retain))
  {
    var floor, kept := if retain < 1 then 1 else retain, 0;
    newest := {};
    while kept < |order| && kept < floor
      invariant 0 <= kept <= |order| && kept <= floor
      invariant newest == Members(order[|order| - kept..])
    {
      var i := |order| - 1 - kept;
      SuffixMembers(order, i);
      newest := newest + {order[i]};
      kept := kept + 1;
    }
    assert kept == Kept(order, retain);
  }

  lemma SuffixMembers(order: seq<Id>, i: nat)
    requires i < |order|
    ensures Members(order[i..]) == Members(order[i + 1..]) + {order[i]}
  {
    assert order[i..] == [order[i]] + order[i + 1..];
  }

  /** Protect the recovery point, the backups and the newest; collect the rest, oldest first. */
  method PrunableSnapshots(v: Volume, retain: int) returns (removable: seq<Id>)
    ensures removable == Prunable(v, retain)
  {
    var newest := ProtectNewest(v.order, retain);
    var protected := (if v.last != "" then {v.last} else {}) + v.backups.Keys + newest;
    removable := [];
    for j := 0 to |v.order|
      invariant removable == Without(v.order[..j], protected)
    {
      assert v.order[..j + 1][..j] == v.order[..j];
      if v.order[j] !in protected {
        removable := removable + [v.order[j]];
      }
    }
    assert v.order[..|v.order|] == v.order;
  }

  method RemoveString(values: seq<Id>, target: Id) returns (rest: seq<Id>)
    ensures rest == RemoveFirst(values, target)
  {
    for i := 0 to |values|
      invariant target !in values[..i]
      invariant RemoveFirst(values, target) == values[..i] + RemoveFirst(values[i..], target)
    {
      if values[i] == target {
        return values[..i] + values[i + 1..];
      }
      assert values[..i + 1] + RemoveFirst(values[i + 1..], target) ==
             values[..i] + ([values[i]] + RemoveFirst(values[i..][1..], target));
    }
    rest := values;
    assert values[..|values|] + RemoveFirst(values[|values|..], target) == values;
  }

  lemma PruneRemoves(v: Volume, retain: int)
    requires Indexed(v)
    ensures Members(Prunable(v, retain)) == Members(v.order) - Protected(v, retain)
  {
    WithoutMembers(v.order, Protected(v, retain));
  }

  lemma PruneKeepsSnapshots(v: Volume, retain: int, p: Volume)
    requires Indexed(v) && p == PruneSnapshotIds(v, Prunable(v, retain))
    ensures p.backups == v.backups && (v.last != "" ==> v.last in p.snapshots)
    ensures forall id :: id in p.snapshots <==> id in v.snapshots && id in Protected(v, retain)
    ensures forall id :: id in p.snapshots ==> p.snapshots[id] == v.snapshots[id]
  {
    PruneRemoves(v, retain);
  }

  lemma PruneKeepsOrder(v: Volume, retain: int, p: Volume)
    requires Indexed(v) && p == PruneSnapshotIds(v, Prunable(v, retain))
    ensures p.order == Without(v.order, Members(v.order) - Protected(v, retain))
    ensures Newest(p.order, retain) == Newest(v.order, retain) && (p.order == [] <==> v.order == [])
  {
    PruneRemoves(v, retain);
    PruneIdsKeepsIndex(v, Prunable(v, retain));
    NewestSurvive(v.order, retain, Members(Prunable(v, retain)));
  }

  /** A prune keeps exactly the protected snapshots, in their original order, the newest
      ones still at the end; the recovery point and every backup survive with their checksums. */
  lemma PruneKeepsProtected(v: Volume, retain: int)
    requires Indexed(v)
    ensures var p := PruneSnapshotIds(v, Prunable(v, retain));
            && p.order == Without(v.order, Members(v.order) - Protected(v, retain))
            && p.backups == v.backups
            && (v.last != "" ==> v.last in p.snapshots)
            && Newest(p.order, retain) == Newest(v.order, retain)
            && (forall id :: id in p.snapshots <==> id in v.snapshots && id in Protected(v, retain))
            && (forall id :: id in p.snapshots ==> p.snapshots[id] == v.snapshots[id])
            && Indexed(p)
  {
    var p := PruneSnapshotIds(v, Prunable(v, retain));
    PruneKeepsSnapshots(v, retain, p);
    PruneKeepsOrder(v, retain, p);
    PruneIdsKeepsIndex(v, Prunable(v, retain));
  }

  lemma NewestSurvive(order: seq<Id>, retain: int, gone: set<Id>)
    requires Members(Newest(order, retain)) !! gone
    ensures Newest(Without(order, gone), retain) == Newest(order, retain)
  {
    var k := Kept(order, retain);
    var head, tail := order[..|order| - k], Newest(order, retain);
    assert order == head + tail;
    WithoutConcat(head, tail, gone);
    WithoutNothing(tail, gone);
    var rest := Without(order, gone);
    assert rest == Without(head, gone) + tail;
    if k < Max(1, retain) {
      assert head == [];
    }
    assert Kept(rest, retain) == k;
  }

  /** Pruning is idempotent: right after a prune there is nothing left to remove. */
  lemma PruneTwiceRemovesNothing(v: Volume, retain: int)
    requires Indexed(v)
    ensures Prunable(PruneSnapshotIds(v, Prunable(v, retain)), retain) == []
  {
    PruneKeepsProtected(v, retain);
    var p := PruneSnapshotIds(v, Prunable(v, retain));
    assert Protected(p, retain) == Protected(v, retain);
    WithoutMembers(p.order, Protected(p, retain));
    EmptyMembers(Prunable(p, retain));
  }

  lemma PruneLeavesLast(v: Volume, removed: seq<Id>, e: Evidence, nodes: set<Id>, p: Volume)
    requires p == PruneSnapshotIds(v, removed) && (p.last in p.snapshots || (p.last == "" && p.order == []))
    ensures VolumeStep(v, e, SnapshotsPruned(removed), nodes) == Ok(p)
  {
  }

  /** Evidence of a prune removes exactly what was prunable: the last known snapshot never moves. */
  lemma PruneEvidenceIsPrune(v: Volume, retain: int, e: Evidence, nodes: set<Id>)
    requires Indexed(v)
    ensures VolumeStep(v, e, SnapshotsPruned(Prunable(v, retain)), nodes) ==
            Ok(PruneSnapshotIds(v, Prunable(v, retain)))
  {
    var p := PruneSnapshotIds(v, Prunable(v, retain));
    PruneKeepsSnapshots(v, retain, p);
    PruneKeepsOrder(v, retain, p);
    PruneLeavesLast(v, Prunable(v, retain), e, nodes, p);
  }
}
