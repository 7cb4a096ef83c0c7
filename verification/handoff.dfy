/** Moving a volume: its home changes only at the end of one complete, evidenced handoff. */
module HandoffProtocol {
  import opened Types
  import opened Projection

  predicate QuiesceOf(e: Evidence, v: Id) { e.target == v && e.fact.OfVolume? && e.fact.v.VolumeQuiesced? }

  ghost predicate QuiescedAt(run: seq<Evidence>, k: int, v: Id, to: Id) {
    0 <= k < |run| && run[k].target == v && run[k].fact == OfVolume(VolumeQuiesced(to))
  }
  ghost predicate SnapshotAt(run: seq<Evidence>, k: int, v: Id, checksum: string) {
    0 <= k < |run| && run[k].target == v && run[k].fact.OfVolume? &&
    run[k].fact.v.VolumeSnapshotted? && run[k].fact.v.checksum == checksum
  }
  ghost predicate TransferAt(run: seq<Evidence>, k: int, v: Id, checksum: string) {
    0 <= k < |run| && run[k].target == v && run[k].fact == OfVolume(VolumeTransferred(checksum))
  }
  ghost predicate NoQuiesceAfter(run: seq<Evidence>, q: int, v: Id) {
    forall k :: q < k < |run| && 0 <= k ==> !QuiesceOf(run[k], v)
  }

  /** The steps a handoff in this state must already have taken, in order, within the run. */
  ghost predicate Quiet(run: seq<Evidence>, v: Id, to: Id, q: int) {
    QuiescedAt(run, q, v, to) && NoQuiesceAfter(run, q, v)
  }
  ghost predicate Copied(run: seq<Evidence>, v: Id, to: Id, checksum: string, q: int, s: int) {
    Quiet(run, v, to, q) && q < s && SnapshotAt(run, s, v, checksum)
  }
  ghost predicate Moved(run: seq<Evidence>, v: Id, to: Id, checksum: string, q: int, s: int, t: int) {
    Copied(run, v, to, checksum, q, s) && s < t && TransferAt(run, t, v, checksum)
  }
  ghost predicate Explains(run: seq<Evidence>, v: Id, h: Handoff) {
    match h.phase
    case Quiescent => exists q :: Quiet(run, v, h.to, q)
    case Snapshotted => exists q, s :: Copied(run, v, h.to, h.checksum, q, s)
    case Transferred => exists q, s, t :: Moved(run, v, h.to, h.checksum, q, s, t)
  }

  function HandoffOf(w: World, v: Id): Option<Handoff> {
    if v in w.volumes then w.volumes[v].handoff else None
  }

  /** How one piece of evidence may change the handoff of a volume. */
  ghost predicate HandoffMove(before: Option<Handoff>, after: Option<Handoff>, e: Evidence, v: Id) {
    || (after == before && !QuiesceOf(e, v))
    || after == None
    || (QuiesceOf(e, v) && after.Some? && after.value.phase == Quiescent && after.value.to == e.fact.v.to)
    || (e.target == v && e.fact.OfVolume? && e.fact.v.VolumeSnapshotted? && before.Some? && after.Some? &&
        before.value.phase == Quiescent && after.value.phase == Snapshotted &&
        after.value.to == before.value.to && after.value.checksum == e.fact.v.checksum)
    || (e.target == v && e.fact.OfVolume? && e.fact.v.VolumeTransferred? && before.Some? && after.Some? &&
        before.value.phase == Snapshotted && after == Some(before.value.(phase := Transferred)) &&
        e.fact.v.checksum == before.value.checksum)
  }

  lemma VolumeEvidenceMovesHandoff(w: World, e: Evidence, f: VolumeFact, v: Id)
    requires e.fact == OfVolume(f) && ProjectVolume(w, e, f).Ok?
    ensures HandoffMove(HandoffOf(w, v), HandoffOf(ProjectVolume(w, e, f).value, v), e, v)
  {
  }

  lemma ProjectMovesHandoff(w: World, e: Evidence, v: Id)
    requires Project(w, e).Ok?
    ensures HandoffMove(HandoffOf(w, v), HandoffOf(Project(w, e).value, v), e, v)
  {
    match e.fact
    case OfVolume(f) => VolumeEvidenceMovesHandoff(w, e, f, v);
    case _ => OnlyVolumeEvidenceTouchesVolumes(w, e);
  }

  lemma MoveStaysExplained(run: seq<Evidence>, e: Evidence, v: Id, before: Option<Handoff>, after: Option<Handoff>)
    requires HandoffMove(before, after, e, v)
    requires before.Some? ==> Explains(run, v, before.value)
    ensures after.Some? ==> Explains(run + [e], v, after.value)
  {
    var longer, n := run + [e], |run|;
    if QuiesceOf(e, v) {
      if after.Some? { assert Quiet(longer, v, after.value.to, n); }
    } else if before.Some? && after.Some? {
      var to := before.value.to;
      match before.value.phase
      case Quiescent =>
        var q :| Quiet(run, v, to, q);
        assert Quiet(longer, v, to, q);
        if after != before { assert Copied(longer, v, to, after.value.checksum, q, n); }
      case Snapshotted =>
        var q, s :| Copied(run, v, to, before.value.checksum, q, s);
        assert Copied(longer, v, to, before.value.checksum, q, s);
        if after != before { assert Moved(longer, v, to, after.value.checksum, q, s, n); }
      case Transferred =>
        var q, s, t :| Moved(run, v, to, before.value.checksum, q, s, t);
        assert Moved(longer, v, to, before.value.checksum, q, s, t);
    }
  }

  lemma {:induction false} HandoffIsExplained(w: World, run: seq<Evidence>, v: Id)
    requires HandoffOf(w, v) == None && Replay(w, run).Ok?
    ensures var h := HandoffOf(Replay(w, run).value, v); h.Some? ==> Explains(run, v, h.value)
  {
    if run != [] {
      var front, e := run[..|run| - 1], run[|run| - 1];
      var before := Replay(w, front).value;
      HandoffIsExplained(w, front, v);
      ProjectMovesHandoff(before, e, v);
      MoveStaysExplained(front, e, v, HandoffOf(before, v), HandoffOf(Replay(w, run).value, v));
      assert run == front + [e];
    }
  }

  /** The one change of home that evidence can make: the adoption that closes a transferred handoff. */
  ghost predicate ClosesHandoff(h: Option<Handoff>, e: Evidence, v: Id, home: Id) {
    h.Some? && h.value.phase == Transferred && h.value.to == home &&
    e.target == v && e.fact == OfVolume(VolumeAdopted(home))
  }

  lemma VolumeEvidenceChangesHome(w: World, e: Evidence, f: VolumeFact, v: Id)
    requires e.fact == OfVolume(f) && ProjectVolume(w, e, f).Ok? && v in w.volumes
    ensures v in ProjectVolume(w, e, f).value.volumes
    ensures var home := ProjectVolume(w, e, f).value.volumes[v].node;
            home != w.volumes[v].node ==> ClosesHandoff(HandoffOf(w, v), e, v, home)
  {
  }

  lemma HomeChangesByAdoption(w: World, e: Evidence, v: Id)
    requires Project(w, e).Ok? && v in w.volumes
    ensures v in Project(w, e).value.volumes
    ensures var home := Project(w, e).value.volumes[v].node;
            home != w.volumes[v].node ==> ClosesHandoff(HandoffOf(w, v), e, v, home)
  {
    match e.fact
    case OfVolume(f) => VolumeEvidenceChangesHome(w, e, f, v);
    case _ => OnlyVolumeEvidenceTouchesVolumes(w, e);
  }

  /** In a run that starts with no move in progress, a volume comes home to node n only at an
      adoption by n that closes a quiesce naming n, a snapshot with some checksum, and a transfer that
      observed the same checksum, in this order and with no other quiesce in between. */
  lemma HomeMovesOnlyByHandoff(w: World, run: seq<Evidence>, e: Evidence, v: Id, before: World, after: World)
    requires HandoffOf(w, v) == None
    requires Replay(w, run) == Ok(before) && Project(before, e) == Ok(after)
    requires v in before.volumes && v in after.volumes && after.volumes[v].node != before.volumes[v].node
    ensures var n := after.volumes[v].node;
            && e.target == v && e.fact == OfVolume(VolumeAdopted(n))
            && exists checksum, q, s, t :: Moved(run, v, n, checksum, q, s, t)
  {
    HandoffIsExplained(w, run, v);
    HomeChangesByAdoption(before, e, v);
  }
}
