/** Failure backoff over whole runs: a target that keeps failing is left alone for longer and longer. */
module FailureBackoff {
  import opened Types
  import opened Ledger
  import opened Projection
  import opened Kernel
  import Governor

  /** How often a target failed since it was last ready, and when it failed last. */
  datatype Trouble = Trouble(failures: nat, at: Time)

  function TroubleAfter(t: Trouble, e: Evidence, id: Id): Trouble {
    if e.target != id || !e.fact.OfAllocation? then t
    else if e.fact.a.AllocationFailed? then Trouble(t.failures + 1, e.observedAt)
    else if SaysReady(e.fact.a) then t.(failures := 0)
    else t
  }

  function TroubleAlong(start: Trouble, run: seq<Evidence>, id: Id): Trouble {
    if run == [] then start else TroubleAfter(TroubleAlong(start, run[..|run| - 1], id), run[|run| - 1], id)
  }

  /** The table holds exactly what the failures of the target say. */
  ghost predicate Tabled(w: World, id: Id, t: Trouble) {
    if t.failures == 0 then id !in w.backoff
    else id in w.backoff && w.backoff[id] == Backoff(t.failures, t.at + BackoffDelay(t.failures), t.at)
  }

  ghost predicate Filed(w: World) { forall a :: a in w.allocations ==> w.allocations[a].id == a }

  lemma AllocationEvidenceTabled(w: World, e: Evidence, f: AllocationFact, id: Id, t: Trouble, after: World)
    requires e.fact == OfAllocation(f) && ProjectAllocation(w, e, f) == Ok(after) && Filed(w) && Tabled(w, id, t)
    ensures Tabled(after, id, TroubleAfter(t, e, id))
  {
  }

  lemma AllocationEvidenceFiled(w: World, e: Evidence, f: AllocationFact, after: World, a: Id)
    requires ProjectAllocation(w, e, f) == Ok(after) && Filed(w) && a in after.allocations
    ensures after.allocations[a].id == a
  {
  }

  lemma VolumeEvidenceFiled(w: World, e: Evidence, f: VolumeFact, after: World, a: Id)
    requires ProjectVolume(w, e, f) == Ok(after) && Filed(w) && a in after.allocations
    ensures after.allocations[a].id == a
  {
  }

  lemma IntoTabled(w: World, e: Evidence, id: Id, t: Trouble, mid: World)
    requires ProjectInto(w, e) == Ok(mid) && Filed(w) && Tabled(w, id, t)
    ensures Filed(mid) && Tabled(mid, id, TroubleAfter(t, e, id))
  {
    match e.fact
    case OfAllocation(f) =>
      AllocationEvidenceTabled(w, e, f, id, t, mid);
      forall a | a in mid.allocations { AllocationEvidenceFiled(w, e, f, mid, a); }
    case OfVolume(f) => forall a | a in mid.allocations { VolumeEvidenceFiled(w, e, f, mid, a); }
    case _ =>
  }

  /** Along every run of evidence, the backoff of a target is that of its failures since it was last ready. */
  lemma {:induction false} BackoffAlongRuns(w: World, run: seq<Evidence>, id: Id, t: Trouble)
    requires Filed(w) && Tabled(w, id, t) && Replay(w, run).Ok?
    ensures Filed(Replay(w, run).value) && Tabled(Replay(w, run).value, id, TroubleAlong(t, run, id))
  {
    if run != [] {
      var k := |run| - 1;
      BackoffAlongRuns(w, run[..k], id, t);
      var mid := Replay(w, run[..k]).value;
      IntoTabled(mid, run[k], id, TroubleAlong(t, run[..k], id), ProjectInto(mid, run[k]).value);
    }
  }

  predicate Launches(a: Action) { a.kind.CreateAllocation? || a.kind.StartAllocation? }

  /** After any run, no plan is authorized that creates or starts a target before the delay of its failures since it
      was last ready has passed. */
  lemma NothingLaunchedEarly(w: World, run: seq<Evidence>, id: Id, t: Trouble, p: Policy, actor: Id, goal: Goal,
                             proposal: Proposal, clock: Time, provenance: bool, i: nat)
    requires Filed(w) && Tabled(w, id, t) && Replay(w, run).Ok? && clock > 0
    requires Authorized(p, actor, goal, Governor.Seen(Replay(w, run).value, clock), proposal, clock, provenance)
    requires i < |proposal.actions| && Launches(proposal.actions[i]) && proposal.actions[i].target == id
    ensures var trouble := TroubleAlong(t, run, id);
            trouble.failures > 0 && trouble.at >= 0 ==>
              Governor.Seen(Replay(w, run).value, clock).observedAt >= trouble.at + BackoffDelay(trouble.failures)
  {
    BackoffAlongRuns(w, run, id, t);
    var trouble, seen := TroubleAlong(t, run, id), Governor.Seen(Replay(w, run).value, clock);
    if trouble.failures > 0 && trouble.at >= 0 {
      BackoffEscalates(trouble.failures, trouble.failures);
      LaunchedOutOfBackoff(seen, proposal.actions, seen.Now(clock), i, trouble);
    }
  }

  lemma LaunchedOutOfBackoff(w: World, plan: seq<Action>, now: Time, i: nat, t: Trouble)
    requires OutOfBackoff(w, plan, now) && i < |plan| && Launches(plan[i]) && Tabled(w, plan[i].target, t)
    requires t.failures > 0 && t.at + BackoffDelay(t.failures) > 0
    ensures now >= t.at + BackoffDelay(t.failures)
  {
    assert !w.backoff[plan[i].target].Active(now);
  }
}
