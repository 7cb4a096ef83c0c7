/** Gradual traffic shifting: the share a rollout may take, and how the share becomes endpoint weights. */
module CanaryRollout {
  import opened Types

  // ---- The declared ladder ----

  ghost predicate Ladder(steps: seq<int>) {
    && steps != [] && steps[|steps| - 1] == 100
    && (forall i :: 0 <= i < |steps| ==> 1 <= steps[i] <= 100)
    && (forall i, j :: 0 <= i < j < |steps| ==> steps[i] < steps[j])
  }

  /** The pass over the steps that remembers only the previous one accepts exactly the ladders. */
  method ValidateCanary(c: Canary) returns (ok: bool)
    ensures ok <==> Ladder(c.steps) && c.holdFor >= 0
  {
    if |c.steps| == 0 { return false; }
    var previous, k := 0, 0;
    while k < |c.steps|
      invariant 0 <= k <= |c.steps|
      invariant previous == if k == 0 then 0 else c.steps[k - 1]
      invariant forall i :: 0 <= i < k ==> 1 <= c.steps[i] <= 100
      invariant forall i, j :: 0 <= i < j < k ==> c.steps[i] < c.steps[j]
    {
      var step := c.steps[k];
      if step < 1 || step > 100 { return false; }
      if step <= previous { return false; }
      previous, k := step, k + 1;
    }
    if c.steps[|c.steps| - 1] != 100 { return false; }
    return c.holdFor >= 0;
  }

  // ---- Which replicas serve each side ----

  /** The listed replicas of the workload that are ready, on the image asked for or off it. */
  function Side(all: map<Id, Allocation>, ids: seq<Id>, workload: Id, image: string, now: Time, same: bool): set<Id> {
    set id | id in ids && id in all && OnSide(all[id], workload, image, now, same)
  }

  predicate OnSide(a: Allocation, workload: Id, image: string, now: Time, same: bool) {
    a.workload == workload && a.ReadyAt(now) && (a.image == image) == same
  }

  function Ready(w: World, goal: Goal, now: Time, same: bool): set<Id> {
    set id | id in w.allocations && OnSide(w.allocations[id], goal.workload.name, goal.workload.image, now, same)
  }

  /** The shortest continuous readiness on a side, zero when the side is empty. */
  ghost predicate Shortest(all: map<Id, Allocation>, side: set<Id>, now: Time, held: Duration) {
    && (side == {} ==> held == 0)
    && (side != {} ==> exists id :: id in side && id in all && held == all[id].ReadyFor(now))
    && (forall id :: id in side && id in all ==> held <= all[id].ReadyFor(now))
  }

  lemma SideGrows(all: map<Id, Allocation>, ids: seq<Id>, k: nat, workload: Id, image: string, now: Time, same: bool)
    requires Listing(ids, all.Keys) && k < |ids|
    ensures var before := Side(all, ids[..k], workload, image, now, same);
            && ids[k] !in before
            && Side(all, ids[..k + 1], workload, image, now, same) ==
                 if OnSide(all[ids[k]], workload, image, now, same) then before + {ids[k]} else before
  {
    assert ids[..k + 1] == ids[..k] + [ids[k]];
    assert ids[k] !in ids[..k];
  }

  /** The replica ready for the shortest time so far sets the hold. */
  function Shorter(held: Duration, ready: Duration): Duration { if held < 0 || ready < held then ready else held }

  lemma ShortestGrows(all: map<Id, Allocation>, side: set<Id>, id: Id, now: Time, held: Duration)
    requires id in all && (if side == {} then held == -1 else held >= 0 && Shortest(all, side, now, held))
    ensures var next := Shorter(held, all[id].ReadyFor(now)); next >= 0 && Shortest(all, side + {id}, now, next)
  {
    var next := Shorter(held, all[id].ReadyFor(now));
    if next == all[id].ReadyFor(now) {
      assert id in side + {id};
    } else {
      var x :| x in side && x in all && held == all[x].ReadyFor(now);
      assert x in side + {id};
    }
  }

  ghost predicate Tallied(all: map<Id, Allocation>, ids: seq<Id>, workload: Id, image: string, now: Time,
                          targets: int, previous: int, held: Duration)
  {
    var side := Side(all, ids, workload, image, now, true);
    && targets == |side| && previous == |Side(all, ids, workload, image, now, false)|
    && if side == {} then held == -1 else held >= 0 && Shortest(all, side, now, held)
  }

  lemma TallyGrows(all: map<Id, Allocation>, ids: seq<Id>, k: nat, workload: Id, image: string, now: Time,
                   targets: int, previous: int, held: Duration)
    requires Listing(ids, all.Keys) && k < |ids|
    requires Tallied(all, ids[..k], workload, image, now, targets, previous, held)
    ensures var a := all[ids[k]];
            var ready := a.workload == workload && a.ReadyAt(now);
            && (!ready ==> Tallied(all, ids[..k + 1], workload, image, now, targets, previous, held))
            && (ready && a.image != image ==> Tallied(all, ids[..k + 1], workload, image, now, targets, previous + 1, held))
            && (ready && a.image == image ==>
                  Tallied(all, ids[..k + 1], workload, image, now, targets + 1, previous, Shorter(held, a.ReadyFor(now))))
  {
    SideGrows(all, ids, k, workload, image, now, true);
    SideGrows(all, ids, k, workload, image, now, false);
    ShortestGrows(all, Side(all, ids[..k], workload, image, now, true), ids[k], now, held);
  }

  /** One pass over the allocations, in whatever order the map yields them. */
  method Tally(all: map<Id, Allocation>, ids: seq<Id>, workload: Id, image: string, now: Time)
    returns (targets: nat, previous: nat, held: Duration)
    requires Listing(ids, all.Keys)
    ensures targets == |Side(all, ids, workload, image, now, true)|
    ensures previous == |Side(all, ids, workload, image, now, false)|
    ensures held >= 0 && Shortest(all, Side(all, ids, workload, image, now, true), now, held)
  {
    targets, previous, held := 0, 0, -1;
    var k := 0;
    while k < |ids|
      invariant 0 <= k <= |ids|
      invariant Tallied(all, ids[..k], workload, image, now, targets, previous, held)
    {
      var a := all[ids[k]];
      TallyGrows(all, ids, k, workload, image, now, targets, previous, held);
      if a.workload == workload && a.ReadyAt(now) {
        if a.image == image {
          targets := targets + 1;
          held := Shorter(held, a.ReadyFor(now));
        } else {
          previous := previous + 1;
        }
      }
      k := k + 1;
    }
    assert ids[..k] == ids;
    if held < 0 { held := 0; }
  }

  lemma SideIsReady(w: World, ids: seq<Id>, goal: Goal, now: Time, same: bool)
    requires Listing(ids, w.allocations.Keys)
    ensures Side(w.allocations, ids, goal.workload.name, goal.workload.image, now, same) == Ready(w, goal, now, same)
  {
  }

  // ---- The authorized step ----

  /** Step k is allowed by a hold that has lasted for held. */
  predicate Earned(hold: Duration, held: Duration, k: nat) {
    hold > 0 ==> k <= held / hold
  }

  /** The greatest earned step the ready proportion supports; the first step whenever none is. */
  ghost predicate IsStep(c: Canary, proportion: int, held: Duration, step: int) {
    && (exists k :: 0 <= k < |c.steps| && step == c.steps[k] && Earned(c.holdFor, held, k))
    && (step <= proportion || (c.steps != [] && step == c.steps[0]))
    && (forall k :: 0 <= k < |c.steps| && c.steps[k] <= proportion && Earned(c.holdFor, held, k) ==> c.steps[k] <= step)
  }

  function Proportion(targets: nat, previous: nat): int
    requires targets + previous > 0
  {
    targets * 100 / (targets + previous)
  }

  method ClimbLadder(c: Canary, proportion: int, held: Duration) returns (step: int)
    requires Ladder(c.steps) && c.holdFor >= 0 && held >= 0
    ensures IsStep(c, proportion, held, step)
  {
    var index, k := 0, 0;
    while k < |c.steps|
      invariant 0 <= k <= |c.steps| && 0 <= index < |c.steps|
      invariant c.steps[index] <= proportion || index == 0
      invariant forall i :: 0 <= i < k && c.steps[i] <= proportion ==> i <= index
    {
      if c.steps[k] <= proportion { index := k; }
      k := k + 1;
    }
    if c.holdFor > 0 {
      var reached := held / c.holdFor;
      if reached < index { index := reached; }
    }
    step := c.steps[index];
    assert Earned(c.holdFor, held, index);
  }

  /** The share pulls back by itself: with less readiness, or a shorter hold, it never grows. */
  lemma StepFollowsReadiness(c: Canary, p: int, q: int, held: Duration, longer: Duration, step: int, next: int)
    requires Ladder(c.steps) && c.holdFor >= 0 && p <= q && 0 <= held <= longer
    requires IsStep(c, p, held, step) && IsStep(c, q, longer, next)
    ensures step <= next
  {
    var k :| 0 <= k < |c.steps| && step == c.steps[k] && Earned(c.holdFor, held, k);
    if c.holdFor > 0 { QuotientMonotone(held, longer, c.holdFor); }
    assert Earned(c.holdFor, longer, k);
  }

  lemma QuotientMonotone(x: int, y: int, d: int)
    requires x <= y && d > 0
    ensures x / d <= y / d
  {
    QuotientAtLeast(x / d, y, d);
  }

  lemma QuotientAtLeast(q: int, x: int, d: int)
    requires d > 0 && q * d <= x
    ensures q <= x / d
  {
    var r := x / d;
    assert x < (r + 1) * d;
    if q >= r + 1 { assert false; }
  }

  lemma QuotientBelow(x: int, d: int, c: int)
    requires d > 0 && x < c * d
    ensures x / d < c
  {
    var r := x / d;
    assert r * d <= x;
    if r >= c { assert false; }
  }

  lemma ProportionMonotone(targets: nat, more: nat, previous: nat)
    requires targets <= more && previous > 0
    ensures 0 <= Proportion(targets, previous) <= Proportion(more, previous) < 100
  {
    var n, q, extra := targets + previous, Proportion(targets, previous), more - targets;
    QuotientBelow(targets * 100, n, 100);
    QuotientBelow(more * 100, n + extra, 100);
    assert q * n <= targets * 100;
    assert q * (n + extra) == q * n + q * extra;
    assert q * extra <= 100 * extra;
    QuotientAtLeast(q, more * 100, n + extra);
  }

  datatype CanaryState = CanaryState(target: string, step: int, targetReady: nat, previousReady: nat,
                                     complete: bool, heldFor: Duration)

  /** Nothing else serving: everything. Nothing new serving: nothing. Both: the ladder decides. */
  ghost predicate Authorizes(goal: Goal, w: World, now: Time, s: CanaryState) {
    var target, previous := Ready(w, goal, now, true), Ready(w, goal, now, false);
    && s.target == goal.workload.image && s.targetReady == |target| && s.previousReady == |previous|
    && Shortest(w.allocations, target, now, s.heldFor)
    && s.complete == (previous == {} && target != {})
    && (previous == {} ==> s.step == 100)
    && (previous != {} && target == {} ==> s.step == 0)
    && (previous != {} && target != {} && goal.canary.Some? ==>
          IsStep(goal.canary.value, Proportion(|target|, |previous|), s.heldFor, s.step))
  }

  method EvaluateCanary(goal: Goal, w: World, ids: seq<Id>, wall: Time) returns (s: CanaryState)
    requires Listing(ids, w.allocations.Keys)
    requires goal.canary.Some? ==> Ladder(goal.canary.value.steps) && goal.canary.value.holdFor >= 0
    ensures goal.canary.None? ==> s == CanaryState(goal.workload.image, 0, 0, 0, false, 0)
    ensures goal.canary.Some? ==> Authorizes(goal, w, w.Now(wall), s) && 0 <= s.step <= 100
  {
    if goal.canary.None? { return CanaryState(goal.workload.image, 0, 0, 0, false, 0); }
    var c, image := goal.canary.value, goal.workload.image;
    var targets, previous, held := Tally(w.allocations, ids, goal.workload.name, image, w.Now(wall));
    SideIsReady(w, ids, goal, w.Now(wall), true);
    SideIsReady(w, ids, goal, w.Now(wall), false);
    s := CanaryState(image, 100, targets, previous, targets > 0, held);
    if previous > 0 {
      if targets == 0 {
        s := s.(step := 0, complete := false);
      } else {
        var step := ClimbLadder(c, Proportion(targets, previous), held);
        s := s.(step := step, complete := false);
      }
    }
  }

  // ---- Weights ----

  datatype Endpoint = Endpoint(allocation: Id, node: Id, address: string, port: int)
  datatype WeightedEndpoint = WeightedEndpoint(endpoint: Endpoint, weight: int, version: string)

  function VersionOf(all: map<Id, Allocation>, e: Endpoint): string {
    if e.allocation in all then all[e.allocation].image else ""
  }

  function Total(ws: seq<WeightedEndpoint>): int {
    if ws == [] then 0 else Total(ws[..|ws| - 1]) + ws[|ws| - 1].weight
  }

  lemma {:induction false} TotalConcat(a: seq<WeightedEndpoint>, b: seq<WeightedEndpoint>)
    ensures Total(a + b) == Total(a) + Total(b)
  {
    if b == [] {
      assert a + b == a;
    } else {
      TotalConcat(a, b[..|b| - 1]);
      assert (a + b)[..|a + b| - 1] == a + b[..|b| - 1];
    }
  }

  /** The weights go to the given endpoints, in order, each labelled with what it runs. */
  ghost predicate Labels(all: map<Id, Allocation>, es: seq<Endpoint>, ws: seq<WeightedEndpoint>) {
    |ws| == |es| && forall i :: 0 <= i < |es| ==> ws[i].endpoint == es[i] && ws[i].version == VersionOf(all, es[i])
  }

  /** Nobody on a side with a share is starved, nobody is favoured by more than one, nothing is lost. */
  ghost predicate FairShare(ws: seq<WeightedEndpoint>, share: int) {
    && (forall i :: 0 <= i < |ws| ==> ws[i].weight >= 1)
    && (forall i, j :: 0 <= i < j < |ws| ==> 0 <= ws[i].weight - ws[j].weight <= 1)
    && Total(ws) == Max(share, |ws|)
  }

  function Portion(each: int, remainder: int, i: int): int { Max(1, if i < remainder then each + 1 else each) }

  lemma {:induction false} TotalOfPortions(ws: seq<WeightedEndpoint>, each: nat, remainder: nat)
    requires forall i :: 0 <= i < |ws| ==> ws[i].weight == Portion(each, remainder, i)
    ensures Total(ws) == if each == 0 then |ws| else each * |ws| + Min(|ws|, remainder)
  {
    if ws != [] {
      TotalOfPortions(ws[..|ws| - 1], each, remainder);
      assert each * |ws| == each * (|ws| - 1) + each;
    }
  }

  lemma PortionsAreFair(ws: seq<WeightedEndpoint>, share: nat)
    requires ws != [] && share > 0
    requires forall i :: 0 <= i < |ws| ==> ws[i].weight == Portion(share / |ws|, share % |ws|, i)
    ensures FairShare(ws, share)
  {
    TotalOfPortions(ws, share / |ws|, share % |ws|);
    if share >= |ws| { QuotientAtLeast(1, share, |ws|); } else { QuotientBelow(share, |ws|, 1); }
  }

  method ShareAcross(all: map<Id, Allocation>, es: seq<Endpoint>, share: int) returns (ws: seq<WeightedEndpoint>)
    ensures es == [] || share <= 0 ==> ws == []
    ensures es != [] && share > 0 ==> Labels(all, es, ws) && FairShare(ws, share)
  {
    ws := [];
    if es == [] || share <= 0 { return; }
    var each, remainder, k := share / |es|, share % |es|, 0;
    while k < |es|
      invariant 0 <= k <= |es|
      invariant Labels(all, es[..k], ws)
      invariant forall i :: 0 <= i < k ==> ws[i].weight == Portion(each, remainder, i)
    {
      var weight := each;
      if k < remainder { weight := weight + 1; }
      if weight <= 0 { weight := 1; }
      ws, k := ws + [WeightedEndpoint(es[k], weight, VersionOf(all, es[k]))], k + 1;
    }
    assert es[..k] == es;
    PortionsAreFair(ws, share);
  }

  method EqualWeights(all: map<Id, Allocation>, es: seq<Endpoint>) returns (ws: seq<WeightedEndpoint>)
    ensures Labels(all, es, ws) && forall i :: 0 <= i < |ws| ==> ws[i].weight == 1
  {
    ws := [];
    var k := 0;
    while k < |es|
      invariant 0 <= k <= |es|
      invariant Labels(all, es[..k], ws) && forall i :: 0 <= i < |ws| ==> ws[i].weight == 1
    {
      ws, k := ws + [WeightedEndpoint(es[k], 1, VersionOf(all, es[k]))], k + 1;
    }
    assert es[..k] == es;
  }

  function Running(all: map<Id, Allocation>, es: seq<Endpoint>, image: string, same: bool): seq<Endpoint> {
    if es == [] then []
    else
      var e, rest := es[|es| - 1], Running(all, es[..|es| - 1], image, same);
      if (VersionOf(all, e) == image) == same then rest + [e] else rest
  }

  method Partition(all: map<Id, Allocation>, es: seq<Endpoint>, image: string)
    returns (target: seq<Endpoint>, previous: seq<Endpoint>)
    ensures target == Running(all, es, image, true) && previous == Running(all, es, image, false)
  {
    target, previous := [], [];
    var k := 0;
    while k < |es|
      invariant 0 <= k <= |es|
      invariant target == Running(all, es[..k], image, true) && previous == Running(all, es[..k], image, false)
    {
      assert es[..k + 1][..k] == es[..k];
      if VersionOf(all, es[k]) == image { target := target + [es[k]]; } else { previous := previous + [es[k]]; }
      k := k + 1;
    }
    assert es[..k] == es;
  }

  lemma OneMoreEndpoint(es: seq<Endpoint>, e: Endpoint)
    ensures multiset(es + [e]) == multiset(es) + multiset{e}
  {
  }

  lemma RunningSnoc(all: map<Id, Allocation>, es: seq<Endpoint>, e: Endpoint, image: string, same: bool)
    ensures Running(all, es + [e], image, same) ==
            if (VersionOf(all, e) == image) == same then Running(all, es, image, same) + [e] else Running(all, es, image, same)
  {
    assert (es + [e])[..|es|] == es;
  }

  lemma Regrouped(a: multiset<Endpoint>, b: multiset<Endpoint>, e: Endpoint)
    ensures (a + multiset{e}) + b == (a + b) + multiset{e} && a + (b + multiset{e}) == (a + b) + multiset{e}
  {
  }

  /** Every endpoint falls on exactly one side. */
  lemma {:induction false} PartitionIsComplete(all: map<Id, Allocation>, es: seq<Endpoint>, image: string)
    ensures multiset(Running(all, es, image, true)) + multiset(Running(all, es, image, false)) == multiset(es)
  {
    if es != [] {
      var front, e := es[..|es| - 1], es[|es| - 1];
      PartitionIsComplete(all, front, image);
      assert es == front + [e];
      var a, b := Running(all, front, image, true), Running(all, front, image, false);
      RunningSnoc(all, front, e, image, true);
      RunningSnoc(all, front, e, image, false);
      OneMoreEndpoint(front, e);
      OneMoreEndpoint(a, e);
      OneMoreEndpoint(b, e);
      Regrouped(multiset(a), multiset(b), e);
    }
  }

  /** A side with a share gets it; a side without one is left out of the snapshot. */
  ghost predicate SideIs(all: map<Id, Allocation>, es: seq<Endpoint>, share: int, ws: seq<WeightedEndpoint>) {
    if share <= 0 then ws == [] else Labels(all, es, ws) && FairShare(ws, share)
  }

  ghost predicate Split(all: map<Id, Allocation>, target: seq<Endpoint>, previous: seq<Endpoint>, step: int,
                        ws: seq<WeightedEndpoint>)
  {
    exists a, b :: SideIs(all, target, step, a) && SideIs(all, previous, 100 - step, b) && ws == a + b
  }

  method WeightEndpoints(goal: Goal, w: World, ids: seq<Id>, wall: Time, es: seq<Endpoint>)
    returns (ws: seq<WeightedEndpoint>, s: CanaryState)
    requires Listing(ids, w.allocations.Keys)
    requires goal.canary.Some? ==> Ladder(goal.canary.value.steps) && goal.canary.value.holdFor >= 0
    ensures goal.canary.Some? ==> Authorizes(goal, w, w.Now(wall), s) && 0 <= s.step <= 100
    ensures goal.canary.None? ==> Labels(w.allocations, es, ws) && forall i :: 0 <= i < |ws| ==> ws[i].weight == 1
    ensures var target := Running(w.allocations, es, goal.workload.image, true);
            var previous := Running(w.allocations, es, goal.workload.image, false);
            && (goal.canary.Some? && previous == [] ==> Labels(w.allocations, target, ws))
            && (goal.canary.Some? && target == [] ==> Labels(w.allocations, previous, ws))
            && (goal.canary.Some? && (previous == [] || target == []) ==> forall i :: 0 <= i < |ws| ==> ws[i].weight == 1)
            && (goal.canary.Some? && previous != [] && target != [] ==> Split(w.allocations, target, previous, s.step, ws))
  {
    var all := w.allocations;
    s := EvaluateCanary(goal, w, ids, wall);
    if goal.canary.None? {
      ws := EqualWeights(all, es);
      return;
    }
    var target, previous := Partition(all, es, goal.workload.image);
    if |target| == 0 {
      ws := EqualWeights(all, previous);
    } else if |previous| == 0 {
      ws := EqualWeights(all, target);
    } else {
      var a := ShareAcross(all, target, s.step);
      var b := ShareAcross(all, previous, 100 - s.step);
      ws := a + b;
      assert SideIs(all, target, s.step, a) && SideIs(all, previous, 100 - s.step, b);
    }
  }

  lemma SideTotal(all: map<Id, Allocation>, es: seq<Endpoint>, share: int, ws: seq<WeightedEndpoint>)
    requires SideIs(all, es, share, ws)
    ensures Total(ws) == if share <= 0 then 0 else Max(share, |es|)
  {
  }

  lemma SplitTotal(all: map<Id, Allocation>, target: seq<Endpoint>, previous: seq<Endpoint>, step: int,
                   ws: seq<WeightedEndpoint>)
    requires 0 <= step <= 100 && Split(all, target, previous, step, ws)
    ensures Total(ws) == (if step == 0 then 0 else Max(step, |target|)) +
                         (if step == 100 then 0 else Max(100 - step, |previous|))
  {
    var a, b :| SideIs(all, target, step, a) && SideIs(all, previous, 100 - step, b) && ws == a + b;
    SideTotal(all, target, step, a);
    SideTotal(all, previous, 100 - step, b);
    TotalConcat(a, b);
  }

  /** The split totals 100 exactly when no side with a share has more endpoints than share. */
  lemma SplitTotalsHundred(all: map<Id, Allocation>, target: seq<Endpoint>, previous: seq<Endpoint>, step: int,
                           ws: seq<WeightedEndpoint>)
    requires 0 <= step <= 100 && Split(all, target, previous, step, ws)
    ensures Total(ws) >= 100
    ensures Total(ws) == 100 <==> (step > 0 ==> |target| <= step) && (step < 100 ==> |previous| <= 100 - step)
  {
    SplitTotal(all, target, previous, step, ws);
  }

  /** While both versions serve, a ladder that begins at 99 authorizes 99, however few the new replicas are. */
  lemma LadderFromNinetyNine(goal: Goal, w: World, now: Time, s: CanaryState)
    requires goal.canary.Some? && Ladder(goal.canary.value.steps) && goal.canary.value.steps[0] == 99
    requires Authorizes(goal, w, now, s) && Ready(w, goal, now, true) != {} && Ready(w, goal, now, false) != {}
    ensures s.step == 99
  {
    var c := goal.canary.value;
    var targets, previous := |Ready(w, goal, now, true)|, |Ready(w, goal, now, false)|;
    assert previous > 0;
    ProportionMonotone(targets, targets, previous);
    var k :| 0 <= k < |c.steps| && s.step == c.steps[k];
    if k > 0 { assert c.steps[0] < c.steps[k]; }
  }

  /** Two old endpoints behind the one percent that such a ladder leaves them: the weights total 101, not 100. */
  lemma CrowdedSideOverflows(goal: Goal, w: World, now: Time, s: CanaryState, target: seq<Endpoint>, previous: seq<Endpoint>,
                             ws: seq<WeightedEndpoint>)
    requires goal.canary.Some? && Ladder(goal.canary.value.steps) && goal.canary.value.steps[0] == 99
    requires Authorizes(goal, w, now, s) && Ready(w, goal, now, true) != {} && Ready(w, goal, now, false) != {}
    requires |target| == 1 && |previous| == 2 && Split(w.allocations, target, previous, s.step, ws)
    ensures s.step == 99 && Total(ws) == 101
  {
    LadderFromNinetyNine(goal, w, now, s);
    SplitTotal(w.allocations, target, previous, 99, ws);
  }
}
