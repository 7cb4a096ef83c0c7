/** Exclusive, expiring claims on mutation targets, granted all or nothing. */
module Leases {
  import opened Types
  import opened Names

  datatype Lease = Lease(target: Id, proposal: Id, goal: Id, id: Id, expiresAt: Time)

  // ---- Lease ids ----

  function LeaseID(proposal: Id, now: nat): Id { "lease-" + proposal + "-" + Decimal(now) }

  /** A lease id belongs to one proposal, whenever it was granted. */
  lemma LeaseIDNamesProposal(p: Id, n: nat, q: Id, m: nat)
    requires LeaseID(p, n) == LeaseID(q, m)
    ensures p == q
  {
    NumberedIsUnique("lease-" + p, n, "lease-" + q, m);
    assert ("lease-" + p)[6..] == p && ("lease-" + q)[6..] == q;
  }

  // ---- The table ----

  type Table = map<Id, Lease>

  predicate Live(l: Lease, now: Time) { now < l.expiresAt }

  predicate Conflicts(leases: Table, proposal: Id, target: Id, now: Time) {
    target in leases && Live(leases[target], now) && leases[target].proposal != proposal
  }

  ghost predicate Free(leases: Table, proposal: Id, targets: seq<Id>, now: Time) {
    forall t :: t in targets ==> !Conflicts(leases, proposal, t, now)
  }

  function AfterAcquire(leases: Table, goal: Id, proposal: Id, targets: seq<Id>, now: nat, ttl: Duration): Table {
    leases + map t | t in targets :: Lease(t, proposal, goal, LeaseID(proposal, now), now + ttl)
  }

  function AfterRelease(leases: Table, id: Id): Table {
    map t | t in leases && leases[t].id != id :: leases[t]
  }

  lemma AcquireNext(leases: Table, goal: Id, proposal: Id, targets: seq<Id>, k: nat, now: nat, ttl: Duration)
    requires k < |targets|
    ensures AfterAcquire(leases, goal, proposal, targets[..k + 1], now, ttl) ==
              AfterAcquire(leases, goal, proposal, targets[..k], now, ttl)
                [targets[k] := Lease(targets[k], proposal, goal, LeaseID(proposal, now), now + ttl)]
  {
    assert targets[..k + 1] == targets[..k] + [targets[k]];
  }

  /** Releasing one proposal's lease keeps every lease of another. */
  lemma ReleaseKeepsOthers(leases: Table, p: Id, n: nat, t: Id, granted: nat)
    requires t in leases && leases[t].proposal != p && leases[t].id == LeaseID(leases[t].proposal, granted)
    ensures t in AfterRelease(leases, LeaseID(p, n))
  {
    if leases[t].id == LeaseID(p, n) {
      LeaseIDNamesProposal(p, n, leases[t].proposal, granted);
      assert false;
    }
  }

  class LeaseManager {
    var leases: Table
    const ttl: Duration

    constructor (ttl: Duration)
      ensures leases == map[] && this.ttl == ttl
    {
      leases, this.ttl := map[], ttl;
    }

    /** Claims every target or none; a proposal's own live leases are no conflict. */
    method Acquire(goal: Id, proposal: Id, targets: seq<Id>, now: nat) returns (r: Option<Id>)
      modifies this
      ensures r.Some? <==> Free(old(leases), proposal, targets, now)
      ensures leases == if r.Some? then AfterAcquire(old(leases), goal, proposal, targets, now, ttl) else old(leases)
      ensures r.Some? ==> r.value == LeaseID(proposal, now)
    {
      var free := Contend(proposal, targets, now);
      if !free { return None; }
      var id, expiry, k := LeaseID(proposal, now), now + ttl, 0;
      while k < |targets|
        invariant 0 <= k <= |targets|
        invariant leases == AfterAcquire(old(leases), goal, proposal, targets[..k], now, ttl)
      {
        AcquireNext(old(leases), goal, proposal, targets, k, now, ttl);
        leases := leases[targets[k] := Lease(targets[k], proposal, goal, id, expiry)];
        k := k + 1;
      }
      assert targets[..k] == targets;
      return Some(id);
    }

    /** Whether no target is held by another proposal. */
    method Contend(proposal: Id, targets: seq<Id>, now: Time) returns (free: bool)
      ensures free <==> Free(leases, proposal, targets, now)
    {
      var k := 0;
      while k < |targets|
        invariant 0 <= k <= |targets| && Free(leases, proposal, targets[..k], now)
      {
        var target := targets[k];
        if target in leases && now < leases[target].expiresAt && leases[target].proposal != proposal {
          assert Conflicts(leases, proposal, target, now);
          return false;
        }
        k := k + 1;
      }
      assert targets[..k] == targets;
      return true;
    }

    method Release(id: Id, targets: seq<Id>)
      requires forall t :: t in leases ==> t in targets
      modifies this
      ensures leases == AfterRelease(old(leases), id)
    {
      var k := 0;
      while k < |targets|
        invariant 0 <= k <= |targets|
        invariant leases == map t | t in old(leases) && !(t in targets[..k] && old(leases)[t].id == id) :: old(leases)[t]
      {
        assert targets[..k + 1] == targets[..k] + [targets[k]];
        if targets[k] in leases && leases[targets[k]].id == id { leases := leases - {targets[k]}; }
        k := k + 1;
      }
      assert targets[..k] == targets;
    }

    method Holder(target: Id, now: Time) returns (r: Option<Lease>)
      ensures r == if target in leases && Live(leases[target], now) then Some(leases[target]) else None
    {
      if target !in leases || now >= leases[target].expiresAt { return None; }
      return Some(leases[target]);
    }
  }

  // ---- Every interleaving ----

  /** A grant as its proposal remembers it. */
  datatype Grant = Grant(proposal: Id, id: Id, targets: seq<Id>, until: Time, released: bool)

  datatype State = State(leases: Table, now: nat, grants: seq<Grant>)

  datatype Step = Advance(to: nat) | Acquires(goal: Id, proposal: Id, targets: seq<Id>) | Releases(id: Id)

  function Dropped(g: Grant, id: Id): Grant { if g.id == id then g.(released := true) else g }

  ghost function Then(s: State, step: Step, ttl: Duration): State {
    match step
    case Advance(to) => if to >= s.now then s.(now := to) else s
    case Acquires(goal, proposal, targets) =>
      if Free(s.leases, proposal, targets, s.now) then
        State(AfterAcquire(s.leases, goal, proposal, targets, s.now, ttl), s.now,
              s.grants + [Grant(proposal, LeaseID(proposal, s.now), targets, s.now + ttl, false)])
      else s
    case Releases(id) =>
      State(AfterRelease(s.leases, id), s.now, seq(|s.grants|, i requires 0 <= i < |s.grants| => Dropped(s.grants[i], id)))
  }

  ghost function Run(start: nat, steps: seq<Step>, ttl: Duration): State {
    if steps == [] then State(map[], start, [])
    else Then(Run(start, steps[..|steps| - 1], ttl), steps[|steps| - 1], ttl)
  }

  predicate Holding(g: Grant, target: Id, now: Time) { !g.released && now < g.until && target in g.targets }

  /** No two proposals hold one target. */
  ghost predicate Exclusive(s: State) {
    forall i, j, t :: 0 <= i < |s.grants| && 0 <= j < |s.grants| && Holding(s.grants[i], t, s.now) && Holding(s.grants[j], t, s.now) ==>
      s.grants[i].proposal == s.grants[j].proposal
  }

  /** The table backs a grant on a target: same proposal, at least as long. */
  predicate Backed(leases: Table, g: Grant, t: Id) {
    t in leases && leases[t].proposal == g.proposal && leases[t].expiresAt >= g.until
  }

  ghost predicate AllBacked(s: State) {
    forall i, t :: 0 <= i < |s.grants| && Holding(s.grants[i], t, s.now) ==> Backed(s.leases, s.grants[i], t)
  }

  ghost predicate Dated(s: State, ttl: Duration) {
    forall i :: 0 <= i < |s.grants| ==> s.grants[i].until <= s.now + ttl
  }

  lemma BackedIsExclusive(s: State)
    requires AllBacked(s)
    ensures Exclusive(s)
  {
  }

  /** A release leaves the other holds backed exactly when no other grant still holds a target that the
      table now keeps under the released id, as happens after a proposal acquired a target twice. */
  ghost predicate Careful(s: State, step: Step) {
    step.Releases? ==>
      forall i, t :: 0 <= i < |s.grants| && s.grants[i].id != step.id && Holding(s.grants[i], t, s.now) && t in s.leases ==>
        s.leases[t].id != step.id
  }

  lemma AcquireStaysBacked(s: State, step: Step, ttl: Duration)
    requires step.Acquires? && AllBacked(s) && Dated(s, ttl)
    ensures AllBacked(Then(s, step, ttl)) && Dated(Then(s, step, ttl), ttl)
  {
    var n := Then(s, step, ttl);
    forall i, t | 0 <= i < |n.grants| && Holding(n.grants[i], t, n.now) ensures Backed(n.leases, n.grants[i], t) {
      if i < |s.grants| { assert Holding(s.grants[i], t, s.now); }
    }
  }

  lemma ReleaseStaysBacked(s: State, id: Id)
    requires AllBacked(s)
    ensures AllBacked(Then(s, Releases(id), 0)) <==> Careful(s, Releases(id))
  {
    var n := Then(s, Releases(id), 0);
    if Careful(s, Releases(id)) {
      forall i, t | 0 <= i < |n.grants| && Holding(n.grants[i], t, n.now) ensures Backed(n.leases, n.grants[i], t) {
        assert Holding(s.grants[i], t, s.now);
      }
    } else {
      var i, t :| 0 <= i < |s.grants| && s.grants[i].id != id && Holding(s.grants[i], t, s.now) && t in s.leases &&
                  s.leases[t].id == id;
      assert Holding(n.grants[i], t, n.now) && t !in n.leases;
    }
  }

  lemma StepStaysBacked(s: State, step: Step, ttl: Duration)
    requires AllBacked(s) && Dated(s, ttl)
    ensures Dated(Then(s, step, ttl), ttl)
    ensures AllBacked(Then(s, step, ttl)) <==> Careful(s, step)
  {
    match step
    case Advance(to) =>
      var n := Then(s, step, ttl);
      forall i, t | 0 <= i < |n.grants| && Holding(n.grants[i], t, n.now) ensures Backed(n.leases, n.grants[i], t) {
        assert Holding(s.grants[i], t, s.now);
      }
    case Acquires(goal, proposal, targets) => AcquireStaysBacked(s, step, ttl);
    case Releases(id) => ReleaseStaysBacked(s, id);
  }

  ghost predicate AllCareful(start: nat, steps: seq<Step>, ttl: Duration) {
    forall k :: 0 <= k < |steps| ==> Careful(Run(start, steps[..k], ttl), steps[k])
  }

  /** Over every interleaving of acquisitions, releases and a clock that does not run backwards, no two
      proposals hold one target, as long as releases are careful. */
  lemma {:induction false} LeasesAreExclusive(start: nat, steps: seq<Step>, ttl: Duration)
    requires AllCareful(start, steps, ttl)
    ensures Exclusive(Run(start, steps, ttl)) && AllBacked(Run(start, steps, ttl)) && Dated(Run(start, steps, ttl), ttl)
  {
    if steps != [] {
      var k := |steps| - 1;
      forall i | 0 <= i < k ensures Careful(Run(start, steps[..k][..i], ttl), steps[..k][i]) {
        assert steps[..k][..i] == steps[..i];
      }
      LeasesAreExclusive(start, steps[..k], ttl);
      StepStaysBacked(Run(start, steps[..k], ttl), steps[k], ttl);
    }
    BackedIsExclusive(Run(start, steps, ttl));
  }

  // ---- A careless release loses a target ----

  /** After a release that is not careful, some proposal can acquire a target that another one still holds. */
  lemma CarelessReleaseLosesTarget(s: State, id: Id, ttl: Duration) returns (step: Step)
    requires AllBacked(s) && ttl > 0 && !Careful(s, Releases(id))
    ensures step.Acquires? && !Exclusive(Then(Then(s, Releases(id), ttl), step, ttl))
  {
    var i, t :| 0 <= i < |s.grants| && s.grants[i].id != id && Holding(s.grants[i], t, s.now) && t in s.leases &&
                s.leases[t].id == id;
    var other := s.grants[i].proposal + "'";
    step := Acquires("", other, [t]);
    var n := Then(s, Releases(id), ttl);
    assert t !in n.leases && n.grants[i] == s.grants[i];
    var u := Then(n, step, ttl);
    assert Holding(u.grants[i], t, u.now) && Holding(u.grants[|n.grants|], t, u.now);
  }

  lemma CarefulReleaseIsSafe(s: State, id: Id, step: Step, ttl: Duration)
    requires AllBacked(s) && Dated(s, ttl) && Careful(s, Releases(id)) && step.Acquires?
    ensures Exclusive(Then(Then(s, Releases(id), ttl), step, ttl))
  {
    StepStaysBacked(s, Releases(id), ttl);
    StepStaysBacked(Then(s, Releases(id), ttl), step, ttl);
    BackedIsExclusive(Then(Then(s, Releases(id), ttl), step, ttl));
  }

  /** A release is careful if and only if no acquisition right after it breaks exclusivity. */
  lemma CarefulExactly(s: State, id: Id, ttl: Duration)
    requires AllBacked(s) && Dated(s, ttl) && ttl > 0
    ensures Careful(s, Releases(id)) <==>
            forall step: Step :: step.Acquires? ==> Exclusive(Then(Then(s, Releases(id), ttl), step, ttl))
  {
    if Careful(s, Releases(id)) {
      forall step: Step | step.Acquires? ensures Exclusive(Then(Then(s, Releases(id), ttl), step, ttl)) {
        CarefulReleaseIsSafe(s, id, step, ttl);
      }
    } else {
      var step := CarelessReleaseLosesTarget(s, id, ttl);
    }
  }

  lemma RunSnoc(start: nat, steps: seq<Step>, step: Step, ttl: Duration)
    ensures Run(start, steps + [step], ttl) == Then(Run(start, steps, ttl), step, ttl)
  {
    assert (steps + [step])[..|steps|] == steps;
  }

  /** The first careless release of a run is one acquisition away from two holders of one target. */
  lemma CarelessRunsLoseTarget(start: nat, steps: seq<Step>, step: Step, ttl: Duration) returns (next: Step)
    requires AllCareful(start, steps, ttl) && !Careful(Run(start, steps, ttl), step) && ttl > 0
    ensures !Exclusive(Run(start, steps + [step] + [next], ttl))
  {
    LeasesAreExclusive(start, steps, ttl);
    next := CarelessReleaseLosesTarget(Run(start, steps, ttl), step.id, ttl);
    RunSnoc(start, steps, step, ttl);
    RunSnoc(start, steps + [step], next, ttl);
  }

  lemma NextLeaseID(p: Id, n: nat)
    ensures LeaseID(p, n) != LeaseID(p, n + 1)
  {
    var a, b := LeaseID(p, n), LeaseID(p, n + 1);
    assert a[|a| - 1] == "0123456789"[n % 10] && b[|b| - 1] == "0123456789"[(n + 1) % 10];
    assert n % 10 != (n + 1) % 10;
  }

  /** A proposal that acquires twice and releases the second grant lets another one in beside its first. */
  lemma RetryThenReleaseLosesTarget(n: nat, goal: Id, p: Id, q: Id, x: Id, ttl: Duration)
    requires p != q && ttl > 1
    ensures !Exclusive(Run(n, [Acquires(goal, p, [x])] + [Advance(n + 1)] + [Acquires(goal, p, [x])] +
                              [Releases(LeaseID(p, n + 1))] + [Acquires(goal, q, [x])], ttl))
  {
    var take := Acquires(goal, p, [x]);
    NextLeaseID(p, n);
    RunSnoc(n, [], take, ttl);
    assert [] + [take] == [take];
    RunSnoc(n, [take], Advance(n + 1), ttl);
    RunSnoc(n, [take] + [Advance(n + 1)], take, ttl);
    var s := Run(n, [take] + [Advance(n + 1)] + [take], ttl);
    RetriedState(n, goal, p, x, ttl, s);
    RunSnoc(n, [take] + [Advance(n + 1)] + [take], Releases(LeaseID(p, n + 1)), ttl);
    RunSnoc(n, [take] + [Advance(n + 1)] + [take] + [Releases(LeaseID(p, n + 1))], Acquires(goal, q, [x]), ttl);
    ReleasedRetry(n, goal, p, q, x, ttl, s);
  }

  lemma RetriedState(n: nat, goal: Id, p: Id, x: Id, ttl: Duration, s: State)
    requires s == Then(Then(Then(State(map[], n, []), Acquires(goal, p, [x]), ttl), Advance(n + 1), ttl), Acquires(goal, p, [x]), ttl)
    ensures s.now == n + 1 && x in s.leases && s.leases[x].id == LeaseID(p, n + 1)
    ensures s.grants == [Grant(p, LeaseID(p, n), [x], n + ttl, false), Grant(p, LeaseID(p, n + 1), [x], n + 1 + ttl, false)]
  {
    var one := Then(State(map[], n, []), Acquires(goal, p, [x]), ttl);
    assert x in one.leases && one.leases[x].proposal == p && one.leases.Keys == {x};
    assert Free(one.leases, p, [x], n + 1);
  }

  lemma ReleasedRetry(n: nat, goal: Id, p: Id, q: Id, x: Id, ttl: Duration, s: State)
    requires p != q && ttl > 1 && LeaseID(p, n) != LeaseID(p, n + 1)
    requires s.now == n + 1 && x in s.leases && s.leases[x].id == LeaseID(p, n + 1)
    requires s.grants == [Grant(p, LeaseID(p, n), [x], n + ttl, false), Grant(p, LeaseID(p, n + 1), [x], n + 1 + ttl, false)]
    ensures !Exclusive(Then(Then(s, Releases(LeaseID(p, n + 1)), ttl), Acquires(goal, q, [x]), ttl))
  {
    var t := Then(s, Releases(LeaseID(p, n + 1)), ttl);
    assert x !in t.leases && t.grants[0] == s.grants[0];
    var u := Then(t, Acquires(goal, q, [x]), ttl);
    assert Holding(u.grants[0], x, u.now) && Holding(u.grants[2], x, u.now);
  }

  // ---- One grant at a time ----

  predicate Grants(g: Grant, l: Lease) { !g.released && g.id == l.id && g.proposal == l.proposal }

  ghost predicate Granted(s: State, l: Lease) { exists i :: 0 <= i < |s.grants| && Grants(s.grants[i], l) }

  /** No proposal has two unreleased grants, and each entry of the table is one of those grants. */
  ghost predicate Single(s: State) {
    && (forall i, j :: 0 <= i < j < |s.grants| && !s.grants[i].released && !s.grants[j].released ==>
          s.grants[i].proposal != s.grants[j].proposal)
    && (forall t :: t in s.leases ==> Granted(s, s.leases[t]))
  }

  /** A proposal acquires only while it has no unreleased grant. */
  ghost predicate Sparing(s: State, step: Step) {
    step.Acquires? ==> forall i :: 0 <= i < |s.grants| && s.grants[i].proposal == step.proposal ==> s.grants[i].released
  }

  lemma SingleGrantsAreCareful(s: State, id: Id)
    requires AllBacked(s) && Single(s)
    ensures Careful(s, Releases(id))
  {
    forall i, t | 0 <= i < |s.grants| && s.grants[i].id != id && Holding(s.grants[i], t, s.now) && t in s.leases
      ensures s.leases[t].id != id
    {
      assert Backed(s.leases, s.grants[i], t);
      var j :| 0 <= j < |s.grants| && Grants(s.grants[j], s.leases[t]);
      assert i == j;
    }
  }

  lemma AcquireStaysSingle(s: State, step: Step, ttl: Duration)
    requires Single(s) && step.Acquires? && Sparing(s, step)
    ensures Single(Then(s, step, ttl))
  {
    var n := Then(s, step, ttl);
    if n != s {
      var last := |s.grants|;
      forall t | t in n.leases ensures Granted(n, n.leases[t]) {
        if t in step.targets {
          assert Grants(n.grants[last], n.leases[t]);
        } else {
          var j :| 0 <= j < |s.grants| && Grants(s.grants[j], s.leases[t]);
          assert Grants(n.grants[j], n.leases[t]);
        }
      }
    }
  }

  lemma ReleaseStaysSingle(s: State, id: Id, ttl: Duration)
    requires Single(s)
    ensures Single(Then(s, Releases(id), ttl))
  {
    var n := Then(s, Releases(id), ttl);
    forall t | t in n.leases ensures Granted(n, n.leases[t]) {
      var j :| 0 <= j < |s.grants| && Grants(s.grants[j], s.leases[t]);
      assert Grants(n.grants[j], n.leases[t]);
    }
  }

  ghost predicate AllSparing(start: nat, steps: seq<Step>, ttl: Duration) {
    forall k :: 0 <= k < |steps| ==> Sparing(Run(start, steps[..k], ttl), steps[k])
  }

  lemma SparingPrefix(start: nat, steps: seq<Step>, ttl: Duration, k: nat)
    requires AllSparing(start, steps, ttl) && k <= |steps|
    ensures AllSparing(start, steps[..k], ttl)
  {
    forall i | 0 <= i < k ensures Sparing(Run(start, steps[..k][..i], ttl), steps[..k][i]) {
      assert steps[..k][..i] == steps[..i];
    }
  }

  lemma SingleStep(s: State, step: Step, ttl: Duration)
    requires AllBacked(s) && Dated(s, ttl) && Single(s) && Sparing(s, step)
    ensures var n := Then(s, step, ttl); AllBacked(n) && Dated(n, ttl) && Single(n)
  {
    match step
    case Advance(to) =>
      StepStaysBacked(s, step, ttl);
      var n := Then(s, step, ttl);
      forall t | t in n.leases ensures Granted(n, n.leases[t]) {
        var j :| 0 <= j < |s.grants| && Grants(s.grants[j], s.leases[t]);
        assert Grants(n.grants[j], n.leases[t]);
      }
    case Acquires(goal, proposal, targets) =>
      StepStaysBacked(s, step, ttl);
      AcquireStaysSingle(s, step, ttl);
    case Releases(id) =>
      SingleGrantsAreCareful(s, id);
      StepStaysBacked(s, step, ttl);
      ReleaseStaysSingle(s, id, ttl);
  }

  /** If every proposal acquires only while it has no unreleased grant, then over every interleaving, with any
      releases whatever, no two proposals hold one target. */
  lemma {:induction false} SingleGrantsAreExclusive(start: nat, steps: seq<Step>, ttl: Duration)
    requires AllSparing(start, steps, ttl)
    ensures var s := Run(start, steps, ttl); Exclusive(s) && AllBacked(s) && Dated(s, ttl) && Single(s)
    decreases |steps|
  {
    if steps != [] {
      var k := |steps| - 1;
      SparingPrefix(start, steps, ttl, k);
      SingleGrantsAreExclusive(start, steps[..k], ttl);
      SingleStep(Run(start, steps[..k], ttl), steps[k], ttl);
    }
    BackedIsExclusive(Run(start, steps, ttl));
  }
}
