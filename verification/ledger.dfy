/** The disruption ledger and the failure backoff carried by the world
    (control/disruption.go). */
module Ledger {
  import opened Types

  const DEFAULT_WINDOW: Duration := 10 * MINUTE
  const DEFAULT_MAX_DISRUPTIONS := 12
  const DEFAULT_COOLDOWN: Duration := 30 * SECOND
  const RETENTION: Duration := HOUR
  const BASE_BACKOFF: Duration := 15 * SECOND
  const MAX_BACKOFF: Duration := 10 * MINUTE

  /** The entries strictly later than a cutoff, in their original order. */
  function Since(ledger: seq<Disruption>, cutoff: Time): seq<Disruption> {
    if ledger == [] then []
    else
      var rest := Since(ledger[..|ledger| - 1], cutoff);
      var d := ledger[|ledger| - 1];
      if d.at > cutoff then rest + [d] else rest
  }

  function Recent(w: World, now: Time, window: Duration): seq<Disruption> {
    if window <= 0 then [] else Since(w.disruptions, now - window)
  }

  function DomainOf(nodes: map<Id, Node>, node: Id): Id {
    if node in nodes then nodes[node].FailureDomain() else ""
  }

  /** The ledger after disrupting an allocation. Only live capacity is charged, and what is
      older than the retention, measured from the observation itself, is forgotten. */
  function Charged(w: World, a: Allocation, kind: DisruptionKind, at: Time): seq<Disruption> {
    if at == 0 || a.phase == Stopped then w.disruptions
    else
      var d := Disruption(a.id, a.workload, a.node, DomainOf(w.nodes, a.node), kind, at);
      Since(w.disruptions + [d], at - RETENTION)
  }

  function Pow2(n: nat): nat { if n == 0 then 1 else 2 * Pow2(n - 1) }

  /** The delay after `failures` consecutive failures: doubling, with a cap. */
  function BackoffDelay(failures: nat): Duration {
    if failures <= 1 then BASE_BACKOFF else Min(BASE_BACKOFF * Pow2(failures - 1), MAX_BACKOFF)
  }

  /** The backoff table after a failure of the target. */
  function Escalated(w: World, target: Id, at: Time): map<Id, Backoff> {
    var failures := if target in w.backoff then w.backoff[target].failures + 1 else 1;
    w.backoff[target := Backoff(failures, at + BackoffDelay(failures), at)]
  }

  // ---- The loops of the source ----

  method KeepSince(ledger: seq<Disruption>, cutoff: Time) returns (kept: seq<Disruption>)
    ensures kept == Since(ledger, cutoff)
  {
    kept := [];
    for i := 0 to |ledger|
      invariant kept == Since(ledger[..i], cutoff)
    {
      assert ledger[..i + 1][..i] == ledger[..i];
      if ledger[i].at > cutoff {
        kept := kept + [ledger[i]];
      }
    }
    assert ledger[..|ledger|] == ledger;
  }

  method BackoffFor(failures: nat) returns (delay: Duration)
    ensures delay == BackoffDelay(failures)
  {
    if failures <= 1 { return BASE_BACKOFF; }
    delay := BASE_BACKOFF;
    var i := 1;
    while i < failures
      invariant 1 <= i <= failures
      invariant delay == BASE_BACKOFF * Pow2(i - 1) < MAX_BACKOFF
    {
      delay := delay * 2;
      if delay >= MAX_BACKOFF {
        PowMonotone(i, failures - 1);
        return MAX_BACKOFF;
      }
      i := i + 1;
    }
  }

  lemma {:induction false} PowMonotone(m: nat, n: nat)
    requires m <= n
    ensures Pow2(m) <= Pow2(n)
    decreases n - m
  {
    if m < n { PowMonotone(m, n - 1); }
  }

  /** A target that keeps failing never waits less than before, and never longer than the cap. */
  lemma BackoffEscalates(f: nat, g: nat)
    requires 1 <= f <= g
    ensures BASE_BACKOFF <= BackoffDelay(f) <= BackoffDelay(g) <= MAX_BACKOFF
  {
    PowMonotone(0, f - 1);
    PowMonotone(f - 1, g - 1);
  }

  // ---- Facts about filtering by time ----

  lemma {:induction false} SinceMember(ledger: seq<Disruption>, cutoff: Time, d: Disruption)
    ensures d in Since(ledger, cutoff) <==> d in ledger && d.at > cutoff
  {
    if ledger != [] {
      SinceMember(ledger[..|ledger| - 1], cutoff, d);
      assert ledger == ledger[..|ledger| - 1] + [ledger[|ledger| - 1]];
    }
  }

  /** Filtering by an earlier cutoff first changes nothing. */
  lemma {:induction false} SinceTwice(ledger: seq<Disruption>, early: Time, late: Time)
    requires early <= late
    ensures Since(Since(ledger, early), late) == Since(ledger, late)
  {
    if ledger != [] {
      var front, d := ledger[..|ledger| - 1], ledger[|ledger| - 1];
      SinceTwice(front, early, late);
      if d.at > early {
        assert (Since(front, early) + [d])[..|Since(front, early)|] == Since(front, early);
      }
    }
  }

  lemma {:induction false} SinceConcat(a: seq<Disruption>, b: seq<Disruption>, cutoff: Time)
    ensures Since(a + b, cutoff) == Since(a, cutoff) + Since(b, cutoff)
  {
    if b == [] {
      assert a + b == a;
    } else {
      var front := b[..|b| - 1];
      SinceConcat(a, front, cutoff);
      assert (a + b)[..|a + b| - 1] == a + front;
      assert Since(a, cutoff) + (Since(front, cutoff) + [b[|b| - 1]]) ==
             (Since(a, cutoff) + Since(front, cutoff)) + [b[|b| - 1]];
    }
  }
}
