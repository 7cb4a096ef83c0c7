/** The node's dispatcher: one result per idempotency key, one lease per target while its claim is live. */
module Dispatch {
  import opened Types
  import Executor

  const SKEW := 30 * SECOND
  const MAX_LIFETIME := 5 * MINUTE

  // ---- Envelopes ----

  datatype Envelope = Envelope(version: int, id: Id, node: Id, goal: Id, proposal: Id, lease: Id, key: Id,
                               issuedAt: Time, expiresAt: Time, action: Action)

  predicate WellFormed(e: Envelope) {
    && e.version == 1
    && e.id != "" && e.node != "" && e.goal != "" && e.proposal != "" && e.lease != "" && e.key != ""
    && e.issuedAt != 0 && e.expiresAt != 0 && e.expiresAt > e.issuedAt
    && (e.action.node == "" || e.action.node == e.node)
  }

  /** Signed, addressed to this node, and within its short lifetime. */
  predicate Verified(e: Envelope, signed: bool, node: Id, now: Time) {
    && signed && WellFormed(e) && e.node == node
    && now >= e.issuedAt - SKEW && now < e.expiresAt && e.expiresAt - e.issuedAt <= MAX_LIFETIME
  }

  /** What an envelope authorizes, whenever it was issued. */
  datatype Work = Work(node: Id, goal: Id, proposal: Id, key: Id, action: Action)

  function WorkOf(e: Envelope): Work { Work(e.node, e.goal, e.proposal, e.key, e.action) }

  /** A digest of work: never empty, never shared by different work. */
  ghost predicate Faithful(digest: Work -> string) {
    && (forall w :: digest(w) != "")
    && (forall v, w :: digest(v) == digest(w) ==> v == w)
  }

  datatype DispatchResult = DispatchResult(digest: string, evidence: Evidence)

  // ---- The ledger ----

  datatype Record = Record(key: Id, result: DispatchResult)

  type Results = map<Id, DispatchResult>

  /** What replaying the file gives: the first result of each key; a key with two different digests is refused. */
  function Replayed(file: seq<Record>): Result<Results> {
    if file == [] then Ok(map[])
    else
      var results :- Replayed(file[..|file| - 1]);
      var r := file[|file| - 1];
      if r.key == "" || r.result.digest == "" then Err
      else if r.key in results then (if results[r.key].digest == r.result.digest then Ok(results) else Err)
      else Ok(results[r.key := r.result])
  }

  lemma {:induction false} ReplayFails(file: seq<Record>, k: nat)
    requires k <= |file| && Replayed(file[..k]).Err?
    ensures Replayed(file).Err?
    decreases |file| - k
  {
    if k < |file| {
      assert file[..k + 1][..k] == file[..k];
      ReplayFails(file, k + 1);
    } else {
      assert file[..k] == file;
    }
  }

  class FileLedger {
    var file: seq<Record>
    var results: Results

    /** Memory is what replaying the file gives. */
    ghost predicate Valid()
      reads this
    {
      Replayed(file) == Ok(results)
    }

    constructor (file: seq<Record>)
      ensures this.file == file && results == map[]
    {
      this.file, results := file, map[];
    }

    method Replay() returns (ok: bool)
      requires results == map[]
      modifies this`results
      ensures ok == Replayed(file).Ok? && (ok ==> Valid())
    {
      var k := 0;
      while k < |file|
        invariant 0 <= k <= |file| && Replayed(file[..k]) == Ok(results)
      {
        assert file[..k + 1][..k] == file[..k];
        var r := file[k];
        if r.key == "" || r.result.digest == "" {
          ReplayFails(file, k + 1);
          return false;
        }
        if r.key in results {
          if results[r.key].digest != r.result.digest {
            ReplayFails(file, k + 1);
            return false;
          }
        } else {
          results := results[r.key := r.result];
        }
        k := k + 1;
      }
      assert file[..k] == file;
      return true;
    }

    /** A key is stored once; a disk that refuses the record leaves nothing behind. */
    method Put(key: Id, result: DispatchResult, disk: bool) returns (ok: bool)
      requires Valid() && key != "" && result.digest != ""
      modifies this
      ensures Valid() && ok == (key !in old(results) && disk)
      ensures results == if ok then old(results)[key := result] else old(results)
      ensures file == if ok then old(file) + [Record(key, result)] else old(file)
    {
      if key in results { return false; }
      if !disk { return false; }
      var more := file + [Record(key, result)];
      assert more[..|more| - 1] == file;
      file, results := more, results[key := result];
      return true;
    }
  }

  // ---- Dispatching ----

  datatype Held = Held(lease: Id, expiresAt: Time)

  /** One call into the runtime, and whether its lease was noted; or a restart of the node. */
  datatype Event = Executed(key: Id, target: Id, lease: Id, at: Time, noted: bool, until: Time) | Restarted

  datatype NodeState = NodeState(results: Results, file: seq<Record>, leases: map<Id, Held>, trace: seq<Event>)

  /** A request, with what the world will answer: the runtime or the readiness observer, the desired-state
      store, and the disk. */
  datatype Request = Request(e: Envelope, signed: bool, now: Time, runtime: Option<Evidence>, desired: bool, disk: bool)

  datatype Reply = Refused | Done(result: DispatchResult)

  predicate Claimed(leases: map<Id, Held>, e: Envelope, now: Time) {
    && e.action.target != "" && e.lease != "" && e.action.target in leases
    && now < leases[e.action.target].expiresAt && leases[e.action.target].lease != e.lease
  }

  function Noted(leases: map<Id, Held>, e: Envelope): map<Id, Held> {
    if e.action.target == "" || e.lease == "" then leases else leases[e.action.target := Held(e.lease, e.expiresAt)]
  }

  function ExecutionOf(r: Request): Event {
    Executed(r.e.key, r.e.action.target, r.e.lease, r.now, r.runtime.Some? && r.desired, r.e.expiresAt)
  }

  /** New work: the runtime runs it, then the lease is noted and the result stored, as far as each succeeds. */
  function Perform(n: NodeState, r: Request, digest: string): (NodeState, Reply) {
    var ran := n.(trace := n.trace + [ExecutionOf(r)]);
    if r.runtime.None? || !r.desired then (ran, Refused)
    else
      var result := DispatchResult(digest, Executor.Stamp(r.runtime.value, r.now));
      var noted := ran.(leases := Noted(n.leases, r.e));
      if r.disk && r.e.key !in n.results then
        (noted.(results := n.results[r.e.key := result], file := n.file + [Record(r.e.key, result)]), Done(result))
      else (noted, Refused)
  }

  function Serve(n: NodeState, r: Request, node: Id, digest: Work -> string): (NodeState, Reply) {
    if !Verified(r.e, r.signed, node, r.now) then (n, Refused)
    else if r.e.action.kind.ProbeReadiness? then
      (n, if r.runtime.Some? then Done(DispatchResult("", Executor.Stamp(r.runtime.value, r.now))) else Refused)
    else if r.e.key in n.results then
      (n, if n.results[r.e.key].digest == digest(WorkOf(r.e)) then Done(n.results[r.e.key]) else Refused)
    else if Claimed(n.leases, r.e, r.now) then (n, Refused)
    else Perform(n, r, digest(WorkOf(r.e)))
  }

  class Dispatcher {
    const node: Id
    const digest: Work -> string
    const ledger: FileLedger
    var leases: map<Id, Held>
    ghost var trace: seq<Event>

    constructor (node: Id, digest: Work -> string, ledger: FileLedger)
      ensures this.node == node && this.digest == digest && this.ledger == ledger && leases == map[] && trace == []
    {
      this.node, this.digest, this.ledger, leases, trace := node, digest, ledger, map[], [];
    }

    ghost function View(): NodeState
      reads this, ledger
    {
      NodeState(ledger.results, ledger.file, leases, trace)
    }

    method Dispatch(r: Request) returns (reply: Reply)
      requires ledger.Valid() && Faithful(digest)
      modifies this, ledger
      ensures ledger.Valid() && (View(), reply) == Serve(old(View()), r, node, digest)
    {
      if !Verified(r.e, r.signed, node, r.now) { return Refused; }
      if r.e.action.kind.ProbeReadiness? {
        if r.runtime.None? { return Refused; }
        return Done(DispatchResult("", Executor.Stamp(r.runtime.value, r.now)));
      }
      var work := digest(WorkOf(r.e));
      var key := r.e.key;
      if key in ledger.results {
        if ledger.results[key].digest != work { return Refused; }
        return Done(ledger.results[key]);
      }
      var target := r.e.action.target;
      if target != "" && r.e.lease != "" && target in leases && r.now < leases[target].expiresAt && leases[target].lease != r.e.lease {
        return Refused;
      }
      trace := trace + [ExecutionOf(r)];
      if r.runtime.None? { return Refused; }
      var evidence := Executor.Stamp(r.runtime.value, r.now);
      if !r.desired { return Refused; }
      if target != "" && r.e.lease != "" { leases := leases[target := Held(r.e.lease, r.e.expiresAt)]; }
      var result := DispatchResult(work, evidence);
      var ok := ledger.Put(key, result, r.disk);
      if !ok { return Refused; }
      return Done(result);
    }
  }

  // ---- Whole runs ----

  datatype Step = Serves(r: Request) | Restart

  /** A restart replays the ledger and forgets the lease claims. */
  function Then(n: NodeState, step: Step, node: Id, digest: Work -> string): NodeState {
    match step
    case Serves(r) => Serve(n, r, node, digest).0
    case Restart =>
      NodeState(match Replayed(n.file) case Ok(results) => results case Err => map[], n.file, map[], n.trace + [Restarted])
  }

  function Run(n: NodeState, steps: seq<Step>, node: Id, digest: Work -> string): NodeState {
    if steps == [] then n else Then(Run(n, steps[..|steps| - 1], node, digest), steps[|steps| - 1], node, digest)
  }

  function Executions(trace: seq<Event>, key: Id): nat {
    if trace == [] then 0
    else
      var e := trace[|trace| - 1];
      Executions(trace[..|trace| - 1], key) + if e.Executed? && e.key == key then 1 else 0
  }

  ghost predicate Durable(n: NodeState) { Replayed(n.file) == Ok(n.results) }

  lemma StepIsDurable(n: NodeState, step: Step, node: Id, digest: Work -> string)
    requires Durable(n) && Faithful(digest)
    ensures Durable(Then(n, step, node, digest))
    ensures forall k :: k in n.results ==>
              k in Then(n, step, node, digest).results && Then(n, step, node, digest).results[k] == n.results[k]
  {
    if step.Serves? && Then(n, step, node, digest).file != n.file {
      var more := Then(n, step, node, digest).file;
      assert more[..|more| - 1] == n.file;
    }
  }

  /** The work whose result is stored under each key, after one more step. */
  function WorkAfter(n: NodeState, work: map<Id, Work>, step: Step, node: Id, digest: Work -> string): map<Id, Work> {
    if step.Serves? && step.r.e.key !in n.results && step.r.e.key in Then(n, step, node, digest).results
    then work[step.r.e.key := WorkOf(step.r.e)]
    else work
  }

  function WorkAlong(n: NodeState, work: map<Id, Work>, steps: seq<Step>, node: Id, digest: Work -> string): map<Id, Work> {
    if steps == [] then work
    else
      var front := steps[..|steps| - 1];
      WorkAfter(Run(n, front, node, digest), WorkAlong(n, work, front, node, digest), steps[|steps| - 1], node, digest)
  }

  /** Each stored digest is the digest of the work known to be behind it. */
  ghost predicate Accounted(n: NodeState, work: map<Id, Work>, digest: Work -> string) {
    work.Keys == n.results.Keys && forall k :: k in work ==> n.results[k].digest == digest(work[k])
  }

  lemma StepIsAccounted(n: NodeState, work: map<Id, Work>, step: Step, node: Id, digest: Work -> string)
    requires Durable(n) && Faithful(digest) && Accounted(n, work, digest)
    ensures Accounted(Then(n, step, node, digest), WorkAfter(n, work, step, node, digest), digest)
  {
    StepIsDurable(n, step, node, digest);
  }

  /** Along every run, restarts included, the work behind a key is settled when its result is stored. */
  lemma {:induction false} WorkIsSettled(n: NodeState, work: map<Id, Work>, steps: seq<Step>, node: Id, digest: Work -> string)
    requires Durable(n) && Faithful(digest) && Accounted(n, work, digest)
    ensures var after, known := Run(n, steps, node, digest), WorkAlong(n, work, steps, node, digest);
            && Durable(after) && Accounted(after, known, digest)
            && forall k :: k in work ==> k in known && known[k] == work[k]
  {
    if steps != [] {
      var k := |steps| - 1;
      WorkIsSettled(n, work, steps[..k], node, digest);
      var mid, known := Run(n, steps[..k], node, digest), WorkAlong(n, work, steps[..k], node, digest);
      StepIsDurable(mid, steps[k], node, digest);
      StepIsAccounted(mid, known, steps[k], node, digest);
    }
  }

  lemma SameDigestSameWork(digest: Work -> string, v: Work, w: Work)
    requires Faithful(digest)
    ensures digest(v) == digest(w) <==> v == w
  {
  }

  /** After any run, a request under a key with a stored result runs nothing and changes nothing; it is answered
      with that result exactly when it is verified and asks for the very work the result was stored for. */
  lemma StoredIsFinal(n: NodeState, work: map<Id, Work>, steps: seq<Step>, r: Request, node: Id, digest: Work -> string)
    requires Durable(n) && Faithful(digest) && Accounted(n, work, digest)
    requires r.e.key in Run(n, steps, node, digest).results && !r.e.action.kind.ProbeReadiness?
    ensures var now, known := Run(n, steps, node, digest), WorkAlong(n, work, steps, node, digest);
            && r.e.key in known
            && Serve(now, r, node, digest) ==
               (now, if Verified(r.e, r.signed, node, r.now) && WorkOf(r.e) == known[r.e.key]
                     then Done(now.results[r.e.key]) else Refused)
  {
    WorkIsSettled(n, work, steps, node, digest);
    SameDigestSameWork(digest, WorkAlong(n, work, steps, node, digest)[r.e.key], WorkOf(r.e));
  }

  lemma SnocExecutions(trace: seq<Event>, e: Event, key: Id)
    ensures Executions(trace + [e], key) == Executions(trace, key) + if e.Executed? && e.key == key then 1 else 0
  {
    assert (trace + [e])[..|trace|] == trace;
  }

  /** A stored result survives every later run, restarts included, and its key is never executed again. */
  lemma {:induction false} NeverExecutedAgain(n: NodeState, steps: seq<Step>, node: Id, digest: Work -> string, key: Id)
    requires Durable(n) && Faithful(digest) && key in n.results
    ensures var after := Run(n, steps, node, digest);
            && Durable(after) && key in after.results && after.results[key] == n.results[key]
            && Executions(after.trace, key) == Executions(n.trace, key)
  {
    if steps != [] {
      var k := |steps| - 1;
      NeverExecutedAgain(n, steps[..k], node, digest, key);
      var mid := Run(n, steps[..k], node, digest);
      StepIsDurable(mid, steps[k], node, digest);
      if steps[k].Serves? {
        SnocExecutions(mid.trace, ExecutionOf(steps[k].r), key);
      } else {
        SnocExecutions(mid.trace, Restarted, key);
      }
    }
  }

  /** A request that gets to the runtime: verified, no probe, nothing stored under its key and its target not
      claimed by another lease. */
  predicate GetsThrough(n: NodeState, r: Request, node: Id) {
    Verified(r.e, r.signed, node, r.now) && !r.e.action.kind.ProbeReadiness? && r.e.key !in n.results && !Claimed(n.leases, r.e, r.now)
  }

  /** What keeps a result from being stored. */
  predicate Fails(r: Request) { r.runtime.None? || !r.desired || !r.disk }

  predicate Loses(n: NodeState, step: Step, node: Id, key: Id) {
    step.Serves? && step.r.e.key == key && GetsThrough(n, step.r, node) && Fails(step.r)
  }

  /** The requests of a run that got to the runtime under a key, the runtime, the desired state or the disk failing. */
  function LostAlong(n: NodeState, steps: seq<Step>, node: Id, digest: Work -> string, key: Id): nat {
    if steps == [] then 0
    else
      var k := |steps| - 1;
      LostAlong(n, steps[..k], node, digest, key) + if Loses(Run(n, steps[..k], node, digest), steps[k], node, key) then 1 else 0
  }

  function Stored(n: NodeState, key: Id): nat { if key in n.results then 1 else 0 }

  lemma StepExecutes(n: NodeState, step: Step, node: Id, digest: Work -> string, key: Id)
    requires Durable(n) && Faithful(digest)
    ensures var after := Then(n, step, node, digest);
            Executions(after.trace, key) - Stored(after, key) ==
            Executions(n.trace, key) - Stored(n, key) + if Loses(n, step, node, key) then 1 else 0
  {
    if step.Serves? {
      SnocExecutions(n.trace, ExecutionOf(step.r), key);
    } else {
      SnocExecutions(n.trace, Restarted, key);
    }
  }

  /** Over every run, restarts included: a key is executed once for each attempt whose result was not stored, and
      once more exactly when its result came to be stored. */
  lemma {:induction false} ExecutedAsOftenAsLost(n: NodeState, steps: seq<Step>, node: Id, digest: Work -> string, key: Id)
    requires Durable(n) && Faithful(digest)
    ensures var after := Run(n, steps, node, digest);
            && Durable(after) && Stored(n, key) <= Stored(after, key)
            && Executions(after.trace, key) ==
               Executions(n.trace, key) + LostAlong(n, steps, node, digest, key) + (Stored(after, key) - Stored(n, key))
  {
    if steps != [] {
      var k := |steps| - 1;
      ExecutedAsOftenAsLost(n, steps[..k], node, digest, key);
      var mid := Run(n, steps[..k], node, digest);
      StepIsDurable(mid, steps[k], node, digest);
      StepExecutes(mid, steps[k], node, digest, key);
    }
  }

  // ---- Leases on the node ----

  predicate On(e: Event, target: Id) { e.Executed? && e.target == target && target != "" && e.lease != "" }

  /** The claim on a target that the trace leaves recorded: its last noted execution since the last restart. */
  function Recorded(trace: seq<Event>, target: Id): Option<Held> {
    if trace == [] then None
    else
      var e := trace[|trace| - 1];
      if e.Restarted? then None
      else if On(e, target) && e.noted then Some(Held(e.lease, e.until))
      else Recorded(trace[..|trace| - 1], target)
  }

  /** Nothing ran on a target under another lease than the one recorded for it, while that claim was live. */
  ghost predicate OneLease(trace: seq<Event>) {
    forall i, t :: 0 <= i < |trace| && On(trace[i], t) ==>
      var held := Recorded(trace[..i], t);
      held.Some? && trace[i].at < held.value.expiresAt ==> held.value.lease == trace[i].lease
  }

  ghost predicate Tracked(n: NodeState) {
    forall t :: t != "" ==>
      Recorded(n.trace, t) == if t in n.leases then Some(n.leases[t]) else None
  }

  lemma OneLeaseSnoc(trace: seq<Event>, e: Event)
    requires OneLease(trace)
    requires forall t :: On(e, t) ==> var held := Recorded(trace, t);
               (held.Some? && e.at < held.value.expiresAt ==> held.value.lease == e.lease)
    ensures OneLease(trace + [e])
  {
    var more := trace + [e];
    forall i, t | 0 <= i < |more| && On(more[i], t)
      ensures var held := Recorded(more[..i], t);
              held.Some? && more[i].at < held.value.expiresAt ==> held.value.lease == more[i].lease
    {
      assert more[..i] == trace[..i];
      if i == |trace| { assert trace[..i] == trace; }
    }
  }

  lemma TrackedSnoc(trace: seq<Event>, leases: map<Id, Held>, e: Event, after: map<Id, Held>, t: Id)
    requires t != "" && Recorded(trace, t) == (if t in leases then Some(leases[t]) else None)
    requires after == if e.Restarted? then map[]
                      else if e.noted && On(e, e.target) then leases[e.target := Held(e.lease, e.until)] else leases
    ensures Recorded(trace + [e], t) == if t in after then Some(after[t]) else None
  {
    assert (trace + [e])[..|trace|] == trace;
  }

  /** The event a step adds to the trace, if any, and the claims it leaves. */
  lemma StepAdds(n: NodeState, step: Step, node: Id, digest: Work -> string) returns (e: Event)
    ensures var after := Then(n, step, node, digest);
            (after.trace == n.trace && after.leases == n.leases) ||
            (&& after.trace == n.trace + [e]
             && after.leases == (if e.Restarted? then map[]
                                 else if e.noted && On(e, e.target) then n.leases[e.target := Held(e.lease, e.until)] else n.leases)
             && (e.Executed? ==> !(On(e, e.target) && e.target in n.leases && e.at < n.leases[e.target].expiresAt &&
                                   n.leases[e.target].lease != e.lease)))
  {
    e := if step.Serves? then ExecutionOf(step.r) else Restarted;
  }

  lemma StepIsTracked(n: NodeState, step: Step, node: Id, digest: Work -> string)
    requires Tracked(n) && OneLease(n.trace)
    ensures Tracked(Then(n, step, node, digest)) && OneLease(Then(n, step, node, digest).trace)
  {
    var after := Then(n, step, node, digest);
    var e := StepAdds(n, step, node, digest);
    if !(after.trace == n.trace && after.leases == n.leases) {
      forall t | t != "" ensures Recorded(after.trace, t) == if t in after.leases then Some(after.leases[t]) else None {
        TrackedSnoc(n.trace, n.leases, e, after.leases, t);
      }
      OneLeaseSnoc(n.trace, e);
    }
  }

  /** Over every run: no execution on a target ever contradicts the claim recorded for it while that is live. */
  lemma {:induction false} LeasesAreRespected(n: NodeState, steps: seq<Step>, node: Id, digest: Work -> string)
    requires Tracked(n) && OneLease(n.trace)
    ensures Tracked(Run(n, steps, node, digest)) && OneLease(Run(n, steps, node, digest).trace)
  {
    if steps != [] {
      LeasesAreRespected(n, steps[..|steps| - 1], node, digest);
      StepIsTracked(Run(n, steps[..|steps| - 1], node, digest), steps[|steps| - 1], node, digest);
    }
  }
}
