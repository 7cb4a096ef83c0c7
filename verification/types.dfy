/** The records of the control plane: what a goal asks for, what the world holds,
    what an agent may propose and what evidence may report.

    Instants are whole nanoseconds counted from Go's zero time, so the zero value of
    a timestamp is the number 0 and every comparison is the one the source makes.
    A nil pointer is `None`, a nil map or slice is the empty one. */
module Types {
  type Id = string
  type Time = int
  type Duration = int

  const SECOND: Duration := 1_000_000_000
  const MINUTE: Duration := 60 * SECOND
  const HOUR: Duration := 60 * MINUTE

  datatype Option<+T> = None | Some(value: T)

  /** A refusal carries no text: only whether an operation went through matters. */
  datatype Result<+T> = Ok(value: T) | Err {
    predicate IsFailure() { Err? }
    function PropagateFailure<U>(): Result<U>
      requires Err?
    { Err }
    function Extract(): T
      requires Ok?
    { value }
  }

  /** Every key once, in some order: what walking a map yields. */
  ghost predicate Listing(ids: seq<Id>, keys: set<Id>) {
    && (forall id :: id in ids <==> id in keys)
    && (forall i, j :: 0 <= i < j < |ids| ==> ids[i] != ids[j])
  }

  function Max(a: int, b: int): int { if a < b then b else a }
  function Min(a: int, b: int): int { if a < b then a else b }

  datatype Resources = Resources(cpu: int, mem: int) {
    function Add(o: Resources): Resources { Resources(cpu + o.cpu, mem + o.mem) }
    function Subtract(o: Resources): Resources { Resources(Max(0, cpu - o.cpu), Max(0, mem - o.mem)) }
    predicate Fits(capacity: Resources) { cpu <= capacity.cpu && mem <= capacity.mem }
  }

  const NOTHING := Resources(0, 0)

  datatype Budget = Budget(tokens: int, cost: int, wall: int, calls: int) {
    function Add(o: Budget): Budget {
      Budget(tokens + o.tokens, cost + o.cost, wall + o.wall, calls + o.calls)
    }
    function Subtract(o: Budget): Budget {
      Budget(Max(0, tokens - o.tokens), Max(0, cost - o.cost), Max(0, wall - o.wall), Max(0, calls - o.calls))
    }
    predicate Fits(ceiling: Budget) {
      tokens <= ceiling.tokens && cost <= ceiling.cost && wall <= ceiling.wall && calls <= ceiling.calls
    }
    predicate Exhausts(ceiling: Budget) {
      tokens >= ceiling.tokens || cost >= ceiling.cost || wall >= ceiling.wall || calls >= ceiling.calls
    }
    predicate IsZero() { this == NO_BUDGET }
  }

  const NO_BUDGET := Budget(0, 0, 0, 0)

  function Decimal(n: nat): string {
    (if n < 10 then "" else Decimal(n / 10)) + ["0123456789"[n % 10]]
  }

  function DecimalInt(i: int): string { if i < 0 then "-" + Decimal(-i) else Decimal(i) }

  /** The id a workload's replica is placed under. */
  function AllocationID(workload: Id, replica: int): Id { workload + "-" + DecimalInt(replica) }

  // ---- Goals ----

  datatype ToolGrant = ToolGrant(name: Id, scope: string, mutating: bool)
  datatype SecretRef = SecretRef(name: Id, version: string, mountPath: string)
  datatype VolumeRef = VolumeRef(name: Id, mountPath: string)
  datatype RouteSpec = RouteSpec(host: Id, port: int, exposure: string)
  datatype Constraints = Constraints(labels: map<string, string>, allowed: seq<Id>)
  datatype AgentRuntime = AgentRuntime(provider: Id, budget: Budget, tools: seq<ToolGrant>, queue: Id)
  datatype Canary = Canary(steps: seq<int>, holdFor: Duration)
  datatype Workload = Workload(
    name: Id, image: string, replicas: int, port: int, resources: Resources,
    secrets: seq<SecretRef>, volumes: seq<VolumeRef>, engine: string,
    runtime: Option<AgentRuntime>, maxPerDomain: int)
  datatype Goal = Goal(
    id: Id, workload: Workload, route: Option<RouteSpec>, constraints: Constraints, canary: Option<Canary>)

  // ---- The world ----

  datatype Phase = Created | Running | Stopped

  datatype Allocation = Allocation(
    id: Id, workload: Id, replica: int, node: Id, image: string, resources: Resources,
    phase: Phase, ready: bool, stateful: bool, volumes: map<Id, nat>, secrets: map<Id, string>,
    address: string, exitCode: int, restarts: int, readyExpiresAt: Time, readySince: Time,
    budget: Budget, spent: Budget, draining: bool, task: Id, tools: seq<ToolGrant>)
  {
    predicate Exhausted() { !budget.IsZero() && spent.Exhausts(budget) }
    predicate ReadyAt(now: Time) { ready && (readyExpiresAt == 0 || now < readyExpiresAt) }
    function ReadyFor(now: Time): Duration {
      if !ReadyAt(now) || readySince == 0 || now < readySince then 0 else now - readySince
    }
  }

  /** The allocation that creation leaves behind, in evidence and in simulation. */
  function Fresh(id: Id, workload: Id, replica: int, node: Id, image: string,
                 resources: Resources, budget: Budget): Allocation
  {
    Allocation(id, workload, replica, node, image, resources, Created, false, false, map[], map[],
               "", 0, 0, 0, 0, budget, NO_BUDGET, false, "", [])
  }

  datatype HandoffPhase = Quiescent | Snapshotted | Transferred
  datatype Handoff = Handoff(origin: Id, to: Id, phase: HandoffPhase, snapshot: Id, checksum: string)

  datatype Volume = Volume(
    name: Id, node: Id, owner: Id, generation: nat, sizeMB: int, last: Id,
    snapshots: map<Id, string>, order: seq<Id>, restoredFrom: Id, verifiedAt: Time,
    verifiedSnapshot: Id, handoff: Option<Handoff>, backups: map<Id, string>)

  function FreshVolume(name: Id, node: Id, sizeMB: int): Volume {
    Volume(name, node, "", 0, sizeMB, "", map[], [], "", 0, "", None, map[])
  }

  datatype ProviderReach = ProviderReach(reachable: bool, observedAt: Time, expiresAt: Time, detail: string)

  datatype Node = Node(
    id: Id, labels: map<string, string>, capacity: Resources, used: Resources, images: set<string>,
    healthy: bool, domain: Id, cordoned: bool, cordonReason: string, zone: string, policy: string,
    providers: map<Id, ProviderReach>, budgetCapacity: Budget, budgetUsed: Budget)
  {
    function FailureDomain(): Id { if domain != "" then domain else id }
    predicate Schedulable() { healthy && !cordoned }
    predicate CanReach(provider: Id, now: Time) {
      provider in providers && providers[provider].reachable &&
      (providers[provider].expiresAt == 0 || now < providers[provider].expiresAt)
    }
  }

  datatype Route = Route(host: Id, workload: Id, port: int, exposure: string)
  datatype WorkQueue = WorkQueue(
    name: Id, workload: Id, depth: int, inFlight: int, maxWorkers: int, observedAt: Time)
  datatype Approval = Approval(
    id: Id, goal: Id, scope: string, issuedBy: string, granted: bool, issuedAt: Time, expiresAt: Time,
    revision: int, subject: string, rollback: string, reason: string)
  {
    predicate Valid(now: Time) { granted && (expiresAt == 0 || now < expiresAt) }
  }

  datatype DisruptionKind = ByStop | ByDelete | ByDrain
  datatype Disruption = Disruption(
    target: Id, workload: Id, node: Id, domain: Id, kind: DisruptionKind, at: Time)
  datatype Backoff = Backoff(failures: nat, until: Time, lastFailure: Time) {
    predicate Active(now: Time) { until != 0 && now < until }
  }

  datatype World = World(
    revision: nat, observedAt: Time, nodes: map<Id, Node>, allocations: map<Id, Allocation>,
    routes: map<Id, Route>, volumes: map<Id, Volume>, queues: map<Id, WorkQueue>,
    approvals: map<Id, Approval>, knownGood: map<Id, string>, disruptions: seq<Disruption>,
    backoff: map<Id, Backoff>)
  {
    /** `wall` is the clock reading used only by a world that was never observed. */
    function Now(wall: Time): Time { if observedAt == 0 then wall else observedAt }
  }

  // ---- Evidence: one constructor for each kind, grouped by what it is about ----

  datatype NodeFact =
    | ImagePresent(node: Id, image: string)
    | PolicyApplied(fingerprint: string)
    | ZonePublished(fingerprint: string)
    | ImagesCollected(reclaimed: seq<string>)
    | NodeCordoned(reason: string)
    | NodeUncordoned
    | NodeReachable
    | NodeUnreachable
    | ProviderReachable(node: Id, reachable: bool, detail: string)

  datatype VolumeFact =
    | VolumeCreated(node: Id, sizeMB: int)
    | VolumeAttached(allocation: Id)
    | VolumeDetached(allocation: Id)
    | VolumeSnapshotted(snapshot: Id, checksum: string)
    | VolumeBackedUp(snapshot: Id, location: string, checksum: string)
    | VolumeQuiesced(to: Id)
    | VolumeTransferred(checksum: string)
    | VolumeAdopted(node: Id)
    | SnapshotsPruned(removed: seq<Id>)
    | DatabaseBackedUp(lbl: Id, checksum: string)
    | BackupVerified(snapshot: Id, verified: bool)
    | VolumeRestored(snapshot: Id)

  datatype AllocationFact =
    | AllocationCreated(node: Id, workload: Id, image: string, replica: int, resources: Resources, budget: Budget)
    | SecretMounted(secret: Id, version: string)
    | NetworkAttached(address: string)
    | NetworkDetached
    | AllocationRunning
    | AllocationReady(ready: bool)
    | AgentReady(ready: bool)
    | AllocationStopped
    | AllocationFailed(exitCode: int, restarts: int)
    | AllocationDeleted
    | ToolsGranted(count: nat)
    | AgentSpent(spent: Budget)
    | AgentDraining(task: Option<Id>)
    | AllocationDrained

  datatype WorldFact =
    | RouteReachable(workload: Id, port: int, exposure: string)
    | RouteRemoved
    | QueueObserved(depth: int, inFlight: int)
    | ApprovalGranted(goal: Id, scope: string, issuedBy: string, revision: int,
                      reason: string, subject: string, rollback: string)
    | ApprovalRevoked
    | DiagnosisRecorded
    | UnknownKind

  datatype Fact = OfNode(n: NodeFact) | OfVolume(v: VolumeFact) | OfAllocation(a: AllocationFact) | OfWorld(o: WorldFact)

  datatype Evidence = Evidence(target: Id, observedAt: Time, expiresAt: Time, fact: Fact)

  // ---- Proposals ----

  datatype ActionKind =
    | PullImage | CreateAllocation | AttachNetwork | MountSecret | CreateVolume | AttachVolume
    | DetachVolume | SnapshotVolume | RestoreSnapshot | BackupSnapshot | QuiesceVolume | TransferVolume
    | AdoptVolume | PruneSnapshots | CollectImages | VerifyBackup | DatabaseBackup | StartAllocation
    | StopAllocation | DeleteAllocation | PublishRoute | ApplyPolicy | PublishZone | GrantTools
    | DrainAllocation | CordonNode | UncordonNode | ProbeReadiness

  /** A compiled ruleset or a service zone, reduced to what is checked about it. */
  datatype Ruleset = Ruleset(node: Id, table: string, rules: nat, fingerprint: string)
  datatype Zone = Zone(node: Id, fingerprint: string)

  datatype Action = Action(
    id: Id, kind: ActionKind, target: Id, workload: Id, node: Id, image: string, replica: int,
    resources: Resources, port: int, exposure: string, volume: Option<VolumeRef>, snapshot: Id,
    retain: int, dryRun: bool, zone: Option<Zone>, policy: Option<Ruleset>, protected: seq<string>,
    secret: Option<SecretRef>, tools: seq<ToolGrant>, budget: Budget, reason: string, dependsOn: seq<Id>)

  datatype CheckKind = CheckAllocationReady | CheckAgentReady | CheckRouteReachable | CheckAllocationDrained
  datatype Check = Check(kind: CheckKind, target: Id, want: bool)

  datatype Proposal = Proposal(
    id: Id, agent: Id, goal: Id, revision: nat, actions: seq<Action>, expected: seq<Check>)
}
