/** The broker that joins the work queue to the agent instances' task slots, and its runs. */
module Broker {
  import opened Types
  import opened WorkQueue
  import opened Projection

  // ---- Agent instances ----

  datatype Meter = Meter(budget: Budget, spent: Budget)

  function Clamped(b: Budget): Budget { Budget(Max(0, b.tokens), Max(0, b.cost), Max(0, b.wall), Max(0, b.calls)) }

  class Agents {
    var meters: map<Id, Meter>
    var draining: set<Id>
    var slots: map<Id, Id>

    constructor ()
      ensures meters == map[] && draining == {} && slots == map[]
    {
      meters, draining, slots := map[], {}, map[];
    }

    /** A metered instance with budget left, not draining, and holding nothing. */
    predicate Eligible(a: Id)
      reads this
    {
      a in meters && !meters[a].spent.Exhausts(meters[a].budget) && a !in draining && Idle(slots, a)
    }

    /** A replayed reservation keeps what was spent. */
    method Reserve(a: Id, budget: Budget)
      modifies this`meters
      ensures a in meters && meters == old(meters)[a := meters[a]] && meters[a].budget == budget
      ensures meters[a].spent == if a in old(meters) then old(meters)[a].spent else NO_BUDGET
    {
      if a !in meters {
        meters := meters[a := Meter(budget, NO_BUDGET)];
      } else {
        meters := meters[a := meters[a].(budget := budget)];
      }
    }

    /** Reported consumption only ever grows, and nothing is spent without a reservation. */
    method Spend(a: Id, delta: Budget) returns (spent: Budget, may: bool)
      modifies this`meters
      ensures a !in old(meters) ==> !may && spent == NO_BUDGET && meters == old(meters)
      ensures a in old(meters) ==>
        && meters == old(meters)[a := old(meters)[a].(spent := spent)]
        && old(meters)[a].spent.Fits(spent) && old(meters)[a].spent.Add(delta).Fits(spent)
        && may == !spent.Exhausts(old(meters)[a].budget)
    {
      if a !in meters { return NO_BUDGET, false; }
      spent := meters[a].spent.Add(Clamped(delta));
      meters := meters[a := meters[a].(spent := spent)];
      may := !spent.Exhausts(meters[a].budget);
    }

    method HoldTask(a: Id, task: Id)
      modifies this`slots
      ensures slots == old(slots)[a := task]
    {
      slots := slots[a := task];
    }

    method ReleaseTask(a: Id)
      modifies this`slots
      ensures slots == old(slots) - {a}
    {
      slots := slots - {a};
    }
  }

  predicate Idle(slots: map<Id, Id>, a: Id) { a !in slots || slots[a] == "" }

  // ---- The broker ----

  /** A queue and the slots beside it. */
  datatype Site = Site(backlog: Backlog, slots: map<Id, Id>)

  function SiteClaim(s: Site, a: Id, may: bool, now: Time, l: Limits): Site {
    var next := Next(s.backlog, now, l);
    if may && Idle(s.slots, a) && a != "" && next.Some? then
      Site(AfterClaim(s.backlog, a, now, l), s.slots[a := next.value])
    else s
  }

  /** Acknowledging a task that is gone still frees the caller's slot. */
  function SiteAck(s: Site, a: Id, id: Id): Site {
    if id !in s.backlog.tasks || Holds(s.backlog, a, id) then Site(AfterAck(s.backlog, a, id), s.slots - {a}) else s
  }

  function SiteRequeue(s: Site, a: Id, id: Id): Site {
    if Holds(s.backlog, a, id) then Site(AfterRequeue(s.backlog, a, id), s.slots - {a}) else s
  }

  function SiteRelease(s: Site, a: Id): Site { Site(AfterRelease(s.backlog, a), s.slots - {a}) }

  class QueueBroker {
    const queue: Queue
    const agents: Agents

    constructor (queue: Queue, agents: Agents)
      ensures this.queue == queue && this.agents == agents
    {
      this.queue, this.agents := queue, agents;
    }

    ghost function View(): Site
      reads queue, agents
    {
      Site(queue.View(), agents.slots)
    }

    /** Eligibility is decided before the queue is touched, so a refusal costs no attempt. */
    method Claim(a: Id, now: Time) returns (task: Option<Task>, ok: bool)
      requires queue.Valid()
      modifies queue, agents`slots
      ensures queue.Valid() && View() == SiteClaim(old(View()), a, old(agents.Eligible(a)), now, queue.limits)
      ensures ok == (old(agents.Eligible(a)) && a != "")
      ensures task.Some? <==> ok && Next(old(queue.View()), now, queue.limits).Some?
      ensures task.Some? ==> task.value.id in queue.tasks && queue.tasks[task.value.id] == task.value && agents.slots[a] == task.value.id
    {
      if !agents.Eligible(a) { return None, false; }
      task, ok := queue.Claim(a, now);
      if ok && task.Some? { agents.HoldTask(a, task.value.id); }
    }

    method Ack(a: Id, id: Id) returns (ok: bool)
      requires queue.Valid()
      modifies queue, agents`slots
      ensures queue.Valid() && View() == SiteAck(old(View()), a, id)
      ensures ok == (id !in old(queue.tasks) || Holds(old(queue.View()), a, id))
    {
      ok := queue.Ack(a, id);
      if ok { agents.ReleaseTask(a); }
    }

    method Requeue(a: Id, id: Id) returns (ok: bool)
      requires queue.Valid()
      modifies queue, agents`slots
      ensures queue.Valid() && View() == SiteRequeue(old(View()), a, id) && ok == Holds(old(queue.View()), a, id)
    {
      ok := queue.Requeue(a, id);
      if ok { agents.ReleaseTask(a); }
    }

    method Release(a: Id, ids: seq<Id>)
      requires queue.Valid() && Members(ids) == queue.tasks.Keys
      modifies queue, agents`slots
      ensures queue.Valid() && View() == SiteRelease(old(View()), a)
    {
      queue.ReleaseAllocation(a, ids);
      agents.ReleaseTask(a);
    }
  }

  // ---- The slot an instance's claim is visible in ----

  /** Every claimed task is the one in its holder's slot. */
  ghost predicate Visible(s: Site) {
    forall a, id :: Holds(s.backlog, a, id) ==> a in s.slots && s.slots[a] == id
  }

  datatype Call = Enqueue(id: Id, payload: string) | Claims(a: Id, may: bool) | Acks(a: Id, id: Id)
                | Requeues(a: Id, id: Id) | Releases(a: Id) | Restart

  /** A restart reloads the queue from disk and forgets the slots, which live in memory only. */
  function Does(s: Site, c: Call, now: Time, l: Limits): Site {
    match c
    case Enqueue(id, payload) => s.(backlog := AfterEnqueue(s.backlog, id, payload, now))
    case Claims(a, may) => SiteClaim(s, a, may, now, l)
    case Acks(a, id) => SiteAck(s, a, id)
    case Requeues(a, id) => SiteRequeue(s, a, id)
    case Releases(a) => SiteRelease(s, a)
    case Restart => Site(match Loaded(Saved(s.backlog.order, s.backlog.tasks)) case Ok(b) => b case Err => EMPTY, map[])
  }

  ghost predicate HoldsSome(b: Backlog, a: Id) { exists id :: Holds(b, a, id) }

  /** An acknowledgement names a queued task, or comes from an instance that holds none; a restart finds none held. */
  ghost predicate Careful(s: Site, c: Call) {
    match c
    case Acks(a, id) => id in s.backlog.tasks || !HoldsSome(s.backlog, a)
    case Restart => forall a :: !HoldsSome(s.backlog, a)
    case _ => true
  }

  lemma OnlyClaim(s: Site, a: Id, id: Id, other: Id)
    requires Visible(s) && Holds(s.backlog, a, id) && Holds(s.backlog, a, other)
    ensures id == other
  {
  }

  /** Claims stay visible through a call exactly when the call is careful. */
  lemma CarefulCallsStayVisible(s: Site, c: Call, now: Time, l: Limits)
    requires Listed(s.backlog, l) && Visible(s)
    ensures Visible(Does(s, c, now, l)) <==> Careful(s, c)
  {
    match c
    case Enqueue(id, payload) => EnqueueStaysVisible(s, id, payload, now);
    case Claims(a, may) => ClaimStaysVisible(s, a, may, now, l);
    case Acks(a, id) => AckStaysVisible(s, a, id);
    case Requeues(a, id) => ReturnStaysVisible(s, a, id);
    case Releases(a) => ReturnStaysVisible(s, a, "");
    case Restart =>
      ReloadIsIdentity(s.backlog, l);
      RestartStaysVisible(s);
  }

  lemma EnqueueStaysVisible(s: Site, id: Id, payload: string, now: Time)
    requires Visible(s)
    ensures Visible(s.(backlog := AfterEnqueue(s.backlog, id, payload, now)))
  {
    var after := AfterEnqueue(s.backlog, id, payload, now);
    forall a, x | Holds(after, a, x) ensures Holds(s.backlog, a, x) {}
  }

  lemma ReturnStaysVisible(s: Site, a: Id, id: Id)
    requires Visible(s)
    ensures Visible(SiteRequeue(s, a, id)) && Visible(SiteRelease(s, a))
  {
    var requeued, released := SiteRequeue(s, a, id), SiteRelease(s, a);
    forall b, x | Holds(requeued.backlog, b, x) ensures b in requeued.slots && requeued.slots[b] == x {
      assert Holds(s.backlog, b, x);
      if b == a && Holds(s.backlog, a, id) { OnlyClaim(s, a, id, x); }
    }
    forall b, x | Holds(released.backlog, b, x) ensures b in released.slots && released.slots[b] == x {
      assert Holds(s.backlog, b, x);
    }
  }

  lemma RestartStaysVisible(s: Site)
    ensures Visible(Site(s.backlog, map[])) <==> forall a :: !HoldsSome(s.backlog, a)
  {
    if Visible(Site(s.backlog, map[])) {
      forall a, id ensures !Holds(s.backlog, a, id) { if Holds(s.backlog, a, id) { assert false; } }
    } else {
      var a, id :| Holds(s.backlog, a, id);
      assert HoldsSome(s.backlog, a);
    }
  }

  lemma ClaimStaysVisible(s: Site, a: Id, may: bool, now: Time, l: Limits)
    requires Listed(s.backlog, l) && Visible(s)
    ensures Visible(SiteClaim(s, a, may, now, l))
  {
    var t := SiteClaim(s, a, may, now, l);
    forall b, id | Holds(t.backlog, b, id) ensures b in t.slots && t.slots[b] == id {
      if t != s && id != Next(s.backlog, now, l).value { assert Holds(s.backlog, b, id); }
    }
  }

  lemma AckStaysVisible(s: Site, a: Id, id: Id)
    requires Visible(s)
    ensures Visible(SiteAck(s, a, id)) <==> Careful(s, Acks(a, id))
  {
    var t := SiteAck(s, a, id);
    if !Careful(s, Acks(a, id)) {
      var x :| Holds(s.backlog, a, x);
      assert Holds(t.backlog, a, x);
    } else {
      forall b, x | Holds(t.backlog, b, x) ensures b in t.slots && t.slots[b] == x {
        assert Holds(s.backlog, b, x);
        if b == a && id in s.backlog.tasks && Holds(s.backlog, a, id) { OnlyClaim(s, a, id, x); }
      }
    }
  }

  // ---- Whole runs ----

  /** One hand-out of a task; given back, or still counting. */
  datatype Delivery = Delivery(to: Id, at: Time, returned: bool)

  /** A site, its clock, and every hand-out of each queued task since it was enqueued. */
  datatype State = State(site: Site, now: Time, given: map<Id, seq<Delivery>>)

  datatype Step = Tick(to: Time) | Calls(c: Call)

  function GivenBack(g: seq<Delivery>): seq<Delivery> {
    if g == [] then g else g[|g| - 1 := g[|g| - 1].(returned := true)]
  }

  function Notes(s: State, c: Call, l: Limits): map<Id, seq<Delivery>> {
    var b := s.site.backlog;
    match c
    case Enqueue(id, payload) => if id == "" || id in b.tasks then s.given else s.given[id := []]
    case Claims(a, may) =>
      var next := Next(b, s.now, l);
      if may && Idle(s.site.slots, a) && a != "" && next.Some? && next.value in s.given then
        s.given[next.value := s.given[next.value] + [Delivery(a, s.now, false)]]
      else s.given
    case Acks(a, id) => if Holds(b, a, id) then s.given - {id} else s.given
    case Requeues(a, id) =>
      if Holds(b, a, id) && id in s.given then s.given[id := GivenBack(s.given[id])] else s.given
    case Releases(a) => map id | id in s.given :: if Holds(b, a, id) then GivenBack(s.given[id]) else s.given[id]
    case Restart => s.given
  }

  /** Clocks do not run backwards. */
  function Then(s: State, step: Step, l: Limits): State {
    match step
    case Tick(to) => if to >= s.now then s.(now := to) else s
    case Calls(c) => State(Does(s.site, c, s.now, l), s.now, Notes(s, c, l))
  }

  function Run(start: Time, steps: seq<Step>, l: Limits): State {
    if steps == [] then State(Site(EMPTY, map[]), start, map[])
    else Then(Run(start, steps[..|steps| - 1], l), steps[|steps| - 1], l)
  }

  // ---- A retried acknowledgement ----

  /** A queue of one task, and its holder. */
  function Alone(id: Id, payload: string, a: Id, now: Time, l: Limits): Site {
    Site(Backlog(map[id := Task(id, payload, now, Some(Claim(a, now + l.Lease())), 1)], [id]), map[a := id])
  }

  lemma TakenAlone(id: Id, payload: string, a: Id, now: Time, l: Limits)
    requires id != "" && a != ""
    ensures Does(Does(Site(EMPTY, map[]), Enqueue(id, payload), now, l), Claims(a, true), now, l) == Alone(id, payload, a, now, l)
  {
    var s := Does(Site(EMPTY, map[]), Enqueue(id, payload), now, l);
    assert s.backlog == Backlog(map[id := Task(id, payload, now, None, 0)], [id]);
    assert Next(s.backlog, now, l) == Some(id);
  }

  lemma DoneAlone(id: Id, payload: string, a: Id, now: Time, l: Limits)
    ensures SiteAck(Alone(id, payload, a, now, l), a, id) == Site(EMPTY, map[])
  {
    var s := Alone(id, payload, a, now, l);
    assert Holds(s.backlog, a, id) && s.backlog.tasks - {id} == map[] && s.slots - {a} == map[];
    assert RemoveFirst([id], id) == [];
  }

  lemma HiddenAlone(id: Id, payload: string, a: Id, gone: Id, now: Time, l: Limits)
    requires gone != id
    ensures Visible(Alone(id, payload, a, now, l)) && !Visible(SiteAck(Alone(id, payload, a, now, l), a, gone))
  {
    var s := Alone(id, payload, a, now, l);
    assert Holds(SiteAck(s, a, gone).backlog, a, id) && a !in SiteAck(s, a, gone).slots;
  }

  lemma RunSnoc(start: Time, steps: seq<Step>, c: Call, l: Limits)
    ensures Run(start, steps + [Calls(c)], l).site == Does(Run(start, steps, l).site, c, Run(start, steps, l).now, l)
    ensures Run(start, steps + [Calls(c)], l).now == Run(start, steps, l).now
  {
    assert (steps + [Calls(c)])[..|steps|] == steps;
  }

  /** An instance takes x and acknowledges it, takes y, and then retries its acknowledgement of x: it loses sight of
      y, which it still holds. */
  lemma StaleAckHidesClaim(start: Time, x: Id, y: Id, a: Id, p: string, q: string, l: Limits)
    requires x != "" && y != "" && x != y && a != ""
    ensures var first := [Calls(Enqueue(x, p))] + [Calls(Claims(a, true))] + [Calls(Acks(a, x))];
            var second := first + [Calls(Enqueue(y, q))] + [Calls(Claims(a, true))];
            && Visible(Run(start, second, l).site) && Holds(Run(start, second, l).site.backlog, a, y)
            && !Visible(Run(start, second + [Calls(Acks(a, x))], l).site)
  {
    var s1 := [Calls(Enqueue(x, p))];
    var s2 := s1 + [Calls(Claims(a, true))];
    var s3 := s2 + [Calls(Acks(a, x))];
    var s4 := s3 + [Calls(Enqueue(y, q))];
    var s5 := s4 + [Calls(Claims(a, true))];
    assert [] + s1 == s1;
    RunSnoc(start, [], Enqueue(x, p), l);
    RunSnoc(start, s1, Claims(a, true), l);
    TakenAlone(x, p, a, start, l);
    RunSnoc(start, s2, Acks(a, x), l);
    DoneAlone(x, p, a, start, l);
    RunSnoc(start, s3, Enqueue(y, q), l);
    RunSnoc(start, s4, Claims(a, true), l);
    TakenAlone(y, q, a, start, l);
    RunSnoc(start, s5, Acks(a, x), l);
    HiddenAlone(y, q, a, x, start, l);
  }

  /** Between two hand-outs of a task the lease lapsed or the task was given back. */
  ghost predicate OneAtATime(g: seq<Delivery>, l: Limits) {
    forall i, j :: 0 <= i < j < |g| ==> g[i].returned || g[i].at + l.Lease() <= g[j].at
  }

  /** The task's claim and attempt count are what its hand-outs say. */
  ghost predicate Accounted(t: Task, g: seq<Delivery>, now: Time, l: Limits) {
    && t.attempts == |g|
    && t.claim == (if g == [] || g[|g| - 1].returned then None
                   else Some(Claim(g[|g| - 1].to, g[|g| - 1].at + l.Lease())))
    && (forall i :: 0 <= i < |g| ==> 0 <= g[i].at <= now)
    && OneAtATime(g, l)
  }

  ghost predicate AllAccounted(tasks: map<Id, Task>, given: map<Id, seq<Delivery>>, now: Time, l: Limits) {
    given.Keys == tasks.Keys && forall id :: id in tasks ==> Accounted(tasks[id], given[id], now, l)
  }

  ghost predicate Orderly(s: State, l: Limits) {
    Listed(s.site.backlog, l) && AllAccounted(s.site.backlog.tasks, s.given, s.now, l) && s.now >= 0
  }

  lemma AccountedPut(tasks: map<Id, Task>, given: map<Id, seq<Delivery>>, now: Time, l: Limits,
                     id: Id, t: Task, g: seq<Delivery>)
    requires AllAccounted(tasks, given, now, l) && Accounted(t, g, now, l)
    ensures AllAccounted(tasks[id := t], given[id := g], now, l)
  {
  }

  lemma AccountedLater(tasks: map<Id, Task>, given: map<Id, seq<Delivery>>, now: Time, later: Time, l: Limits)
    requires AllAccounted(tasks, given, now, l) && now <= later
    ensures AllAccounted(tasks, given, later, l)
  {
    forall id | id in tasks ensures Accounted(tasks[id], given[id], later, l) {
      assert Accounted(tasks[id], given[id], now, l);
    }
  }

  lemma HandingOut(t: Task, g: seq<Delivery>, a: Id, now: Time, l: Limits)
    requires Accounted(t, g, now, l) && now >= 0 && Available(t, now)
    ensures Accounted(Given(t, a, now + l.Lease()), g + [Delivery(a, now, false)], now, l)
  {
    var h := g + [Delivery(a, now, false)];
    forall i, j | 0 <= i < j < |h| ensures h[i].returned || h[i].at + l.Lease() <= h[j].at {
      if j == |g| && i < |g| - 1 { assert g[i].returned || g[i].at + l.Lease() <= g[|g| - 1].at; }
    }
  }

  lemma GivingBack(t: Task, g: seq<Delivery>, now: Time, l: Limits)
    requires Accounted(t, g, now, l)
    ensures Accounted(t.(claim := None), GivenBack(g), now, l)
  {
  }

  lemma ClaimIsAccounted(tasks: map<Id, Task>, given: map<Id, seq<Delivery>>, a: Id, now: Time, l: Limits, id: Id)
    requires AllAccounted(tasks, given, now, l) && now >= 0 && id in tasks && Available(tasks[id], now)
    ensures AllAccounted(tasks[id := Given(tasks[id], a, now + l.Lease())],
                         given[id := given[id] + [Delivery(a, now, false)]], now, l)
  {
    HandingOut(tasks[id], given[id], a, now, l);
    AccountedPut(tasks, given, now, l, id, Given(tasks[id], a, now + l.Lease()), given[id] + [Delivery(a, now, false)]);
  }

  function HandedOut(s: State, a: Id, l: Limits, id: Id): State
    requires id in s.site.backlog.tasks && id in s.given
  {
    var tasks := s.site.backlog.tasks;
    State(Site(Backlog(tasks[id := Given(tasks[id], a, s.now + l.Lease())], s.site.backlog.order), s.site.slots[a := id]),
          s.now, s.given[id := s.given[id] + [Delivery(a, s.now, false)]])
  }

  lemma ClaimHandsOut(s: State, a: Id, may: bool, l: Limits, id: Id)
    requires id in s.given && may && Idle(s.site.slots, a) && a != "" && Next(s.site.backlog, s.now, l) == Some(id)
    ensures Then(s, Calls(Claims(a, may)), l) == HandedOut(s, a, l, id)
  {
  }

  lemma ClaimChangesNothing(s: State, a: Id, may: bool, l: Limits)
    requires !(may && Idle(s.site.slots, a) && a != "" && Next(s.site.backlog, s.now, l).Some?)
    ensures Then(s, Calls(Claims(a, may)), l) == s
  {
  }

  lemma ClaimStaysOrderly(s: State, a: Id, may: bool, l: Limits)
    requires Orderly(s, l)
    ensures Orderly(Then(s, Calls(Claims(a, may)), l), l)
  {
    var next := Next(s.site.backlog, s.now, l);
    if may && Idle(s.site.slots, a) && a != "" && next.Some? {
      HandOutStaysOrderly(s, a, may, l, next.value);
    } else {
      ClaimChangesNothing(s, a, may, l);
    }
  }

  lemma HandOutAccounts(s: State, a: Id, l: Limits, id: Id)
    requires AllAccounted(s.site.backlog.tasks, s.given, s.now, l) && s.now >= 0
    requires id in s.site.backlog.tasks && Available(s.site.backlog.tasks[id], s.now)
    ensures var t := HandedOut(s, a, l, id); AllAccounted(t.site.backlog.tasks, t.given, t.now, l)
  {
    ClaimIsAccounted(s.site.backlog.tasks, s.given, a, s.now, l, id);
  }

  lemma HandOutLists(s: State, a: Id, l: Limits, id: Id)
    requires Listed(s.site.backlog, l) && id in s.given && a != "" && Next(s.site.backlog, s.now, l) == Some(id)
    ensures Listed(HandedOut(s, a, l, id).site.backlog, l)
  {
    ClaimKeepsListing(s.site.backlog, l, a, s.now);
  }

  lemma HandOutStaysOrderly(s: State, a: Id, may: bool, l: Limits, id: Id)
    requires Orderly(s, l)
    requires may && Idle(s.site.slots, a) && a != "" && Next(s.site.backlog, s.now, l) == Some(id)
    ensures Orderly(Then(s, Calls(Claims(a, may)), l), l)
  {
    ClaimHandsOut(s, a, may, l, id);
    HandOutLists(s, a, l, id);
    HandOutAccounts(s, a, l, id);
  }

  lemma AckStaysOrderly(s: State, a: Id, id: Id, l: Limits)
    requires Orderly(s, l)
    ensures Orderly(Then(s, Calls(Acks(a, id)), l), l)
  {
    AckKeepsListing(s.site.backlog, l, a, id);
  }

  lemma RequeueStaysOrderly(s: State, a: Id, id: Id, l: Limits)
    requires Orderly(s, l)
    ensures Orderly(Then(s, Calls(Requeues(a, id)), l), l)
  {
    var b := s.site.backlog;
    ReturnKeepsListing(b, l, a, id);
    if Holds(b, a, id) {
      GivingBack(b.tasks[id], s.given[id], s.now, l);
      AccountedPut(b.tasks, s.given, s.now, l, id, b.tasks[id].(claim := None), GivenBack(s.given[id]));
    }
  }

  lemma ReleaseStaysOrderly(s: State, a: Id, l: Limits)
    requires Orderly(s, l)
    ensures Orderly(Then(s, Calls(Releases(a)), l), l)
  {
    var t, b := Then(s, Calls(Releases(a)), l), s.site.backlog;
    ReturnKeepsListing(b, l, a, "");
    forall id | id in t.site.backlog.tasks ensures Accounted(t.site.backlog.tasks[id], t.given[id], t.now, l) {
      assert Accounted(b.tasks[id], s.given[id], s.now, l);
      if Holds(b, a, id) { GivingBack(b.tasks[id], s.given[id], s.now, l); }
    }
  }

  lemma EnqueueStaysOrderly(s: State, id: Id, payload: string, l: Limits)
    requires Orderly(s, l)
    ensures Orderly(Then(s, Calls(Enqueue(id, payload)), l), l)
  {
    EnqueueKeepsListing(s.site.backlog, l, id, payload, s.now);
    AccountedPut(s.site.backlog.tasks, s.given, s.now, l, id, Task(id, payload, s.now, None, 0), []);
  }

  lemma StepStaysOrderly(s: State, step: Step, l: Limits)
    requires Orderly(s, l)
    ensures Orderly(Then(s, step, l), l)
  {
    match step
    case Tick(to) => if to >= s.now { AccountedLater(s.site.backlog.tasks, s.given, s.now, to, l); }
    case Calls(c) =>
      match c
      case Enqueue(id, payload) => EnqueueStaysOrderly(s, id, payload, l);
      case Claims(a, may) => ClaimStaysOrderly(s, a, may, l);
      case Acks(a, id) => AckStaysOrderly(s, a, id, l);
      case Requeues(a, id) => RequeueStaysOrderly(s, a, id, l);
      case Releases(a) => ReleaseStaysOrderly(s, a, l);
      case Restart => ReloadIsIdentity(s.site.backlog, l);
  }

  lemma {:induction false} RunStaysOrderly(start: Time, steps: seq<Step>, l: Limits)
    requires start >= 0
    ensures Orderly(Run(start, steps, l), l)
  {
    if steps == [] {
      assert Members([]) == {};
    } else {
      RunStaysOrderly(start, steps[..|steps| - 1], l);
      StepStaysOrderly(Run(start, steps[..|steps| - 1], l), steps[|steps| - 1], l);
    }
  }

  /** In every run, restarts included: the listing is exact, every task is counted once, a queued task
      was handed out at most as often as allowed since it was enqueued, and never again before the
      lease of the hand-out before lapsed or its holder gave it back. */
  lemma QueueKeepsItsPromises(start: Time, steps: seq<Step>, l: Limits)
    requires start >= 0
    ensures var s := Run(start, steps, l);
            var b := s.site.backlog;
            && Listed(b, l) && s.given.Keys == b.tasks.Keys
            && |Waiting(b, s.now, l)| + |InFlight(b, s.now)| + |Stalled(b, s.now, l)| == |b.tasks|
            && forall id :: id in s.given ==> |s.given[id]| <= l.Attempts() && OneAtATime(s.given[id], l)
  {
    var s := Run(start, steps, l);
    RunStaysOrderly(start, steps, l);
    EveryTaskIsCounted(s.site.backlog, s.now, l);
    forall id | id in s.given ensures |s.given[id]| <= l.Attempts() && OneAtATime(s.given[id], l) {
      assert Accounted(s.site.backlog.tasks[id], s.given[id], s.now, l);
    }
  }

  ghost predicate AllCareful(start: Time, steps: seq<Step>, l: Limits) {
    forall k :: 0 <= k < |steps| && steps[k].Calls? ==> Careful(Run(start, steps[..k], l).site, steps[k].c)
  }

  /** In every run of careful calls a claimed task is the one in its holder's slot. */
  lemma {:induction false} CarefulRunsStayVisible(start: Time, steps: seq<Step>, l: Limits)
    requires start >= 0 && AllCareful(start, steps, l)
    ensures Visible(Run(start, steps, l).site)
  {
    if steps != [] {
      var k := |steps| - 1;
      forall i | 0 <= i < k && steps[..k][i].Calls? ensures Careful(Run(start, steps[..k][..i], l).site, steps[..k][i].c) {
        assert steps[..k][..i] == steps[..i];
      }
      CarefulRunsStayVisible(start, steps[..k], l);
      RunStaysOrderly(start, steps[..k], l);
      if steps[k].Calls? {
        CarefulCallsStayVisible(Run(start, steps[..k], l).site, steps[k].c, Run(start, steps[..k], l).now, l);
      }
    }
  }
}
