/** The node's durable work queue: leased claims, bounded redelivery, oldest first. */
module WorkQueue {
  import opened Types
  import opened Projection
  import opened Snapshots

  const CLAIM_LEASE := 15 * MINUTE
  const MAX_ATTEMPTS := 3

  datatype Claim = Claim(allocation: Id, expiresAt: Time)
  datatype Task = Task(id: Id, payload: string, enqueuedAt: Time, claim: Option<Claim>, attempts: nat)
  datatype Backlog = Backlog(tasks: map<Id, Task>, order: seq<Id>)

  datatype Limits = Limits(maxAttempts: int, lease: Duration) {
    function Attempts(): int { if maxAttempts > 0 then maxAttempts else MAX_ATTEMPTS }
    function Lease(): Duration { if lease > 0 then lease else CLAIM_LEASE }
  }

  const EMPTY := Backlog(map[], [])

  // ---- What may be handed out ----

  predicate Available(t: Task, now: Time) {
    t.claim.None? || (t.claim.value.expiresAt != 0 && now >= t.claim.value.expiresAt)
  }

  predicate Deliverable(t: Task, now: Time, l: Limits) { Available(t, now) && t.attempts < l.Attempts() }

  predicate Exhausted(t: Task, now: Time, l: Limits) { Available(t, now) && t.attempts >= l.Attempts() }

  predicate Holds(b: Backlog, allocation: Id, id: Id) {
    id in b.tasks && b.tasks[id].claim.Some? && b.tasks[id].claim.value.allocation == allocation
  }

  // ---- What each operation does to the backlog ----

  function AfterEnqueue(b: Backlog, id: Id, payload: string, now: Time): Backlog {
    if id == "" || id in b.tasks then b
    else Backlog(b.tasks[id := Task(id, payload, now, None, 0)], b.order + [id])
  }

  /** The first deliverable task in the listing. */
  function First(ids: seq<Id>, tasks: map<Id, Task>, now: Time, l: Limits): (r: Option<Id>)
    ensures r.Some? ==> r.value in tasks && Deliverable(tasks[r.value], now, l)
  {
    if ids == [] then None
    else if ids[0] in tasks && Deliverable(tasks[ids[0]], now, l) then Some(ids[0])
    else First(ids[1..], tasks, now, l)
  }

  function Next(b: Backlog, now: Time, l: Limits): Option<Id> { First(b.order, b.tasks, now, l) }

  function Given(t: Task, allocation: Id, until: Time): Task {
    t.(attempts := t.attempts + 1, claim := Some(Claim(allocation, until)))
  }

  function AfterClaim(b: Backlog, allocation: Id, now: Time, l: Limits): Backlog {
    match Next(b, now, l)
    case None => b
    case Some(id) =>
      if allocation == "" then b
      else b.(tasks := b.tasks[id := Given(b.tasks[id], allocation, now + l.Lease())])
  }

  function AfterAck(b: Backlog, allocation: Id, id: Id): Backlog {
    if Holds(b, allocation, id) then Backlog(b.tasks - {id}, RemoveFirst(b.order, id)) else b
  }

  function AfterRequeue(b: Backlog, allocation: Id, id: Id): Backlog {
    if Holds(b, allocation, id) then b.(tasks := b.tasks[id := b.tasks[id].(claim := None)]) else b
  }

  function Freed(t: Task, allocation: Id): Task {
    if t.claim.Some? && t.claim.value.allocation == allocation then t.(claim := None) else t
  }

  function AfterRelease(b: Backlog, allocation: Id): Backlog {
    b.(tasks := map id | id in b.tasks :: Freed(b.tasks[id], allocation))
  }

  // ---- The invariant of every queue ----

  /** `order` lists exactly the tasks, each once, and no task was handed out more often than allowed. */
  ghost predicate Listed(b: Backlog, l: Limits) {
    && NoDup(b.order) && Members(b.order) == b.tasks.Keys && "" !in b.tasks
    && forall id :: id in b.tasks ==> b.tasks[id].id == id && b.tasks[id].attempts <= l.Attempts()
  }

  lemma EnqueueKeepsListing(b: Backlog, l: Limits, id: Id, payload: string, now: Time)
    requires Listed(b, l)
    ensures Listed(AfterEnqueue(b, id, payload, now), l)
  {
    if id != "" && id !in b.tasks {
      MembersConcat(b.order, [id]);
      assert id !in Members(b.order);
    }
  }

  /** A claim gives out the oldest deliverable task, and nothing when no task is deliverable. */
  lemma {:induction false} FirstIsOldest(ids: seq<Id>, tasks: map<Id, Task>, now: Time, l: Limits)
    ensures var r := First(ids, tasks, now, l);
            && (r.None? <==> forall i :: 0 <= i < |ids| && ids[i] in tasks ==> !Deliverable(tasks[ids[i]], now, l))
            && (r.Some? ==> exists k ::
                  && 0 <= k < |ids| && ids[k] == r.value && r.value in tasks && Deliverable(tasks[r.value], now, l)
                  && forall i :: 0 <= i < k && ids[i] in tasks ==> !Deliverable(tasks[ids[i]], now, l))
  {
    if ids != [] && !(ids[0] in tasks && Deliverable(tasks[ids[0]], now, l)) {
      FirstIsOldest(ids[1..], tasks, now, l);
      var r := First(ids[1..], tasks, now, l);
      if r.Some? {
        var k :| && 0 <= k < |ids[1..]| && ids[1..][k] == r.value && r.value in tasks && Deliverable(tasks[r.value], now, l)
                 && forall i :: 0 <= i < k && ids[1..][i] in tasks ==> !Deliverable(tasks[ids[1..][i]], now, l);
        forall i | 0 <= i < k + 1 && ids[i] in tasks ensures !Deliverable(tasks[ids[i]], now, l) {
          if i > 0 { assert ids[1..][i - 1] == ids[i]; }
        }
        assert ids[k + 1] == r.value;
      } else {
        forall i | 0 <= i < |ids| && ids[i] in tasks ensures !Deliverable(tasks[ids[i]], now, l) {
          if i > 0 { assert ids[1..][i - 1] == ids[i]; }
        }
      }
    }
  }

  lemma ClaimKeepsListing(b: Backlog, l: Limits, allocation: Id, now: Time)
    requires Listed(b, l)
    ensures Listed(AfterClaim(b, allocation, now, l), l)
  {
  }

  lemma AckKeepsListing(b: Backlog, l: Limits, allocation: Id, id: Id)
    requires Listed(b, l)
    ensures Listed(AfterAck(b, allocation, id), l)
  {
    RemoveFirstIsFilter(b.order, id);
    WithoutMembers(b.order, {id});
  }

  lemma ReturnKeepsListing(b: Backlog, l: Limits, allocation: Id, id: Id)
    requires Listed(b, l)
    ensures Listed(AfterRequeue(b, allocation, id), l) && Listed(AfterRelease(b, allocation), l)
  {
  }

  // ---- Nothing is lost count of ----

  function Waiting(b: Backlog, now: Time, l: Limits): set<Id> {
    set id | id in b.tasks && Deliverable(b.tasks[id], now, l)
  }

  function InFlight(b: Backlog, now: Time): set<Id> {
    set id | id in b.tasks && !Available(b.tasks[id], now)
  }

  function Stalled(b: Backlog, now: Time, l: Limits): set<Id> {
    set id | id in b.tasks && Exhausted(b.tasks[id], now, l)
  }

  lemma EveryTaskIsCounted(b: Backlog, now: Time, l: Limits)
    ensures |Waiting(b, now, l)| + |InFlight(b, now)| + |Stalled(b, now, l)| == |b.tasks|
  {
    var w, f, s := Waiting(b, now, l), InFlight(b, now), Stalled(b, now, l);
    assert b.tasks.Keys == w + f + s;
    assert |w + f| == |w| + |f| && |w + f + s| == |w + f| + |s|;
  }

  // ---- Durability ----

  /** What is written to disk: the tasks, oldest first. */
  function Saved(ids: seq<Id>, tasks: map<Id, Task>): seq<Task> {
    if ids == [] then []
    else
      var rest, id := Saved(ids[..|ids| - 1], tasks), ids[|ids| - 1];
      if id in tasks then rest + [tasks[id]] else rest
  }

  function Restored(b: Backlog, t: Task): Backlog {
    Backlog(b.tasks[t.id := t], if t.id in b.tasks then b.order else b.order + [t.id])
  }

  function Loaded(file: seq<Task>): Result<Backlog> {
    if file == [] then Ok(EMPTY)
    else
      var b :- Loaded(file[..|file| - 1]);
      if file[|file| - 1].id == "" then Err else Ok(Restored(b, file[|file| - 1]))
  }

  function Among(tasks: map<Id, Task>, ids: seq<Id>): map<Id, Task> {
    map id | id in ids && id in tasks :: tasks[id]
  }

  ghost predicate Filed(ids: seq<Id>, tasks: map<Id, Task>) {
    forall id :: id in ids ==> id in tasks && id != "" && tasks[id].id == id
  }

  lemma AmongNext(tasks: map<Id, Task>, front: seq<Id>, id: Id)
    requires id in tasks
    ensures Among(tasks, front + [id]) == Among(tasks, front)[id := tasks[id]]
  {
  }

  lemma {:induction false} LoadingPrefix(ids: seq<Id>, tasks: map<Id, Task>)
    requires NoDup(ids) && Filed(ids, tasks)
    ensures Loaded(Saved(ids, tasks)) == Ok(Backlog(Among(tasks, ids), ids))
  {
    if ids != [] {
      var front, id := ids[..|ids| - 1], ids[|ids| - 1];
      assert Filed(front, tasks) by { forall x | x in front ensures x in ids {} }
      LoadingPrefix(front, tasks);
      assert ids == front + [id];
      assert id in ids && id !in front;
      AmongNext(tasks, front, id);
      var saved := Saved(ids, tasks);
      assert saved[..|saved| - 1] == Saved(front, tasks);
    } else {
      assert Among(tasks, []) == map[];
    }
  }

  /** What was saved loads as the same queue, in the same order. */
  lemma ReloadIsIdentity(b: Backlog, l: Limits)
    requires Listed(b, l)
    ensures Loaded(Saved(b.order, b.tasks)) == Ok(b)
  {
    forall id | id in b.order ensures id in b.tasks { assert id in Members(b.order); }
    assert Filed(b.order, b.tasks);
    LoadingPrefix(b.order, b.tasks);
    forall id | id in b.tasks ensures id in b.order { assert id in Members(b.order); }
    assert Among(b.tasks, b.order) == b.tasks;
  }

  // ---- The queue itself ----

  class Queue {
    const limits: Limits
    var tasks: map<Id, Task>
    var order: seq<Id>
    var file: seq<Task>

    ghost function View(): Backlog
      reads this`tasks, this`order
    {
      Backlog(tasks, order)
    }

    /** The file holds what is in memory. */
    ghost predicate Valid()
      reads this
    {
      Listed(View(), limits) && file == Saved(order, tasks)
    }

    constructor (limits: Limits, file: seq<Task>)
      ensures this.limits == limits && this.file == file && View() == EMPTY
    {
      this.limits, this.file, tasks, order := limits, file, map[], [];
    }

    /** Reads the file back; a task with no id is refused. */
    method Load() returns (ok: bool)
      requires View() == EMPTY
      modifies this`tasks, this`order
      ensures ok == Loaded(file).Ok? && (ok ==> View() == Loaded(file).value)
    {
      var k := 0;
      while k < |file|
        invariant 0 <= k <= |file| && file == old(file)
        invariant Loaded(file[..k]) == Ok(View())
      {
        assert file[..k + 1][..k] == file[..k];
        var task := file[k];
        if task.id == "" {
          LoadFails(file, k + 1);
          return false;
        }
        if task.id !in tasks { order := order + [task.id]; }
        tasks := tasks[task.id := task];
        k := k + 1;
      }
      assert file[..k] == file;
      return true;
    }

    method Persist()
      modifies this`file
      ensures file == Saved(order, tasks)
    {
      var lines: seq<Task>, k := [], 0;
      while k < |order|
        invariant 0 <= k <= |order| && order == old(order) && tasks == old(tasks)
        invariant lines == Saved(order[..k], tasks)
      {
        assert order[..k + 1][..k] == order[..k];
        if order[k] in tasks { lines := lines + [tasks[order[k]]]; }
        k := k + 1;
      }
      assert order[..k] == order;
      file := lines;
    }

    method Enqueue(id: Id, payload: string, now: Time) returns (ok: bool)
      requires Valid()
      modifies this
      ensures Valid() && View() == AfterEnqueue(old(View()), id, payload, now) && ok == (id != "")
    {
      EnqueueKeepsListing(View(), limits, id, payload, now);
      if id == "" { return false; }
      if id in tasks { return true; }
      tasks, order := tasks[id := Task(id, payload, now, None, 0)], order + [id];
      assert View() == AfterEnqueue(old(View()), id, payload, now);
      Persist();
      return true;
    }

    /** Walks the listing to the first task that may be handed out. */
    method Oldest(now: Time) returns (next: Option<Id>)
      ensures next == Next(View(), now, limits)
    {
      var k := 0;
      while k < |order|
        invariant 0 <= k <= |order|
        invariant First(order[k..], tasks, now, limits) == First(order, tasks, now, limits)
      {
        var id := order[k];
        assert order[k..][1..] == order[k + 1..];
        if id in tasks && Available(tasks[id], now) && tasks[id].attempts < limits.Attempts() { return Some(id); }
        k := k + 1;
      }
      return None;
    }

    method Claim(allocation: Id, now: Time) returns (task: Option<Task>, ok: bool)
      requires Valid()
      modifies this
      ensures Valid() && View() == AfterClaim(old(View()), allocation, now, limits) && ok == (allocation != "")
      ensures task == if !ok || Next(old(View()), now, limits).None? then None
                      else Some(Given(old(tasks)[Next(old(View()), now, limits).value], allocation, now + limits.Lease()))
    {
      ClaimKeepsListing(View(), limits, allocation, now);
      if allocation == "" { return None, false; }
      var next := Oldest(now);
      if next.None? { return None, true; }
      var id := next.value;
      tasks := tasks[id := Given(tasks[id], allocation, now + limits.Lease())];
      assert View() == AfterClaim(old(View()), allocation, now, limits);
      Persist();
      return Some(tasks[id]), true;
    }

    /** Acknowledging an absent task succeeds and changes nothing. */
    method Ack(allocation: Id, id: Id) returns (ok: bool)
      requires Valid()
      modifies this
      ensures Valid() && View() == AfterAck(old(View()), allocation, id)
      ensures ok == (id !in old(tasks) || Holds(old(View()), allocation, id))
    {
      AckKeepsListing(View(), limits, allocation, id);
      if id !in tasks { return true; }
      if tasks[id].claim.None? || tasks[id].claim.value.allocation != allocation { return false; }
      tasks := tasks - {id};
      order := RemoveString(order, id);
      assert View() == AfterAck(old(View()), allocation, id);
      Persist();
      return true;
    }

    method Requeue(allocation: Id, id: Id) returns (ok: bool)
      requires Valid()
      modifies this
      ensures Valid() && View() == AfterRequeue(old(View()), allocation, id) && ok == Holds(old(View()), allocation, id)
    {
      ReturnKeepsListing(View(), limits, allocation, id);
      if id !in tasks { return false; }
      if tasks[id].claim.None? || tasks[id].claim.value.allocation != allocation { return false; }
      tasks := tasks[id := tasks[id].(claim := None)];
      assert View() == AfterRequeue(old(View()), allocation, id);
      Persist();
      return true;
    }

    method ReleaseAllocation(allocation: Id, ids: seq<Id>)
      requires Valid() && Members(ids) == tasks.Keys
      modifies this
      ensures Valid() && View() == AfterRelease(old(View()), allocation)
    {
      ReturnKeepsListing(View(), limits, allocation, "");
      ghost var was := tasks;
      var changed, k := false, 0;
      while k < |ids|
        invariant 0 <= k <= |ids| && order == old(order) && file == old(file)
        invariant tasks == FreedAmong(was, ids[..k], allocation)
        invariant !changed ==> tasks == was
      {
        var id := ids[k];
        assert id in Members(ids);
        FreedNext(was, ids, k, allocation);
        if tasks[id].claim.Some? && tasks[id].claim.value.allocation == allocation {
          tasks, changed := tasks[id := tasks[id].(claim := None)], true;
        }
        k := k + 1;
      }
      assert ids[..k] == ids;
      FreedEverywhere(was, ids, allocation);
      assert View() == AfterRelease(old(View()), allocation);
      if changed { Persist(); }
    }

    /** The two counts a queue reports, over whatever order its map yields. */
    method Depth(ids: seq<Id>, now: Time) returns (waiting: nat, inFlight: nat)
      requires NoDup(ids) && Members(ids) == tasks.Keys
      ensures waiting == |Waiting(View(), now, limits)| && inFlight == |InFlight(View(), now)|
    {
      ghost var w, f := Waiting(View(), now, limits), InFlight(View(), now);
      waiting, inFlight := 0, 0;
      var k := 0;
      while k < |ids|
        invariant 0 <= k <= |ids|
        invariant waiting == |w * Members(ids[..k])| && inFlight == |f * Members(ids[..k])|
      {
        var id := ids[k];
        assert id in Members(ids);
        CountNext(w, ids, k);
        CountNext(f, ids, k);
        assert id in w <==> Deliverable(tasks[id], now, limits);
        assert id in f <==> !Available(tasks[id], now);
        if Available(tasks[id], now) {
          if tasks[id].attempts < limits.Attempts() { waiting := waiting + 1; }
        } else if tasks[id].claim.Some? {
          inFlight := inFlight + 1;
        }
        k := k + 1;
      }
      CountAll(w, ids);
      CountAll(f, ids);
    }

    /** The tasks nobody will be given again, oldest first. */
    method StalledTasks(now: Time) returns (stalled: seq<Id>)
      requires Valid()
      ensures NoDup(stalled) && Members(stalled) == Stalled(View(), now, limits)
      ensures |stalled| == |Stalled(View(), now, limits)|
    {
      ghost var gone := tasks.Keys - Stalled(View(), now, limits);
      stalled := [];
      var k := 0;
      while k < |order|
        invariant 0 <= k <= |order| && stalled == Without(order[..k], gone)
      {
        var id := order[k];
        assert id in Members(order);
        assert order[..k + 1][..k] == order[..k];
        if id in tasks && Available(tasks[id], now) && tasks[id].attempts >= limits.Attempts() {
          stalled := stalled + [id];
        }
        k := k + 1;
      }
      assert order[..k] == order;
      WithoutMembers(order, gone);
      SizeOfListing(stalled);
    }
  }

  function FreedAmong(tasks: map<Id, Task>, ids: seq<Id>, allocation: Id): map<Id, Task> {
    map id | id in tasks :: if id in ids then Freed(tasks[id], allocation) else tasks[id]
  }

  lemma FreedNext(tasks: map<Id, Task>, ids: seq<Id>, k: nat, allocation: Id)
    requires k < |ids| && ids[k] in tasks
    ensures var before, id := FreedAmong(tasks, ids[..k], allocation), ids[k];
            FreedAmong(tasks, ids[..k + 1], allocation) == before[id := Freed(before[id], allocation)]
  {
    assert ids[..k + 1] == ids[..k] + [ids[k]];
  }

  lemma FreedEverywhere(tasks: map<Id, Task>, ids: seq<Id>, allocation: Id)
    requires Members(ids) == tasks.Keys
    ensures FreedAmong(tasks, ids, allocation) == map id | id in tasks :: Freed(tasks[id], allocation)
  {
    forall id | id in tasks ensures id in ids { assert id in Members(ids); }
  }

  lemma CountNext(chosen: set<Id>, ids: seq<Id>, k: nat)
    requires NoDup(ids) && k < |ids|
    ensures |chosen * Members(ids[..k + 1])| == |chosen * Members(ids[..k])| + if ids[k] in chosen then 1 else 0
  {
    assert ids[..k + 1] == ids[..k] + [ids[k]];
    assert ids[k] !in Members(ids[..k]);
    var before := chosen * Members(ids[..k]);
    assert chosen * Members(ids[..k + 1]) == if ids[k] in chosen then before + {ids[k]} else before;
  }

  lemma CountAll(chosen: set<Id>, ids: seq<Id>)
    requires chosen <= Members(ids)
    ensures chosen * Members(ids[..|ids|]) == chosen
  {
    assert ids[..|ids|] == ids;
  }

  lemma {:induction false} SizeOfListing(ids: seq<Id>)
    requires NoDup(ids)
    ensures |ids| == |Members(ids)|
  {
    if ids != [] {
      var front := ids[..|ids| - 1];
      SizeOfListing(front);
      assert ids == front + [ids[|ids| - 1]];
      assert Members(ids) == Members(front) + {ids[|ids| - 1]};
    } else {
      EmptyMembers(ids);
    }
  }

  lemma {:induction false} LoadFails(file: seq<Task>, k: nat)
    requires k <= |file| && Loaded(file[..k]).Err?
    ensures Loaded(file).Err?
    decreases |file| - k
  {
    if k < |file| {
      assert file[..k + 1][..k] == file[..k];
      LoadFails(file, k + 1);
    } else {
      assert file[..k] == file;
    }
  }
}
