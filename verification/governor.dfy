/** The governor over whole runs: the budget is checked once for each plan, and still bounds every
    window of the history (control/disruption.go). */
module Governor {
  import opened Types
  import opened Ledger
  import opened Projection
  import opened Executor
  import opened Kernel
  import Exactness

  // ---- What one piece of evidence records ----

  predicate DisruptiveFact(f: Fact) {
    f == OfAllocation(AllocationStopped) || f == OfAllocation(AllocationDrained) || f == OfAllocation(AllocationDeleted)
  }

  function KindOf(f: Fact): DisruptionKind
    requires DisruptiveFact(f)
  {
    if f.a.AllocationStopped? then ByStop else if f.a.AllocationDrained? then ByDrain else ByDelete
  }

  /** The disruption that evidence adds to the history, if any. */
  function Recorded(w: World, e: Evidence): (ds: seq<Disruption>)
    ensures |ds| <= 1
  {
    if DisruptiveFact(e.fact) && e.target in w.allocations && e.observedAt != 0 && w.allocations[e.target].phase != Stopped
    then
      var a := w.allocations[e.target];
      [Disruption(a.id, a.workload, a.node, DomainOf(w.nodes, a.node), KindOf(e.fact), e.observedAt)]
    else []
  }

  lemma ProjectCharges(w: World, e: Evidence)
    requires Project(w, e).Ok?
    ensures Project(w, e).value.disruptions ==
            if Recorded(w, e) == [] then w.disruptions
            else Since(w.disruptions + Recorded(w, e), e.observedAt - RETENTION)
  {
    match e.fact
    case OfAllocation(f) => AllocationCharges(w, e, f);
    case _ =>
  }

  function ChargedWith(w: World, added: seq<Disruption>, at: Time): seq<Disruption> {
    if added == [] then w.disruptions else Since(w.disruptions + added, at - RETENTION)
  }

  lemma DeletionCharges(w: World, e: Evidence)
    requires e.fact == OfAllocation(AllocationDeleted)
    ensures ProjectDeleted(w, e).disruptions == ChargedWith(w, Recorded(w, e), e.observedAt)
  {
  }

  lemma LedgerCharges(w: World, e: Evidence, f: AllocationFact)
    requires e.fact == OfAllocation(f) && !f.AllocationDeleted? && e.target in w.allocations
    ensures LedgerAfter(w, w.allocations[e.target], e, f) == ChargedWith(w, Recorded(w, e), e.observedAt)
  {
  }

  lemma AllocationCharges(w: World, e: Evidence, f: AllocationFact)
    requires e.fact == OfAllocation(f) && ProjectAllocation(w, e, f).Ok?
    ensures ProjectAllocation(w, e, f).value.disruptions == ChargedWith(w, Recorded(w, e), e.observedAt)
  {
    match f
    case AllocationDeleted => DeletionCharges(w, e);
    case AllocationCreated(_, _, _, _, _, _) =>
    case _ => if e.target in w.allocations { LedgerCharges(w, e, f); }
  }

  // ---- Runs ----

  /** The world, and everything that was ever recorded as a disruption. */
  datatype State = State(world: World, history: seq<Disruption>)

  function Take(s: State, e: Evidence): Result<State> {
    var w :- Project(s.world, e);
    Ok(State(w, s.history + Recorded(s.world, e)))
  }

  predicate CreationFact(f: Fact) { f.OfAllocation? && f.a.AllocationCreated? }

  /** What an executor may report for an action: a disruption, or a creation, only if asked for. */
  predicate Answers(a: Action, e: Evidence) {
    && (DisruptiveFact(e.fact) ==> Disruptive(a.kind) && e.target == a.target)
    && (CreationFact(e.fact) ==> a.kind.CreateAllocation? && e.target == a.target)
  }

  /** The engine decides on the world as of its own clock, never earlier than the last observation. */
  function Seen(w: World, clock: Time): World { if clock > w.observedAt then w.(observedAt := clock) else w }

  /** While a plan is carried out: the report on its next action, or evidence from elsewhere. */
  datatype Item = Reported(e: Evidence) | Meanwhile(e: Evidence)

  datatype Round =
    | Observe(e: Evidence)
    | Decide(actor: Id, goal: Goal, proposal: Proposal, clock: Time, provenance: bool, items: seq<Item>)

  function ReportCount(items: seq<Item>): nat {
    if items == [] then 0 else ReportCount(items[..|items| - 1]) + if items[|items| - 1].Reported? then 1 else 0
  }

  /** Reports answer the plan's actions in order and are not dated before the decision; evidence from
      elsewhere disrupts nothing. */
  predicate Fitting(plan: seq<Action>, done: nat, item: Item, now: Time) {
    match item
    case Meanwhile(e) => !DisruptiveFact(e.fact)
    case Reported(e) => done < |plan| && Answers(plan[done], e) && e.observedAt >= now
  }

  function TakeItems(s: State, plan: seq<Action>, items: seq<Item>, now: Time): Result<State> {
    if items == [] then Ok(s)
    else
      var k := |items| - 1;
      var t :- TakeItems(s, plan, items[..k], now);
      if Fitting(plan, ReportCount(items[..k]), items[k], now) then Take(t, items[k].e) else Err
  }

  /** A plan is reported on, as far as it got, only if it was authorized. */
  ghost function Advance(p: Policy, s: State, r: Round): Result<State> {
    match r
    case Observe(e) => if DisruptiveFact(e.fact) then Err else Take(s, e)
    case Decide(actor, goal, proposal, clock, provenance, items) =>
      if clock > 0 && Authorized(p, actor, goal, Seen(s.world, clock), proposal, clock, provenance)
      then TakeItems(s, proposal.actions, items, Seen(s.world, clock).observedAt)
      else Err
  }

  ghost function Run(p: Policy, s: State, rounds: seq<Round>): Result<State> {
    if rounds == [] then Ok(s)
    else
      var t :- Run(p, s, rounds[..|rounds| - 1]);
      Advance(p, t, rounds[|rounds| - 1])
  }

  // ---- The worlds the promise is made for ----

  /** Every allocation is placed on a known node, and every node has a name. */
  ghost predicate Placed(w: World) {
    && (forall n :: n in w.nodes ==> n != "" && w.nodes[n].id == n)
    && (forall a :: a in w.allocations ==> w.allocations[a].node in w.nodes)
  }

  // ---- The ledger remembers enough ----

  /** Looking back from the last observation by at most the retention, the ledger is the history. */
  ghost predicate Remembers(s: State) {
    forall cutoff :: cutoff >= s.world.observedAt - RETENTION ==>
      Since(s.world.disruptions, cutoff) == Since(s.history, cutoff)
  }

  lemma ObservationAdvances(w: World, e: Evidence)
    requires Project(w, e).Ok?
    ensures Project(w, e).value.observedAt >= w.observedAt
    ensures Recorded(w, e) != [] ==> Project(w, e).value.observedAt >= e.observedAt
  {
    assert ProjectInto(w, e).value.observedAt == w.observedAt by {
      match e.fact
      case OfNode(f) =>
      case OfVolume(f) =>
      case OfAllocation(f) =>
      case OfWorld(f) =>
    }
  }

  lemma TakeRemembers(s: State, e: Evidence)
    requires Remembers(s) && Take(s, e).Ok?
    ensures Remembers(Take(s, e).value)
  {
    var t, added := Take(s, e).value, Recorded(s.world, e);
    ProjectCharges(s.world, e);
    ObservationAdvances(s.world, e);
    forall cutoff | cutoff >= t.world.observedAt - RETENTION
      ensures Since(t.world.disruptions, cutoff) == Since(t.history, cutoff)
    {
      StillRemembers(s.world.disruptions, s.history, added, e.observedAt - RETENTION, cutoff);
      assert added == [] ==> s.history + added == s.history;
    }
  }

  lemma StillRemembers(ledger: seq<Disruption>, history: seq<Disruption>, added: seq<Disruption>, prune: Time, cutoff: Time)
    requires Since(ledger, cutoff) == Since(history, cutoff)
    ensures cutoff >= prune ==> Since(Since(ledger + added, prune), cutoff) == Since(history + added, cutoff)
  {
    if cutoff >= prune { SinceTwice(ledger + added, prune, cutoff); }
    SinceConcat(ledger, added, cutoff);
    SinceConcat(history, added, cutoff);
  }

  // ---- Placement is stable while a plan is carried out ----

  /** Without creations, whatever is still there is where it was, and no node changed domain. */
  ghost predicate Settled(before: World, after: World) {
    && before.nodes.Keys == after.nodes.Keys
    && (forall n :: n in before.nodes ==> after.nodes[n].FailureDomain() == before.nodes[n].FailureDomain())
    && (forall a :: a in after.allocations ==>
          a in before.allocations && after.allocations[a].node == before.allocations[a].node)
  }

  lemma DeletionSettles(w: World, e: Evidence)
    ensures Settled(w, ProjectDeleted(w, e))
  {
    var after := ProjectDeleted(w, e);
    assert after.allocations == w.allocations || after.allocations == w.allocations - {e.target};
  }

  lemma KnownEvidenceSettles(w: World, e: Evidence, f: AllocationFact, after: World)
    requires after.nodes == w.nodes && e.target in w.allocations && AllocationStep(w.allocations[e.target], e, f).Ok?
    requires after.allocations == w.allocations[e.target := AllocationStep(w.allocations[e.target], e, f).value]
    ensures Settled(w, after)
  {
    StepStays(w.allocations[e.target], e, f);
  }

  lemma AllocationEvidenceSettles(w: World, e: Evidence, f: AllocationFact)
    requires ProjectAllocation(w, e, f).Ok? && !f.AllocationCreated?
    ensures Settled(w, ProjectAllocation(w, e, f).value)
  {
    if f.AllocationDeleted? { DeletionSettles(w, e); }
    else if e.target in w.allocations { KnownEvidenceSettles(w, e, f, ProjectAllocation(w, e, f).value); }
  }

  lemma StepStays(a: Allocation, e: Evidence, f: AllocationFact)
    requires AllocationStep(a, e, f).Ok?
    ensures AllocationStep(a, e, f).value.node == a.node
  {
  }

  lemma VolumeEvidenceSettles(w: World, e: Evidence, f: VolumeFact)
    requires ProjectVolume(w, e, f).Ok?
    ensures Settled(w, ProjectVolume(w, e, f).value)
  {
    var after := ProjectVolume(w, e, f).value;
    forall a | a in after.allocations ensures a in w.allocations && after.allocations[a].node == w.allocations[a].node {
      VolumeEvidenceLeavesNode(w, e, f, after, a);
    }
  }

  lemma VolumeEvidenceLeavesNode(w: World, e: Evidence, f: VolumeFact, after: World, a: Id)
    requires ProjectVolume(w, e, f) == Ok(after) && a in after.allocations
    ensures a in w.allocations && after.allocations[a].node == w.allocations[a].node
  {
  }

  lemma NodeEvidenceSettles(w: World, e: Evidence, f: NodeFact)
    requires ProjectNode(w, e, f).Ok?
    ensures Settled(w, ProjectNode(w, e, f).value)
  {
  }

  lemma ProjectSettles(w: World, e: Evidence)
    requires Project(w, e).Ok? && !CreationFact(e.fact)
    ensures Settled(w, Project(w, e).value)
  {
    match e.fact
    case OfAllocation(f) => AllocationEvidenceSettles(w, e, f);
    case OfVolume(f) => VolumeEvidenceSettles(w, e, f);
    case OfNode(f) => NodeEvidenceSettles(w, e, f);
    case _ =>
  }

  /** The same, except for the allocations created since. */
  ghost predicate SettledBut(before: World, after: World, made: set<Id>) {
    && before.nodes.Keys == after.nodes.Keys
    && (forall n :: n in before.nodes ==> after.nodes[n].FailureDomain() == before.nodes[n].FailureDomain())
    && (forall a :: a in after.allocations && a !in made ==>
          a in before.allocations && after.allocations[a].node == before.allocations[a].node)
  }

  lemma SettledAgain(a: World, b: World, c: World, made: set<Id>)
    requires SettledBut(a, b, made) && Settled(b, c)
    ensures SettledBut(a, c, made)
  {
  }

  lemma SettledAfterCreation(a: World, b: World, c: World, made: set<Id>, id: Id)
    requires SettledBut(a, b, made) && SettledBut(b, c, {id})
    ensures SettledBut(a, c, made + {id})
  {
  }

  lemma CreatedSettles(w: World, e: Evidence, f: AllocationFact, made: World)
    requires f.AllocationCreated?
    requires ProjectCreated(w, e, f.node, f.workload, f.image, f.replica, f.resources, f.budget) == Ok(made)
    ensures SettledBut(w, made, {e.target})
  {
    assert made.nodes.Keys == w.nodes.Keys;
    forall n | n in w.nodes ensures n in made.nodes && made.nodes[n].FailureDomain() == w.nodes[n].FailureDomain() {
      CreatedKeepsDomain(w, e, f, made, n);
    }
    forall a | a in made.allocations && a != e.target
      ensures a in w.allocations && made.allocations[a].node == w.allocations[a].node
    {
      CreatedKeepsOthers(w, e, f, made, a);
    }
  }

  lemma CreatedKeepsDomain(w: World, e: Evidence, f: AllocationFact, made: World, n: Id)
    requires f.AllocationCreated? && n in w.nodes
    requires ProjectCreated(w, e, f.node, f.workload, f.image, f.replica, f.resources, f.budget) == Ok(made)
    ensures made.nodes.Keys == w.nodes.Keys && made.nodes[n].FailureDomain() == w.nodes[n].FailureDomain()
  {
  }

  lemma CreatedKeepsOthers(w: World, e: Evidence, f: AllocationFact, made: World, a: Id)
    requires f.AllocationCreated? && a != e.target && a in made.allocations
    requires ProjectCreated(w, e, f.node, f.workload, f.image, f.replica, f.resources, f.budget) == Ok(made)
    ensures a in w.allocations && made.allocations[a].node == w.allocations[a].node
  {
  }

  lemma CreationSettles(w: World, e: Evidence)
    requires Project(w, e).Ok? && CreationFact(e.fact)
    ensures SettledBut(w, Project(w, e).value, {e.target})
  {
    var f := e.fact.a;
    CreatedSettles(w, e, f, ProjectCreated(w, e, f.node, f.workload, f.image, f.replica, f.resources, f.budget).value);
  }

  lemma ProjectKeepsPlaced(w: World, e: Evidence)
    requires Placed(w) && Project(w, e).Ok?
    ensures Placed(Project(w, e).value)
  {
    forall n | n in Project(w, e).value.nodes { Exactness.ProjectKeepsNames(w, e, n); }
    if CreationFact(e.fact) {
      CreationKeepsPlaced(w, e, e.fact.a);
    } else {
      ProjectSettles(w, e);
    }
  }

  lemma CreationKeepsPlaced(w: World, e: Evidence, f: AllocationFact)
    requires Placed(w) && f.AllocationCreated? && e.fact == OfAllocation(f) && Project(w, e).Ok?
    ensures var after := Project(w, e).value;
            forall a :: a in after.allocations ==> after.allocations[a].node in after.nodes
  {
    var made := ProjectCreated(w, e, f.node, f.workload, f.image, f.replica, f.resources, f.budget).value;
    var after := Project(w, e).value;
    assert after.allocations == made.allocations && after.nodes == made.nodes;
    forall a | a in after.allocations ensures after.allocations[a].node in after.nodes {
      CreatedIsPlaced(w, e, f, made, a);
    }
  }

  lemma CreatedIsPlaced(w: World, e: Evidence, f: AllocationFact, made: World, a: Id)
    requires f.AllocationCreated? && a in made.allocations
    requires f.node in w.nodes ==> w.nodes[f.node].id == f.node
    requires a in w.allocations ==> w.allocations[a].node in w.nodes
    requires ProjectCreated(w, e, f.node, f.workload, f.image, f.replica, f.resources, f.budget) == Ok(made)
    ensures made.allocations[a].node in made.nodes
  {
    assert made.nodes.Keys == w.nodes.Keys;
  }

  // ---- What a plan records ----

  lemma {:induction false} CountPrefix(plan: seq<Action>, k: nat)
    requires k <= |plan|
    ensures DisruptiveCount(plan[..k]) <= DisruptiveCount(plan)
    decreases |plan| - k
  {
    if k < |plan| {
      CountPrefix(plan, k + 1);
      assert plan[..k + 1][..k] == plan[..k];
    } else {
      assert plan[..k] == plan;
    }
  }

  /** A report records at most one disruption, and only for a disruptive action. */
  lemma RecordedIsCounted(w: World, plan: seq<Action>, done: nat, item: Item, now: Time)
    requires Fitting(plan, done, item, now) && done <= |plan|
    ensures item.Meanwhile? ==> Recorded(w, item.e) == []
    ensures item.Reported? ==> DisruptiveCount(plan[..done]) + |Recorded(w, item.e)| <= DisruptiveCount(plan[..done + 1])
    ensures forall d :: d in Recorded(w, item.e) ==> d.at >= now
  {
    if item.Reported? { assert plan[..done + 1][..done] == plan[..done]; }
  }

  ghost predicate NotBefore(added: seq<Disruption>, now: Time) { forall d :: d in added ==> d.at >= now }

  /** What carrying out a plan adds to the history is no more than the plan asked for. */
  lemma {:induction false} PlanCharges(s: State, plan: seq<Action>, items: seq<Item>, now: Time, t: State)
      returns (added: seq<Disruption>)
    requires Remembers(s) && TakeItems(s, plan, items, now) == Ok(t)
    ensures t.history == s.history + added && Remembers(t) && ReportCount(items) <= |plan|
    ensures |added| <= DisruptiveCount(plan[..ReportCount(items)]) && NotBefore(added, now)
    decreases |items|
  {
    if items == [] {
      added := [];
    } else {
      var k := |items| - 1;
      var mid := TakeItems(s, plan, items[..k], now).value;
      var before := PlanCharges(s, plan, items[..k], now, mid);
      RecordedIsCounted(mid.world, plan, ReportCount(items[..k]), items[k], now);
      TakeRemembers(mid, items[k].e);
      added := before + Recorded(mid.world, items[k].e);
    }
  }

  // ---- Where a plan's disruptions are ----

  /** The ids created while a plan is carried out. */
  function Made(items: seq<Item>): set<Id> {
    set i | 0 <= i < |items| && CreationFact(items[i].e.fact) :: items[i].e.target
  }

  /** Nothing created while the plan is carried out is disrupted by it afterwards. */
  ghost predicate Untangled(items: seq<Item>) {
    forall i, j :: 0 <= i < j < |items| && CreationFact(items[i].e.fact) && DisruptiveFact(items[j].e.fact) ==>
      items[i].e.target != items[j].e.target
  }

  /** Each new entry lies in a domain the decision looked at. */
  ghost predicate Foreseen(d: Disruption, w: World, plan: seq<Action>) {
    d.domain != "" && d.domain in ProposedDomains(w, plan)
  }

  ghost predicate AllForeseen(added: seq<Disruption>, w: World, plan: seq<Action>) {
    forall d :: d in added ==> Foreseen(d, w, plan)
  }

  lemma ForeseenConcat(a: seq<Disruption>, b: seq<Disruption>, w: World, plan: seq<Action>)
    requires AllForeseen(a, w, plan) && AllForeseen(b, w, plan)
    ensures AllForeseen(a + b, w, plan)
  {
    forall d | d in a + b ensures Foreseen(d, w, plan) { assert d in a || d in b; }
  }

  lemma RecordedIsForeseen(w: World, now: World, plan: seq<Action>, k: nat, e: Evidence, made: set<Id>)
    requires Placed(w) && SettledBut(w, now, made) && k < |plan| && Answers(plan[k], e)
    requires DisruptiveFact(e.fact) ==> e.target !in made
    ensures AllForeseen(Recorded(now, e), w, plan)
  {
    if Recorded(now, e) != [] {
      var a := now.allocations[e.target];
      assert a.node in w.nodes && w.nodes[a.node].id == a.node != "";
      assert DomainOf(now.nodes, a.node) == DomainOf(w.nodes, a.node) == ActionDomain(w, plan[k]);
    }
  }

  lemma TakeSettles(start: World, s: State, e: Evidence, t: State, made: set<Id>)
    requires SettledBut(start, s.world, made) && Placed(s.world) && Take(s, e) == Ok(t)
    ensures SettledBut(start, t.world, if CreationFact(e.fact) then made + {e.target} else made) && Placed(t.world)
  {
    ProjectKeepsPlaced(s.world, e);
    if CreationFact(e.fact) {
      CreationSettles(s.world, e);
      SettledAfterCreation(start, s.world, t.world, made, e.target);
    } else {
      ProjectSettles(s.world, e);
      SettledAgain(start, s.world, t.world, made);
    }
  }

  lemma MadeSnoc(items: seq<Item>)
    requires items != []
    ensures var k := |items| - 1;
            Made(items) == if CreationFact(items[k].e.fact) then Made(items[..k]) + {items[k].e.target} else Made(items[..k])
  {
    var k := |items| - 1;
    forall id | id in Made(items)
      ensures id in Made(items[..k]) || (CreationFact(items[k].e.fact) && id == items[k].e.target)
    {
      var i :| 0 <= i < |items| && CreationFact(items[i].e.fact) && items[i].e.target == id;
      if i < k { assert items[..k][i] == items[i]; }
    }
    forall id | id in Made(items[..k]) ensures id in Made(items) {
      var i :| 0 <= i < k && CreationFact(items[..k][i].e.fact) && items[..k][i].e.target == id;
      assert items[i] == items[..k][i];
    }
  }

  lemma {:induction false} ItemsSettle(s: State, plan: seq<Action>, items: seq<Item>, now: Time, t: State)
    requires Placed(s.world) && TakeItems(s, plan, items, now) == Ok(t)
    ensures SettledBut(s.world, t.world, Made(items)) && Placed(t.world)
    decreases |items|
  {
    if items != [] {
      var k := |items| - 1;
      var mid := TakeItems(s, plan, items[..k], now).value;
      ItemsSettle(s, plan, items[..k], now, mid);
      TakeSettles(s.world, mid, items[k].e, t, Made(items[..k]));
      MadeSnoc(items);
    }
  }

  lemma UntangledPrefix(items: seq<Item>)
    requires Untangled(items) && items != []
    ensures var k := |items| - 1;
            Untangled(items[..k]) && (DisruptiveFact(items[k].e.fact) ==> items[k].e.target !in Made(items[..k]))
  {
  }

  lemma ItemIsForeseen(s: State, mid: State, plan: seq<Action>, done: nat, item: Item, now: Time, made: set<Id>)
    requires Placed(s.world) && SettledBut(s.world, mid.world, made) && Fitting(plan, done, item, now)
    requires DisruptiveFact(item.e.fact) ==> item.e.target !in made
    ensures AllForeseen(Recorded(mid.world, item.e), s.world, plan)
  {
    if item.Reported? { RecordedIsForeseen(s.world, mid.world, plan, done, item.e, made); }
  }

  /** Whatever an untangled plan disrupts lies in the domains the decision looked at. */
  lemma {:induction false} PlanStaysForeseen(s: State, plan: seq<Action>, items: seq<Item>, now: Time, t: State,
                                             added: seq<Disruption>)
    requires Placed(s.world) && Untangled(items) && TakeItems(s, plan, items, now) == Ok(t) && t.history == s.history + added
    ensures AllForeseen(added, s.world, plan)
    decreases |items|
  {
    if items == [] {
      assert added == [];
    } else {
      var k := |items| - 1;
      var mid := TakeItems(s, plan, items[..k], now).value;
      UntangledPrefix(items);
      ItemsSettle(s, plan, items[..k], now, mid);
      ItemIsForeseen(s, mid, plan, ReportCount(items[..k]), items[k], now, Made(items[..k]));
      var before := Grown(s, plan, items[..k], now, mid);
      PlanStaysForeseen(s, plan, items[..k], now, mid, before);
      ForeseenConcat(before, Recorded(mid.world, items[k].e), s.world, plan);
      assert s.history + (before + Recorded(mid.world, items[k].e)) == t.history;
      assert added == t.history[|s.history|..] == before + Recorded(mid.world, items[k].e);
    }
  }

  lemma {:induction false} Grown(s: State, plan: seq<Action>, items: seq<Item>, now: Time, t: State)
      returns (added: seq<Disruption>)
    requires TakeItems(s, plan, items, now) == Ok(t)
    ensures t.history == s.history + added
    decreases |items|
  {
    added := [];
    if items != [] {
      var k := |items| - 1;
      var mid := TakeItems(s, plan, items[..k], now).value;
      var before := Grown(s, plan, items[..k], now, mid);
      added := before + Recorded(mid.world, items[k].e);
    }
  }

  // ---- Windows and cooldowns ----

  /** The entries dated within (lo, hi]. */
  function Within(history: seq<Disruption>, lo: Time, hi: Time): seq<Disruption> {
    if history == [] then []
    else
      var rest, d := Within(history[..|history| - 1], lo, hi), history[|history| - 1];
      if lo < d.at <= hi then rest + [d] else rest
  }

  ghost predicate WindowHolds(history: seq<Disruption>, window: Duration, max: int, end: Time) {
    |Within(history, end - window, end)| <= max
  }

  /** No interval as long as the window ever holds more than the budget. */
  ghost predicate WithinBudget(p: Policy, history: seq<Disruption>) {
    forall end: Time :: WindowHolds(history, Window(p), p.maxDisruptions, end)
  }

  ghost predicate Near(a: Disruption, b: Disruption, span: Duration) { -span < a.at - b.at < span }

  /** Any two disruptions closer than the cooldown hit the same failure domain. */
  ghost predicate OneDomainAtATime(p: Policy, history: seq<Disruption>) {
    forall i, j :: 0 <= i < j < |history| && Near(history[i], history[j], p.cooldown) ==>
      history[i].domain == history[j].domain
  }

  lemma {:induction false} WithinConcat(a: seq<Disruption>, b: seq<Disruption>, lo: Time, hi: Time)
    ensures Within(a + b, lo, hi) == Within(a, lo, hi) + Within(b, lo, hi)
  {
    if b == [] {
      assert a + b == a;
    } else {
      var front, d := b[..|b| - 1], b[|b| - 1];
      WithinConcat(a, front, lo, hi);
      assert (a + b)[..|a + b| - 1] == a + front;
      assert Within(a, lo, hi) + (Within(front, lo, hi) + [d]) == (Within(a, lo, hi) + Within(front, lo, hi)) + [d];
    }
  }

  lemma {:induction false} WithinBounds(history: seq<Disruption>, lo: Time, hi: Time, cutoff: Time)
    requires cutoff <= lo
    ensures |Within(history, lo, hi)| <= |Since(history, cutoff)| && |Within(history, lo, hi)| <= |history|
  {
    if history != [] { WithinBounds(history[..|history| - 1], lo, hi, cutoff); }
  }

  lemma {:induction false} WithinNone(history: seq<Disruption>, lo: Time, hi: Time)
    requires forall d :: d in history ==> d.at > hi
    ensures Within(history, lo, hi) == []
  {
    if history != [] { WithinNone(history[..|history| - 1], lo, hi); }
  }

  lemma WindowStillHolds(history: seq<Disruption>, added: seq<Disruption>, window: Duration, max: int, now: Time, end: Time)
    requires WindowHolds(history, window, max, end) && (forall d :: d in added ==> d.at >= now)
    requires |Since(history, now - window)| + |added| <= max
    ensures WindowHolds(history + added, window, max, end)
  {
    WithinConcat(history, added, end - window, end);
    if end < now {
      WithinNone(added, end - window, end);
    } else {
      WithinBounds(history, end - window, end, now - window);
      WithinBounds(added, end - window, end, end - window);
    }
  }

  lemma CooldownStillHolds(p: Policy, history: seq<Disruption>, added: seq<Disruption>, now: Time, domains: set<Id>)
    requires OneDomainAtATime(p, history)
    requires forall d :: d in added ==> d.at >= now && d.domain in domains
    requires forall x, y :: x in domains && y in domains ==> x == y
    requires forall x, d :: x in domains && d in history && d.at > now - p.cooldown ==> d.domain == x
    ensures OneDomainAtATime(p, history + added)
  {
    var h := history + added;
    forall i, j | 0 <= i < j < |h| && Near(h[i], h[j], p.cooldown) ensures h[i].domain == h[j].domain {
      if j >= |history| {
        assert h[j] in added;
        if i >= |history| { assert h[i] in added; } else { assert h[i] in history; }
      }
    }
  }

  // ---- The budget ----

  /** The budget is on, and looks back no further than the ledger remembers. */
  ghost predicate Budgeted(p: Policy) { p.maxDisruptions > 0 && Window(p) <= RETENTION }

  ghost predicate BudgetKept(p: Policy, s: State) { Remembers(s) && WithinBudget(p, s.history) }

  lemma SeenRecently(s: State, clock: Time, span: Duration)
    requires Remembers(s) && clock > 0 && 0 < span <= RETENTION
    ensures var seen := Seen(s.world, clock); Recent(seen, seen.observedAt, span) == Since(s.history, seen.observedAt - span)
  {
  }

  /** One check of a plan against the ledger is enough for every window its disruptions fall into. */
  lemma DecisionKeepsBudget(p: Policy, s: State, plan: seq<Action>, clock: Time, added: seq<Disruption>)
    requires Budgeted(p) && BudgetKept(p, s) && clock > 0
    requires var seen := Seen(s.world, clock);
             WithinDisruptionBudget(p, seen, plan, seen.observedAt) && NotBefore(added, seen.observedAt)
    requires |added| <= DisruptiveCount(plan)
    ensures WithinBudget(p, s.history + added)
  {
    if DisruptiveCount(plan) == 0 {
      assert s.history + added == s.history;
    } else {
      SeenRecently(s, clock, Window(p));
      forall end: Time ensures WindowHolds(s.history + added, Window(p), p.maxDisruptions, end) {
        WindowStillHolds(s.history, added, Window(p), p.maxDisruptions, Seen(s.world, clock).observedAt, end);
      }
    }
  }

  lemma AuthorizedWithinBudget(p: Policy, s: State, r: Round)
    requires r.Decide? && Advance(p, s, r).Ok?
    ensures var seen := Seen(s.world, r.clock);
            && r.clock > 0 && WithinDisruptionBudget(p, seen, r.proposal.actions, seen.observedAt)
            && TakeItems(s, r.proposal.actions, r.items, seen.observedAt) == Advance(p, s, r)
  {
    assert Seen(s.world, r.clock).Now(r.clock) == Seen(s.world, r.clock).observedAt;
  }

  lemma DecideKeepsBudget(p: Policy, s: State, r: Round, t: State)
    requires Budgeted(p) && BudgetKept(p, s) && r.Decide? && Advance(p, s, r) == Ok(t)
    ensures BudgetKept(p, t)
  {
    var plan, now := r.proposal.actions, Seen(s.world, r.clock).observedAt;
    AuthorizedWithinBudget(p, s, r);
    var added := PlanCharges(s, plan, r.items, now, t);
    CountPrefix(plan, ReportCount(r.items));
    DecisionKeepsBudget(p, s, plan, r.clock, added);
  }

  lemma ObserveKeepsHistory(s: State, e: Evidence, t: State)
    requires Remembers(s) && !DisruptiveFact(e.fact) && Take(s, e) == Ok(t)
    ensures Remembers(t) && t.history == s.history
  {
    TakeRemembers(s, e);
  }

  /** Over every run of observations and authorized plans, whatever the agents propose, however much of
      each plan is carried out, whatever is observed meanwhile and however late evidence is dated: no
      interval of the length of the window holds more disruptions than the budget. */
  lemma {:induction false} BudgetAlongRuns(p: Policy, s: State, rounds: seq<Round>)
    requires Budgeted(p) && BudgetKept(p, s) && Run(p, s, rounds).Ok?
    ensures BudgetKept(p, Run(p, s, rounds).value)
  {
    if rounds != [] {
      var k := |rounds| - 1;
      BudgetAlongRuns(p, s, rounds[..k]);
      var t, u := Run(p, s, rounds[..k]).value, Run(p, s, rounds).value;
      if rounds[k].Decide? { DecideKeepsBudget(p, t, rounds[k], u); } else { ObserveKeepsHistory(t, rounds[k].e, u); }
    }
  }

  // ---- The cooldown ----

  /** The cooldown is on, and looks back no further than the ledger remembers. */
  ghost predicate Cooled(p: Policy) { 0 < p.cooldown <= RETENTION }

  ghost predicate Named(history: seq<Disruption>) { forall d :: d in history ==> d.domain != "" }

  ghost predicate DomainsKept(p: Policy, s: State) {
    Remembers(s) && Placed(s.world) && Named(s.history) && OneDomainAtATime(p, s.history)
  }

  lemma OneMember(domains: set<Id>)
    requires |domains| <= 1
    ensures forall x, y :: x in domains && y in domains ==> x == y
  {
    forall x, y | x in domains && y in domains ensures x == y {
      assert |domains - {x}| == 0;
      assert y !in domains - {x};
    }
  }

  /** Every recent disruption lies in whatever domain the plan proposes to disrupt. */
  lemma RecentDomain(p: Policy, s: State, plan: seq<Action>, clock: Time)
    requires Cooled(p) && Remembers(s) && Named(s.history) && clock > 0 && DisruptiveCount(plan) > 0
    requires var seen := Seen(s.world, clock); WithinDisruptionBudget(p, seen, plan, seen.observedAt)
    ensures var seen := Seen(s.world, clock); var domains := ProposedDomains(seen, plan);
            && (forall x, y :: x in domains && y in domains ==> x == y)
            && forall x, d :: x in domains && d in s.history && d.at > seen.observedAt - p.cooldown ==> d.domain == x
  {
    var seen := Seen(s.world, clock);
    var now, domains := seen.observedAt, ProposedDomains(seen, plan);
    SeenRecently(s, clock, p.cooldown);
    OneMember(domains);
    forall x, d | x in domains && d in s.history && d.at > now - p.cooldown ensures d.domain == x {
      SinceMember(s.history, now - p.cooldown, d);
      assert d in Recent(seen, now, p.cooldown);
      assert d.domain in DisruptedDomains(seen, now, p.cooldown);
    }
  }

  lemma DecisionKeepsDomains(p: Policy, s: State, plan: seq<Action>, clock: Time, added: seq<Disruption>)
    requires Cooled(p) && DomainsKept(p, s) && clock > 0 && DisruptiveCount(plan) > 0
    requires var seen := Seen(s.world, clock);
             WithinDisruptionBudget(p, seen, plan, seen.observedAt) && NotBefore(added, seen.observedAt)
    requires AllForeseen(added, s.world, plan)
    ensures Named(s.history + added) && OneDomainAtATime(p, s.history + added)
  {
    var seen := Seen(s.world, clock);
    assert ProposedDomains(s.world, plan) == ProposedDomains(seen, plan);
    RecentDomain(p, s, plan, clock);
    CooldownStillHolds(p, s.history, added, seen.observedAt, ProposedDomains(seen, plan));
  }

  lemma DecideKeepsDomains(p: Policy, s: State, r: Round, t: State)
    requires Cooled(p) && DomainsKept(p, s) && r.Decide? && Untangled(r.items) && Advance(p, s, r) == Ok(t)
    ensures DomainsKept(p, t)
  {
    var plan, now := r.proposal.actions, Seen(s.world, r.clock).observedAt;
    AuthorizedWithinBudget(p, s, r);
    var added := PlanCharges(s, plan, r.items, now, t);
    CountPrefix(plan, ReportCount(r.items));
    ItemsSettle(s, plan, r.items, now, t);
    PlanStaysForeseen(s, plan, r.items, now, t, added);
    if DisruptiveCount(plan) == 0 {
      assert s.history + added == s.history;
    } else {
      DecisionKeepsDomains(p, s, plan, r.clock, added);
    }
  }

  lemma ObserveKeepsDomains(p: Policy, s: State, e: Evidence, t: State)
    requires DomainsKept(p, s) && !DisruptiveFact(e.fact) && Take(s, e) == Ok(t)
    ensures DomainsKept(p, t)
  {
    ObserveKeepsHistory(s, e, t);
    ProjectKeepsPlaced(s.world, e);
  }

  ghost predicate AllUntangled(rounds: seq<Round>) {
    forall i :: 0 <= i < |rounds| && rounds[i].Decide? ==> Untangled(rounds[i].items)
  }

  /** Over every run in which no plan disrupts what was created while it was carried out, two disruptions
      closer than the cooldown are in one failure domain. */
  lemma {:induction false} DomainsAlongRuns(p: Policy, s: State, rounds: seq<Round>)
    requires Cooled(p) && DomainsKept(p, s) && AllUntangled(rounds) && Run(p, s, rounds).Ok?
    ensures DomainsKept(p, Run(p, s, rounds).value)
  {
    if rounds != [] {
      var k := |rounds| - 1;
      DomainsAlongRuns(p, s, rounds[..k]);
      var t, u := Run(p, s, rounds[..k]).value, Run(p, s, rounds).value;
      if rounds[k].Decide? { DecideKeepsDomains(p, t, rounds[k], u); } else { ObserveKeepsDomains(p, t, rounds[k].e, u); }
    }
  }

  // ---- Which plans are untangled ----

  /** No disruptive action on an id that the plan creates earlier. */
  ghost predicate Orderly(plan: seq<Action>) {
    forall i, j :: 0 <= i < j < |plan| && plan[i].kind.CreateAllocation? && Disruptive(plan[j].kind) ==>
      plan[i].target != plan[j].target
  }

  /** Nothing is created from elsewhere while a plan is carried out. */
  ghost predicate NoneMadeMeanwhile(items: seq<Item>) {
    forall i :: 0 <= i < |items| && items[i].Meanwhile? ==> !CreationFact(items[i].e.fact)
  }

  lemma {:induction false} TakenIsFitting(s: State, plan: seq<Action>, items: seq<Item>, now: Time, i: nat)
    requires TakeItems(s, plan, items, now).Ok? && i < |items|
    ensures Fitting(plan, ReportCount(items[..i]), items[i], now)
    decreases |items|
  {
    var k := |items| - 1;
    if i < k {
      TakenIsFitting(s, plan, items[..k], now, i);
      assert items[..k][..i] == items[..i];
    }
  }

  lemma {:induction false} ReportsInOrder(items: seq<Item>, i: nat, j: nat)
    requires i < j <= |items|
    ensures ReportCount(items[..i]) + (if items[i].Reported? then 1 else 0) <= ReportCount(items[..j])
    decreases j
  {
    assert items[..j][..j - 1] == items[..j - 1];
    if i < j - 1 { ReportsInOrder(items, i, j - 1); }
  }

  /** A plan that disrupts nothing it creates is untangled however it is reported. */
  lemma OrderlyIsUntangled(s: State, plan: seq<Action>, items: seq<Item>, now: Time)
    requires Orderly(plan) && NoneMadeMeanwhile(items) && TakeItems(s, plan, items, now).Ok?
    ensures Untangled(items)
  {
    forall i, j | 0 <= i < j < |items| && CreationFact(items[i].e.fact) && DisruptiveFact(items[j].e.fact)
      ensures items[i].e.target != items[j].e.target
    {
      TakenIsFitting(s, plan, items, now, i);
      TakenIsFitting(s, plan, items, now, j);
      ReportsInOrder(items, i, j);
      assert plan[ReportCount(items[..i])].target == items[i].e.target;
    }
  }

  /** Destruction and creation are never granted to the same agent. */
  ghost predicate Separated(p: Policy) {
    forall agent, kind :: agent in p.grants && CreateAllocation in p.grants[agent] && kind in p.grants[agent] ==>
      !Disruptive(kind)
  }

  lemma {:induction false} GrantedKinds(goal: Goal, grants: set<ActionKind>, w: World, plan: seq<Action>, now: Time, i: nat)
    requires RunPlan(goal, grants, w, plan, now).Ok? && i < |plan|
    ensures plan[i].kind in grants
    decreases |plan|
  {
    if i < |plan| - 1 { GrantedKinds(goal, grants, w, plan[..|plan| - 1], now, i); }
  }

  lemma SeparatedIsOrderly(p: Policy, agent: Id, goal: Goal, w: World, plan: seq<Action>, now: Time)
    requires Separated(p) && agent in p.grants && RunPlan(goal, p.grants[agent], w, plan, now).Ok?
    ensures Orderly(plan)
  {
    forall i | 0 <= i < |plan| ensures plan[i].kind in p.grants[agent] {
      GrantedKinds(goal, p.grants[agent], w, plan, now, i);
    }
  }

  lemma SeparatedRoundIsUntangled(p: Policy, s: State, r: Round)
    requires Separated(p) && r.Decide? && NoneMadeMeanwhile(r.items) && Advance(p, s, r).Ok?
    ensures Untangled(r.items)
  {
    var seen, plan := Seen(s.world, r.clock), r.proposal.actions;
    AuthorizedWithinBudget(p, s, r);
    SeparatedIsOrderly(p, r.proposal.agent, r.goal, seen, plan, seen.Now(r.clock));
    OrderlyIsUntangled(s, plan, r.items, seen.observedAt);
  }

  ghost predicate QuietRounds(rounds: seq<Round>) {
    forall i :: 0 <= i < |rounds| && rounds[i].Decide? ==> NoneMadeMeanwhile(rounds[i].items)
  }

  lemma {:induction false} SeparatedRunIsUntangledAt(p: Policy, s: State, rounds: seq<Round>, i: nat)
    requires Separated(p) && Run(p, s, rounds).Ok? && i < |rounds| && rounds[i].Decide? && NoneMadeMeanwhile(rounds[i].items)
    ensures Untangled(rounds[i].items)
    decreases |rounds|
  {
    var k := |rounds| - 1;
    if i == k {
      SeparatedRoundIsUntangled(p, Run(p, s, rounds[..k]).value, rounds[k]);
    } else {
      assert rounds[..k][i] == rounds[i];
      SeparatedRunIsUntangledAt(p, s, rounds[..k], i);
    }
  }

  lemma SeparatedRunsAreUntangled(p: Policy, s: State, rounds: seq<Round>)
    requires Separated(p) && QuietRounds(rounds) && Run(p, s, rounds).Ok?
    ensures AllUntangled(rounds)
  {
    forall i | 0 <= i < |rounds| && rounds[i].Decide? ensures Untangled(rounds[i].items) {
      SeparatedRunIsUntangledAt(p, s, rounds, i);
    }
  }

  lemma DefaultPolicyIsSeparated()
    ensures Separated(DEFAULT_POLICY)
  {
  }

  /** Under the default policy, from a world with an empty ledger, both promises hold in every run in which
      nothing is created from elsewhere while a plan is carried out. */
  lemma DefaultPolicyAlongRuns(w: World, rounds: seq<Round>)
    requires Placed(w) && w.disruptions == [] && QuietRounds(rounds) && Run(DEFAULT_POLICY, State(w, []), rounds).Ok?
    ensures var s := Run(DEFAULT_POLICY, State(w, []), rounds).value;
            WithinBudget(DEFAULT_POLICY, s.history) && OneDomainAtATime(DEFAULT_POLICY, s.history)
  {
    CleanStart(DEFAULT_POLICY, w);
    DefaultPolicyIsSeparated();
    SeparatedRunsAreUntangled(DEFAULT_POLICY, State(w, []), rounds);
    BudgetAlongRuns(DEFAULT_POLICY, State(w, []), rounds);
    DomainsAlongRuns(DEFAULT_POLICY, State(w, []), rounds);
  }

  /** A world with an empty ledger keeps every promise to start with. */
  lemma CleanStart(p: Policy, w: World)
    requires Placed(w) && w.disruptions == [] && p.maxDisruptions >= 0
    ensures BudgetKept(p, State(w, [])) && DomainsKept(p, State(w, []))
  {
    forall end: Time ensures WindowHolds([], Window(p), p.maxDisruptions, end) {}
  }
}
