/** What an engine did, told as a script, and the governor's rounds behind it (control/engine.go, control/disruption.go). */
module Governed {
  import opened Types
  import opened Projection
  import Kernel
  import Governor

  datatype Decision = Decision(actor: Id, goal: Goal, seen: World, proposal: Proposal, wall: Time, provenance: bool)

  ghost predicate Approves(p: Kernel.Policy, d: Decision) {
    Kernel.Authorized(p, d.actor, d.goal, d.seen, d.proposal, d.wall, d.provenance)
  }

  predicate Steps(before: World, e: Evidence, after: World) { Project(before, e) == Ok(after) }

  predicate IsSeen(w: World, seen: World, wall: Time) { seen == Governor.Seen(w, wall) }

  // ---- The script ----

  /** A measurement projected, an approved plan begun, or the evidence of its next action projected. */
  datatype Entry = Probed(e: Evidence) | Began(d: Decision) | Answered(e: Evidence)

  function MoreEvidence(es: seq<Evidence>, x: Entry): seq<Evidence> { if x.Began? then es else es + [x.e] }

  function StillOpen(open: Option<Decision>, x: Entry): Option<Decision> {
    if x.Began? then Some(x.d) else if x.Probed? then None else open
  }

  function MoreCount(count: nat, x: Entry): nat { if x.Answered? then count + 1 else 0 }

  function EvidenceIn(script: seq<Entry>): seq<Evidence> {
    if script == [] then [] else MoreEvidence(EvidenceIn(script[..|script| - 1]), script[|script| - 1])
  }

  /** The plan being carried out. */
  function Open(script: seq<Entry>): Option<Decision> {
    if script == [] then None else StillOpen(Open(script[..|script| - 1]), script[|script| - 1])
  }

  /** How many of its actions were answered. */
  function Count(script: seq<Entry>): nat {
    if script == [] then 0 else MoreCount(Count(script[..|script| - 1]), script[|script| - 1])
  }

  /** An entry that may come next: a plan begins approved, on the world as it then is; only its own actions are
      answered. */
  ghost predicate Next(script: seq<Entry>, x: Entry, worlds: seq<World>, first: nat, approved: set<Decision>) {
    match x
    case Probed(e) => true
    case Began(d) =>
      var n := first + |EvidenceIn(script)|;
      d in approved && n < |worlds| && IsSeen(worlds[n], d.seen, d.wall)
    case Answered(e) => Open(script).Some? && Count(script) < |Open(script).value.proposal.actions|
  }

  ghost predicate Scripted(script: seq<Entry>, worlds: seq<World>, first: nat, approved: set<Decision>) {
    script == [] ||
    var k := |script| - 1;
    Scripted(script[..k], worlds, first, approved) && Next(script[..k], script[k], worlds, first, approved)
  }

  lemma ScriptSnoc(script: seq<Entry>, x: Entry, worlds: seq<World>, first: nat, approved: set<Decision>)
    requires Scripted(script, worlds, first, approved) && Next(script, x, worlds, first, approved)
    ensures Scripted(script + [x], worlds, first, approved) && EvidenceIn(script + [x]) == MoreEvidence(EvidenceIn(script), x)
    ensures Open(script + [x]) == StillOpen(Open(script), x) && Count(script + [x]) == MoreCount(Count(script), x)
  {
    assert (script + [x])[..|script|] == script;
  }

  lemma {:induction false} StillScripted(script: seq<Entry>, worlds: seq<World>, first: nat, approved: set<Decision>, more: seq<World>,
                                         wider: set<Decision>)
    requires Scripted(script, worlds, first, approved) && worlds <= more && approved <= wider
    ensures Scripted(script, more, first, wider)
    decreases |script|
  {
    if script != [] { StillScripted(script[..|script| - 1], worlds, first, approved, more, wider); }
  }

  // ---- The rounds behind it ----

  /** Measurements disrupt nothing; plans begin by a running clock; reports answer their action and are not dated
      before the decision. */
  ghost predicate Mannered(script: seq<Entry>, x: Entry) {
    match x
    case Probed(e) => !Governor.DisruptiveFact(e.fact)
    case Began(d) => d.wall > 0
    case Answered(e) =>
      var open := Open(script);
      open.Some? && Governor.Fitting(open.value.proposal.actions, Count(script), Governor.Reported(e), open.value.seen.observedAt)
  }

  ghost predicate Behaved(script: seq<Entry>) {
    script == [] || (Behaved(script[..|script| - 1]) && Mannered(script[..|script| - 1], script[|script| - 1]))
  }

  function Opened(d: Decision, items: seq<Governor.Item>): Governor.Round {
    Governor.Decide(d.actor, d.goal, d.proposal, d.wall, d.provenance, items)
  }

  function WithReport(r: Governor.Round, e: Evidence): Governor.Round {
    match r
    case Observe(_) => r
    case Decide(_, _, _, _, _, items) => r.(items := items + [Governor.Reported(e)])
  }

  function MoreRounds(rounds: seq<Governor.Round>, x: Entry): seq<Governor.Round> {
    match x
    case Probed(e) => rounds + [Governor.Observe(e)]
    case Began(d) => rounds + [Opened(d, [])]
    case Answered(e) => if rounds == [] then rounds else rounds[..|rounds| - 1] + [WithReport(rounds[|rounds| - 1], e)]
  }

  function RoundsOf(script: seq<Entry>): seq<Governor.Round> {
    if script == [] then [] else MoreRounds(RoundsOf(script[..|script| - 1]), script[|script| - 1])
  }

  /** The disruptions that evidence records on its way through the worlds. */
  function RecordedAlong(worlds: seq<World>, first: nat, es: seq<Evidence>): seq<Disruption>
    requires first + |es| < |worlds|
  {
    if es == [] then []
    else
      var k := |es| - 1;
      RecordedAlong(worlds, first, es[..k]) + Governor.Recorded(worlds[first + k], es[k])
  }

  /** Each world follows from the one before by one item of evidence. */
  ghost predicate Leads(worlds: seq<World>, first: nat, es: seq<Evidence>) {
    first + |es| < |worlds| && forall k :: 0 <= k < |es| ==> Led(worlds, first, es, k)
  }

  ghost predicate Led(worlds: seq<World>, first: nat, es: seq<Evidence>, k: nat)
    requires k < |es| && first + |es| < |worlds|
  {
    Steps(worlds[first + k], es[k], worlds[first + k + 1])
  }

  /** Where a run has come: to the world after so much evidence, with what it recorded on the way. */
  function Come(worlds: seq<World>, first: nat, h: seq<Disruption>, es: seq<Evidence>): Governor.State
    requires first + |es| < |worlds|
  {
    Governor.State(worlds[first + |es|], h + RecordedAlong(worlds, first, es))
  }

  lemma LeadsBefore(worlds: seq<World>, first: nat, es: seq<Evidence>, e: Evidence, all: seq<Evidence>)
    requires Leads(worlds, first, all) && all == es + [e]
    ensures Leads(worlds, first, es) && Steps(worlds[first + |es|], e, worlds[first + |es| + 1])
  {
    forall k | 0 <= k < |es| ensures Led(worlds, first, es, k) { assert Led(worlds, first, all, k) && all[k] == es[k]; }
    assert Led(worlds, first, all, |es|);
  }

  lemma ComeNext(worlds: seq<World>, first: nat, h: seq<Disruption>, es: seq<Evidence>, e: Evidence, all: seq<Evidence>)
    requires Leads(worlds, first, all) && all == es + [e]
    ensures first + |es| < |worlds| && Governor.Take(Come(worlds, first, h, es), e) == Ok(Come(worlds, first, h, all))
  {
    LeadsBefore(worlds, first, es, e, all);
    assert all[..|es|] == es;
    var s, ds := RecordedAlong(worlds, first, es), Governor.Recorded(worlds[first + |es|], e);
    assert (h + s) + ds == h + (s + ds);
  }

  lemma RunSnoc(p: Kernel.Policy, s: Governor.State, rounds: seq<Governor.Round>, r: Governor.Round, t: Governor.State)
    requires Governor.Run(p, s, rounds) == Ok(t)
    ensures Governor.Run(p, s, rounds + [r]) == Governor.Advance(p, t, r)
  {
    assert (rounds + [r])[..|rounds|] == rounds;
  }

  lemma ItemsSnoc(s: Governor.State, plan: seq<Action>, items: seq<Governor.Item>, now: Time, item: Governor.Item, t: Governor.State)
    requires Governor.TakeItems(s, plan, items, now) == Ok(t) && Governor.Fitting(plan, Governor.ReportCount(items), item, now)
    ensures Governor.TakeItems(s, plan, items + [item], now) == Governor.Take(t, item.e)
    ensures Governor.ReportCount(items + [item]) == Governor.ReportCount(items) + if item.Reported? then 1 else 0
  {
    assert (items + [item])[..|items|] == items;
  }

  /** The last round is the plan being carried out, decided on the world it was seen in, and reported on so far. */
  ghost predicate UnderWay(p: Kernel.Policy, s: Governor.State, rounds: seq<Governor.Round>, d: Decision, count: nat, t: Governor.State) {
    rounds != [] &&
    var k := |rounds| - 1;
    var before := Governor.Run(p, s, rounds[..k]);
    && rounds[k].Decide? && rounds[k] == Opened(d, rounds[k].items) && Governor.ReportCount(rounds[k].items) == count
    && before.Ok? && IsSeen(before.value.world, d.seen, d.wall) && d.wall > 0 && Approves(p, d)
    && Governor.TakeItems(before.value, d.proposal.actions, rounds[k].items, d.seen.observedAt) == Ok(t)
  }

  lemma BeginsRound(p: Kernel.Policy, s: Governor.State, rounds: seq<Governor.Round>, d: Decision, t: Governor.State)
    requires Governor.Run(p, s, rounds) == Ok(t) && IsSeen(t.world, d.seen, d.wall) && d.wall > 0 && Approves(p, d)
    ensures RunsTo(p, s, rounds + [Opened(d, [])], t, Some(d), 0)
  {
    RunSnoc(p, s, rounds, Opened(d, []), t);
    assert (rounds + [Opened(d, [])])[..|rounds|] == rounds;
  }

  lemma AdvanceOpen(p: Kernel.Policy, u: Governor.State, d: Decision, items: seq<Governor.Item>)
    requires IsSeen(u.world, d.seen, d.wall) && d.wall > 0 && Approves(p, d)
    ensures Governor.Advance(p, u, Opened(d, items)) == Governor.TakeItems(u, d.proposal.actions, items, d.seen.observedAt)
  {
  }

  lemma ContinuesRound(p: Kernel.Policy, s: Governor.State, rounds: seq<Governor.Round>, d: Decision, count: nat, t: Governor.State,
                       e: Evidence, next: Governor.State)
    requires UnderWay(p, s, rounds, d, count, t) && Governor.Take(t, e) == Ok(next)
    requires Governor.Fitting(d.proposal.actions, count, Governor.Reported(e), d.seen.observedAt)
    ensures var k := |rounds| - 1;
            var more := rounds[..k] + [WithReport(rounds[k], e)];
            RunsTo(p, s, more, next, Some(d), count + 1)
  {
    var k := |rounds| - 1;
    var items := rounds[k].items;
    var more, u := rounds[..k] + [WithReport(rounds[k], e)], Governor.Run(p, s, rounds[..k]).value;
    ItemsSnoc(u, d.proposal.actions, items, d.seen.observedAt, Governor.Reported(e), t);
    assert WithReport(rounds[k], e) == Opened(d, items + [Governor.Reported(e)]);
    RunSnoc(p, s, rounds[..k], WithReport(rounds[k], e), u);
    AdvanceOpen(p, u, d, items + [Governor.Reported(e)]);
    assert more[..k] == rounds[..k];
  }

  ghost predicate RunsTo(p: Kernel.Policy, s: Governor.State, rounds: seq<Governor.Round>, t: Governor.State, open: Option<Decision>, count: nat) {
    Governor.Run(p, s, rounds) == Ok(t) && (open.Some? ==> UnderWay(p, s, rounds, open.value, count, t))
  }

  /** The script's rounds are a run of the governor, from the first world to the last. */
  ghost predicate Tells(p: Kernel.Policy, worlds: seq<World>, first: nat, h: seq<Disruption>, script: seq<Entry>) {
    RunsThrough(p, worlds, first, h, EvidenceIn(script), RoundsOf(script), Open(script), Count(script))
  }

  ghost predicate RunsThrough(p: Kernel.Policy, worlds: seq<World>, first: nat, h: seq<Disruption>, es: seq<Evidence>,
                              rounds: seq<Governor.Round>, open: Option<Decision>, count: nat)
  {
    first + |es| < |worlds| && RunsTo(p, Governor.State(worlds[first], h), rounds, Come(worlds, first, h, es), open, count)
  }

  lemma RunsProbed(p: Kernel.Policy, worlds: seq<World>, first: nat, h: seq<Disruption>, es: seq<Evidence>, rounds: seq<Governor.Round>,
                   open: Option<Decision>, count: nat, e: Evidence)
    requires RunsThrough(p, worlds, first, h, es, rounds, open, count) && Leads(worlds, first, es + [e]) && !Governor.DisruptiveFact(e.fact)
    ensures RunsThrough(p, worlds, first, h, es + [e], rounds + [Governor.Observe(e)], None, 0)
  {
    ComeNext(worlds, first, h, es, e, es + [e]);
    RunSnoc(p, Governor.State(worlds[first], h), rounds, Governor.Observe(e), Come(worlds, first, h, es));
  }

  lemma RunsBegan(p: Kernel.Policy, worlds: seq<World>, first: nat, h: seq<Disruption>, es: seq<Evidence>, rounds: seq<Governor.Round>,
                  open: Option<Decision>, count: nat, d: Decision)
    requires RunsThrough(p, worlds, first, h, es, rounds, open, count) && d.wall > 0 && Approves(p, d)
    requires IsSeen(worlds[first + |es|], d.seen, d.wall)
    ensures RunsThrough(p, worlds, first, h, es, rounds + [Opened(d, [])], Some(d), 0)
  {
    BeginsRound(p, Governor.State(worlds[first], h), rounds, d, Come(worlds, first, h, es));
  }

  lemma RunsAnswered(p: Kernel.Policy, worlds: seq<World>, first: nat, h: seq<Disruption>, es: seq<Evidence>, rounds: seq<Governor.Round>,
                     d: Decision, count: nat, e: Evidence)
    requires RunsThrough(p, worlds, first, h, es, rounds, Some(d), count) && Leads(worlds, first, es + [e])
    requires Governor.Fitting(d.proposal.actions, count, Governor.Reported(e), d.seen.observedAt)
    ensures rounds != []
    ensures var k := |rounds| - 1;
            RunsThrough(p, worlds, first, h, es + [e], rounds[..k] + [WithReport(rounds[k], e)], Some(d), count + 1)
  {
    ComeNext(worlds, first, h, es, e, es + [e]);
    ContinuesRound(p, Governor.State(worlds[first], h), rounds, d, count, Come(worlds, first, h, es), e, Come(worlds, first, h, es + [e]));
  }

  /** What one more entry adds. */
  lemma EntryAdds(script: seq<Entry>, x: Entry, all: seq<Entry>)
    requires all == script + [x]
    ensures EvidenceIn(all) == MoreEvidence(EvidenceIn(script), x) && RoundsOf(all) == MoreRounds(RoundsOf(script), x)
    ensures Open(all) == StillOpen(Open(script), x) && Count(all) == MoreCount(Count(script), x)
  {
    assert all[..|script|] == script;
  }

  ghost predicate AllApproved(p: Kernel.Policy, approved: set<Decision>) {
    forall d {:trigger Approves(p, d)} :: d in approved ==> Approves(p, d)
  }

  /** An entry that a governor's run can go on with. */
  ghost predicate Goes(p: Kernel.Policy, open: Option<Decision>, count: nat, x: Entry, w: World) {
    match x
    case Probed(e) => !Governor.DisruptiveFact(e.fact)
    case Began(d) => d.wall > 0 && Approves(p, d) && IsSeen(w, d.seen, d.wall)
    case Answered(e) =>
      open.Some? && Governor.Fitting(open.value.proposal.actions, count, Governor.Reported(e), open.value.seen.observedAt)
  }

  lemma RunsNext(p: Kernel.Policy, worlds: seq<World>, first: nat, h: seq<Disruption>, es: seq<Evidence>, rounds: seq<Governor.Round>,
                 open: Option<Decision>, count: nat, x: Entry)
    requires RunsThrough(p, worlds, first, h, es, rounds, open, count) && Leads(worlds, first, MoreEvidence(es, x))
    requires Goes(p, open, count, x, worlds[first + |es|])
    ensures RunsThrough(p, worlds, first, h, MoreEvidence(es, x), MoreRounds(rounds, x), StillOpen(open, x), MoreCount(count, x))
  {
    match x
    case Probed(e) => RunsProbed(p, worlds, first, h, es, rounds, open, count, e);
    case Began(d) => RunsBegan(p, worlds, first, h, es, rounds, open, count, d);
    case Answered(e) => RunsAnswered(p, worlds, first, h, es, rounds, open.value, count, e);
  }

  lemma EntryGoes(p: Kernel.Policy, worlds: seq<World>, first: nat, script: seq<Entry>, x: Entry, approved: set<Decision>)
    requires Next(script, x, worlds, first, approved) && Mannered(script, x) && AllApproved(p, approved)
    requires first + |EvidenceIn(script)| < |worlds|
    ensures Goes(p, Open(script), Count(script), x, worlds[first + |EvidenceIn(script)|])
  {
    if x.Began? { assert Approves(p, x.d); }
  }

  lemma TellsNext(p: Kernel.Policy, worlds: seq<World>, first: nat, h: seq<Disruption>, front: seq<Entry>, x: Entry, script: seq<Entry>)
    requires Tells(p, worlds, first, h, front) && script == front + [x] && Leads(worlds, first, EvidenceIn(script))
    requires Goes(p, Open(front), Count(front), x, worlds[first + |EvidenceIn(front)|])
    ensures Tells(p, worlds, first, h, script)
  {
    EntryAdds(front, x, script);
    RunsNext(p, worlds, first, h, EvidenceIn(front), RoundsOf(front), Open(front), Count(front), x);
  }

  lemma NothingTold(p: Kernel.Policy, worlds: seq<World>, first: nat, h: seq<Disruption>)
    requires first < |worlds|
    ensures Tells(p, worlds, first, h, [])
  {
    assert h + [] == h;
  }

  lemma FrontLeads(worlds: seq<World>, first: nat, front: seq<Entry>, x: Entry, script: seq<Entry>)
    requires script == front + [x] && Leads(worlds, first, EvidenceIn(script))
    ensures Leads(worlds, first, EvidenceIn(front))
  {
    assert script[..|front|] == front;
    if !x.Began? { LeadsBefore(worlds, first, EvidenceIn(front), x.e, EvidenceIn(script)); }
  }

  /** A behaved script is a run of the governor. */
  lemma {:induction false} ScriptIsRun(p: Kernel.Policy, worlds: seq<World>, first: nat, h: seq<Disruption>, script: seq<Entry>,
                                       approved: set<Decision>)
    requires Scripted(script, worlds, first, approved) && Behaved(script) && Leads(worlds, first, EvidenceIn(script))
    requires AllApproved(p, approved)
    ensures Tells(p, worlds, first, h, script)
    decreases |script|
  {
    if script == [] {
      NothingTold(p, worlds, first, h);
    } else {
      var front, x := script[..|script| - 1], script[|script| - 1];
      assert script == front + [x];
      FrontLeads(worlds, first, front, x, script);
      ScriptIsRun(p, worlds, first, h, front, approved);
      EntryGoes(p, worlds, first, front, x, approved);
      TellsNext(p, worlds, first, h, front, x, script);
    }
  }

  /** Along a behaved script no window of the disruptions recorded holds more than the budget. */
  lemma ScriptKeepsBudget(p: Kernel.Policy, worlds: seq<World>, first: nat, h: seq<Disruption>, script: seq<Entry>, approved: set<Decision>)
    requires Scripted(script, worlds, first, approved) && Behaved(script) && Leads(worlds, first, EvidenceIn(script))
    requires AllApproved(p, approved)
    requires Governor.Budgeted(p) && Governor.BudgetKept(p, Governor.State(worlds[first], h))
    ensures Governor.BudgetKept(p, Come(worlds, first, h, EvidenceIn(script)))
  {
    ScriptIsRun(p, worlds, first, h, script, approved);
    Governor.BudgetAlongRuns(p, Governor.State(worlds[first], h), RoundsOf(script));
  }
}
