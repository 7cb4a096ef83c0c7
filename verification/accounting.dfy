/** Capacity accounting: what a node reports as used against the allocations placed on it. */
module Accounting {
  import opened Types
  import opened Sums
  import opened Projection

  /** What the allocations placed on a node hold, one dimension at a time. */
  ghost function CpuOn(allocations: map<Id, Allocation>, node: Id): map<Id, int> {
    map id | id in allocations && allocations[id].node == node :: allocations[id].resources.cpu
  }
  ghost function MemOn(allocations: map<Id, Allocation>, node: Id): map<Id, int> {
    map id | id in allocations && allocations[id].node == node :: allocations[id].resources.mem
  }

  /** The resources of every allocation placed on a node. */
  ghost function Held(allocations: map<Id, Allocation>, node: Id): Resources {
    Resources(Sum(CpuOn(allocations, node)), Sum(MemOn(allocations, node)))
  }

  lemma HeldWithout(allocations: map<Id, Allocation>, node: Id, id: Id)
    requires id in allocations
    ensures Held(allocations, node) ==
            if allocations[id].node == node then Held(allocations - {id}, node).Add(allocations[id].resources)
            else Held(allocations - {id}, node)
  {
    assert CpuOn(allocations - {id}, node) == CpuOn(allocations, node) - {id};
    assert MemOn(allocations - {id}, node) == MemOn(allocations, node) - {id};
    if allocations[id].node == node {
      SumSplit(CpuOn(allocations, node), id);
      SumSplit(MemOn(allocations, node), id);
    } else {
      assert CpuOn(allocations, node) - {id} == CpuOn(allocations, node);
      assert MemOn(allocations, node) - {id} == MemOn(allocations, node);
    }
  }

  lemma HeldWith(allocations: map<Id, Allocation>, node: Id, id: Id, a: Allocation)
    requires id !in allocations
    ensures Held(allocations[id := a], node) ==
            if a.node == node then Held(allocations, node).Add(a.resources) else Held(allocations, node)
  {
    HeldWithout(allocations[id := a], node, id);
    assert allocations[id := a] - {id} == allocations;
  }

  lemma HeldIsNatural(allocations: map<Id, Allocation>, node: Id)
    requires forall id :: id in allocations ==> Natural(allocations[id].resources)
    ensures Natural(Held(allocations, node))
  {
    SumIsNatural(CpuOn(allocations, node));
    SumIsNatural(MemOn(allocations, node));
  }

  predicate Natural(r: Resources) { 0 <= r.cpu && 0 <= r.mem }

  /** Nodes are filed under their own id, and no record counts backwards. */
  ghost predicate Countable(w: World) {
    && (forall n :: n in w.nodes ==> w.nodes[n].id == n && Natural(w.nodes[n].used))
    && (forall a :: a in w.allocations ==> Natural(w.allocations[a].resources))
  }

  /** Used, less what the placed allocations hold. */
  ghost function Spare(w: World, node: Id): Resources
    requires node in w.nodes
  {
    var u, h := w.nodes[node].used, Held(w.allocations, node);
    Resources(u.cpu - h.cpu, u.mem - h.mem)
  }

  /** The node accounts for at least what is placed on it. */
  ghost predicate Covered(w: World, node: Id) { node in w.nodes && Natural(Spare(w, node)) }

  ghost predicate Conserves(w: World, after: World, n: Id)
    requires n in w.nodes
  {
    Countable(after) && n in after.nodes && Spare(after, n) == Spare(w, n)
  }

  // ---- One step ----

  lemma StepKeepsPlacement(x: Allocation, e: Evidence, f: AllocationFact)
    requires AllocationStep(x, e, f).Ok?
    ensures var y := AllocationStep(x, e, f).value; y.node == x.node && y.resources == x.resources
  {
  }

  /** Only creation and deletion touch the placement or the size of an allocation. */
  lemma OtherEvidenceKeepsPlacement(w: World, e: Evidence, f: AllocationFact)
    requires ProjectAllocation(w, e, f).Ok? && !f.AllocationCreated? && !f.AllocationDeleted?
    ensures var after := ProjectAllocation(w, e, f).value; SamePlacement(w.allocations, after.allocations) && after.nodes == w.nodes
  {
    if e.target in w.allocations { StepKeepsPlacement(w.allocations[e.target], e, f); }
  }

  lemma VolumeEvidenceKeepsPlacement(w: World, e: Evidence, f: VolumeFact, a: Id)
    requires ProjectVolume(w, e, f).Ok?
    ensures var after := ProjectVolume(w, e, f).value;
            && after.allocations.Keys == w.allocations.Keys
            && (a in w.allocations ==> after.allocations[a].node == w.allocations[a].node &&
                                       after.allocations[a].resources == w.allocations[a].resources)
  {
  }

  lemma NodeEvidenceKeepsUse(w: World, e: Evidence, f: NodeFact, n: Id)
    requires ProjectNode(w, e, f).Ok? && n in w.nodes
    ensures var after := ProjectNode(w, e, f).value;
            after.nodes.Keys == w.nodes.Keys && after.nodes[n].used == w.nodes[n].used && after.nodes[n].id == w.nodes[n].id
  {
  }

  ghost predicate SamePlacement(x: map<Id, Allocation>, y: map<Id, Allocation>) {
    && x.Keys == y.Keys
    && forall a :: a in x ==> x[a].node == y[a].node && x[a].resources == y[a].resources
  }

  lemma SamePlacementHoldsSame(x: map<Id, Allocation>, y: map<Id, Allocation>, node: Id)
    requires SamePlacement(x, y)
    ensures Held(x, node) == Held(y, node)
  {
    assert CpuOn(x, node) == CpuOn(y, node);
    assert MemOn(x, node) == MemOn(y, node);
  }

  lemma CreateStaysCountable(w: World, e: Evidence, f: AllocationFact, after: World)
    requires Countable(w) && f.AllocationCreated?
    requires ProjectCreated(w, e, f.node, f.workload, f.image, f.replica, f.resources, f.budget) == Ok(after)
    ensures Countable(after)
  {
  }

  lemma CreateKeepsSpare(w: World, e: Evidence, f: AllocationFact, n: Id, after: World)
    requires Countable(w) && f.AllocationCreated? && n in w.nodes
    requires ProjectCreated(w, e, f.node, f.workload, f.image, f.replica, f.resources, f.budget) == Ok(after)
    ensures n in after.nodes && Spare(after, n) == Spare(w, n)
  {
    if e.target !in w.allocations {
      HeldWith(w.allocations, n, e.target,
               Fresh(e.target, f.workload, f.replica, w.nodes[f.node].id, f.image, f.resources, f.budget));
    }
  }

  lemma CreateConserves(w: World, e: Evidence, f: AllocationFact, n: Id)
    requires Countable(w) && f.AllocationCreated? && n in w.nodes
    requires ProjectCreated(w, e, f.node, f.workload, f.image, f.replica, f.resources, f.budget).Ok?
    ensures var after := ProjectCreated(w, e, f.node, f.workload, f.image, f.replica, f.resources, f.budget).value;
            Conserves(w, after, n)
  {
    var after := ProjectCreated(w, e, f.node, f.workload, f.image, f.replica, f.resources, f.budget).value;
    CreateStaysCountable(w, e, f, after);
    CreateKeepsSpare(w, e, f, n, after);
  }

  lemma DeleteConserves(w: World, e: Evidence, n: Id)
    requires Countable(w) && Covered(w, n)
    ensures var after := ProjectDeleted(w, e);
            Conserves(w, after, n)
  {
    if e.target in w.allocations {
      HeldWithout(w.allocations, n, e.target);
      HeldIsNatural(w.allocations - {e.target}, n);
    }
  }

  lemma OtherEvidenceConserves(w: World, e: Evidence, f: AllocationFact, n: Id)
    requires Countable(w) && n in w.nodes && ProjectAllocation(w, e, f).Ok?
    requires !f.AllocationCreated? && !f.AllocationDeleted?
    ensures var after := ProjectAllocation(w, e, f).value;
            Conserves(w, after, n)
  {
    OtherEvidenceKeepsPlacement(w, e, f);
    SamePlacementHoldsSame(w.allocations, ProjectAllocation(w, e, f).value.allocations, n);
  }

  lemma VolumeEvidenceConserves(w: World, e: Evidence, f: VolumeFact, n: Id)
    requires Countable(w) && n in w.nodes && ProjectVolume(w, e, f).Ok?
    ensures var after := ProjectVolume(w, e, f).value;
            Conserves(w, after, n)
  {
    forall a { VolumeEvidenceKeepsPlacement(w, e, f, a); }
    SamePlacementHoldsSame(w.allocations, ProjectVolume(w, e, f).value.allocations, n);
  }

  lemma NodeEvidenceConserves(w: World, e: Evidence, f: NodeFact, n: Id)
    requires Countable(w) && n in w.nodes && ProjectNode(w, e, f).Ok?
    ensures var after := ProjectNode(w, e, f).value;
            Conserves(w, after, n)
  {
    forall m | m in w.nodes { NodeEvidenceKeepsUse(w, e, f, m); }
  }

  lemma AllocationEvidenceConserves(w: World, e: Evidence, f: AllocationFact, n: Id)
    requires Countable(w) && Covered(w, n) && ProjectAllocation(w, e, f).Ok?
    ensures Conserves(w, ProjectAllocation(w, e, f).value, n)
  {
    if f.AllocationCreated? { CreateConserves(w, e, f, n); }
    else if f.AllocationDeleted? { DeleteConserves(w, e, n); }
    else { OtherEvidenceConserves(w, e, f, n); }
  }

  lemma StampConserves(w: World, mid: World, after: World, n: Id)
    requires n in w.nodes && Conserves(w, mid, n)
    requires after.nodes == mid.nodes && after.allocations == mid.allocations
    ensures Conserves(w, after, n)
  {
  }

  lemma ProjectConserves(w: World, e: Evidence, n: Id)
    requires Countable(w) && Covered(w, n) && Project(w, e).Ok?
    ensures Conserves(w, Project(w, e).value, n)
  {
    match e.fact {
      case OfNode(f) => NodeEvidenceConserves(w, e, f, n);
      case OfVolume(f) => VolumeEvidenceConserves(w, e, f, n);
      case OfAllocation(f) => AllocationEvidenceConserves(w, e, f, n);
      case OfWorld(f) => StampConserves(w, w, ProjectOther(w, e, f).value, n);
    }
    StampConserves(w, ProjectInto(w, e).value, Project(w, e).value, n);
  }

  // ---- Whole runs ----

  /** Over every run of evidence, Used minus what is placed stays exactly what it was: the
      clamp that keeps Used from going negative never bites. */
  lemma {:induction false} CapacityIsConserved(w: World, run: seq<Evidence>, n: Id)
    requires Countable(w) && Covered(w, n) && Replay(w, run).Ok?
    ensures var after := Replay(w, run).value;
            Conserves(w, after, n)
  {
    if run != [] {
      CapacityIsConserved(w, run[..|run| - 1], n);
      ProjectConserves(Replay(w, run[..|run| - 1]).value, run[|run| - 1], n);
    }
  }

  /** The accounting was right all along, for every run there could be. */
  ghost predicate AlwaysConserved(w: World, n: Id)
    requires n in w.nodes
  {
    forall run :: Replay(w, run).Ok? ==>
      n in Replay(w, run).value.nodes && Spare(Replay(w, run).value, n) == Spare(w, n)
  }

  function Deletion(id: Id): Evidence { Evidence(id, 0, 0, OfAllocation(AllocationDeleted)) }

  ghost predicate Emptied(w: World, n: Id) {
    n in w.nodes && Natural(w.nodes[n].used) && forall a :: a in w.allocations ==> w.allocations[a].node != n
  }

  ghost function PlacedOn(allocations: map<Id, Allocation>, n: Id): set<Id> {
    set a | a in allocations && allocations[a].node == n
  }

  lemma DeletionProjects(w: World, n: Id, id: Id)
    requires n in w.nodes && Natural(w.nodes[n].used) && id in w.allocations
    ensures var after := Project(w, Deletion(id));
            && after.Ok? && n in after.value.nodes && Natural(after.value.nodes[n].used)
            && after.value.allocations == w.allocations - {id}
  {
  }

  lemma OneFewer(w: World, n: Id) returns (id: Id, after: World)
    requires n in w.nodes && Natural(w.nodes[n].used) && PlacedOn(w.allocations, n) != {}
    ensures Project(w, Deletion(id)) == Ok(after) && n in after.nodes && Natural(after.nodes[n].used)
    ensures |PlacedOn(after.allocations, n)| < |PlacedOn(w.allocations, n)|
  {
    id :| id in PlacedOn(w.allocations, n);
    DeletionProjects(w, n, id);
    after := Project(w, Deletion(id)).value;
    assert PlacedOn(after.allocations, n) == PlacedOn(w.allocations, n) - {id};
  }

  lemma {:induction false} NodeCanBeEmptied(w: World, run: seq<Evidence>, now: World, n: Id) returns (longer: seq<Evidence>)
    requires Replay(w, run) == Ok(now) && n in now.nodes && Natural(now.nodes[n].used)
    ensures Replay(w, longer).Ok? && Emptied(Replay(w, longer).value, n)
    decreases |PlacedOn(now.allocations, n)|
  {
    longer := run;
    if PlacedOn(now.allocations, n) != {} {
      var id, after := OneFewer(now, n);
      ReplayExtend(w, run, Deletion(id));
      longer := NodeCanBeEmptied(w, run + [Deletion(id)], after, n);
    } else {
      NothingOn(now, n);
    }
  }

  lemma NothingOn(w: World, n: Id)
    requires n in w.nodes && Natural(w.nodes[n].used) && PlacedOn(w.allocations, n) == {}
    ensures Emptied(w, n)
  {
    forall a | a in w.allocations ensures w.allocations[a].node != n { assert a !in PlacedOn(w.allocations, n); }
  }

  lemma NothingPlacedHoldsNothing(allocations: map<Id, Allocation>, n: Id)
    requires forall a :: a in allocations ==> allocations[a].node != n
    ensures Held(allocations, n) == NOTHING
  {
    assert CpuOn(allocations, n) == map[];
    assert MemOn(allocations, n) == map[];
  }

  /** Conservation holds over every run exactly when the node started out accounting for at
      least what was placed on it. Otherwise emptying the node makes the clamp bite. */
  lemma ConservedExactlyWhenCovered(w: World, n: Id)
    requires Countable(w) && n in w.nodes
    ensures AlwaysConserved(w, n) <==> Covered(w, n)
  {
    if Covered(w, n) {
      forall run | Replay(w, run).Ok?
        ensures n in Replay(w, run).value.nodes && Spare(Replay(w, run).value, n) == Spare(w, n)
      {
        CapacityIsConserved(w, run, n);
      }
    } else {
      var run := NodeCanBeEmptied(w, [], w, n);
      NothingPlacedHoldsNothing(Replay(w, run).value.allocations, n);
    }
  }
}
