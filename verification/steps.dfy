/** The actions that put one replica in place, and their order (control/agents.go). */
module ReplicaPlan {
  import opened Types
  import opened Kernel
  import opened Names

  // ---- The actions ----

  function Plain(id: Id, kind: ActionKind, target: Id, workload: Id, node: Id, deps: seq<Id>): Action {
    Action(id, kind, target, workload, node, "", 0, NOTHING, 0, "", None, "", 0, false, None, None, [], None, [], NO_BUDGET, "", deps)
  }

  function PullSteps(goal: Goal, n: Node, id: Id): seq<Action> {
    if goal.workload.image in n.images then []
    else [Plain("pull-" + id, PullImage, goal.workload.image, "", n.id, []).(image := goal.workload.image)]
  }

  function CreateStep(goal: Goal, n: Node, id: Id, replica: int): Action {
    var deps := if goal.workload.image in n.images then [] else ["pull-" + id];
    Plain("create-" + id, CreateAllocation, id, goal.workload.name, n.id, deps)
      .(image := goal.workload.image, replica := replica, resources := goal.workload.resources,
        budget := if goal.workload.runtime.Some? then goal.workload.runtime.value.budget else NO_BUDGET)
  }

  function GrantSteps(goal: Goal, n: Node, id: Id): seq<Action> {
    if goal.workload.runtime.Some? && goal.workload.runtime.value.tools != [] then
      [Plain("grant-tools-" + id, GrantTools, id, goal.workload.name, n.id, ["create-" + id]).(tools := goal.workload.runtime.value.tools)]
    else []
  }

  /** A volume that does not exist is created, and then attached. */
  function VolumePair(goal: Goal, volumes: map<Id, Volume>, n: Node, id: Id, ref: VolumeRef): seq<Action> {
    var made := if ref.name in volumes then []
                else [Plain("create-volume-" + ref.name, CreateVolume, ref.name, goal.workload.name, n.id, []).(volume := Some(ref))];
    var deps := if ref.name in volumes then ["create-" + id] else ["create-" + id, "create-volume-" + ref.name];
    made + [Plain("attach-volume-" + ref.name + "-" + id, AttachVolume, id, goal.workload.name, n.id, deps).(volume := Some(ref))]
  }

  function VolumeSteps(goal: Goal, volumes: map<Id, Volume>, n: Node, id: Id, refs: seq<VolumeRef>): seq<Action> {
    if refs == [] then []
    else VolumeSteps(goal, volumes, n, id, refs[..|refs| - 1]) + VolumePair(goal, volumes, n, id, refs[|refs| - 1])
  }

  function MountStep(goal: Goal, n: Node, id: Id, ref: SecretRef): Action {
    Plain("mount-" + ref.name + "-" + id, MountSecret, id, goal.workload.name, n.id, ["create-" + id]).(secret := Some(ref))
  }

  function SecretSteps(goal: Goal, n: Node, id: Id, refs: seq<SecretRef>): seq<Action> {
    if refs == [] then [] else SecretSteps(goal, n, id, refs[..|refs| - 1]) + [MountStep(goal, n, id, refs[|refs| - 1])]
  }

  function NetworkSteps(goal: Goal, n: Node, id: Id): seq<Action> {
    if goal.workload.port <= 0 then []
    else [Plain("attach-" + id, AttachNetwork, id, goal.workload.name, n.id, ["create-" + id]).(port := goal.workload.port)]
  }

  function Ids(steps: seq<Action>, kind: ActionKind): seq<Id> {
    if steps == [] then []
    else
      var rest, a := Ids(steps[..|steps| - 1], kind), steps[|steps| - 1];
      if a.kind == kind then rest + [a.id] else rest
  }

  /** Everything the process needs before it starts. */
  function Preparations(goal: Goal, volumes: map<Id, Volume>, n: Node, id: Id): seq<Action> {
    GrantSteps(goal, n, id) + VolumeSteps(goal, volumes, n, id, goal.workload.volumes) +
    SecretSteps(goal, n, id, goal.workload.secrets) + NetworkSteps(goal, n, id)
  }

  /** The start waits for the creation and every preparation but the making of volumes. */
  function StartStep(goal: Goal, volumes: map<Id, Volume>, n: Node, id: Id): Action {
    var deps := ["create-" + id] + Ids(GrantSteps(goal, n, id), GrantTools) +
                Ids(VolumeSteps(goal, volumes, n, id, goal.workload.volumes), AttachVolume) +
                Ids(SecretSteps(goal, n, id, goal.workload.secrets), MountSecret) + Ids(NetworkSteps(goal, n, id), AttachNetwork);
    Plain("start-" + id, StartAllocation, id, goal.workload.name, n.id, deps)
  }

  function AfterCreate(goal: Goal, volumes: map<Id, Volume>, n: Node, id: Id): seq<Action> {
    Preparations(goal, volumes, n, id) + [StartStep(goal, volumes, n, id)]
  }

  function ReplicaSteps(goal: Goal, volumes: map<Id, Volume>, n: Node, replica: int): seq<Action> {
    var id := AllocationID(goal.workload.name, replica);
    PullSteps(goal, n, id) + ([CreateStep(goal, n, id, replica)] + AfterCreate(goal, volumes, n, id))
  }

  // ---- Ids and dependencies ----

  function IdSet(steps: seq<Action>): set<Id> { set i | 0 <= i < |steps| :: steps[i].id }

  lemma CompletedIsIn(steps: seq<Action>, id: Id)
    ensures Completed(steps, id) <==> id in IdSet(steps)
  {
  }

  lemma IdSetConcat(a: seq<Action>, b: seq<Action>)
    ensures IdSet(a + b) == IdSet(a) + IdSet(b)
  {
    forall id | id in IdSet(a) ensures id in IdSet(a + b) {
      var i :| 0 <= i < |a| && a[i].id == id;
      assert (a + b)[i].id == id;
    }
    forall id | id in IdSet(b) ensures id in IdSet(a + b) {
      var i :| 0 <= i < |b| && b[i].id == id;
      assert (a + b)[|a| + i].id == id;
    }
  }

  /** Whatever an action depends on is done before it. */
  ghost predicate Follows(done: set<Id>, steps: seq<Action>) {
    forall k, d :: 0 <= k < |steps| && d in steps[k].dependsOn ==> d in done || d in IdSet(steps[..k])
  }

  lemma FollowsAt(done: set<Id>, steps: seq<Action>, k: nat, d: Id)
    requires Follows(done, steps) && k < |steps| && d in steps[k].dependsOn
    ensures d in done || d in IdSet(steps[..k])
  {
  }

  ghost predicate DependsOnly(done: set<Id>, steps: seq<Action>) {
    forall k, d :: 0 <= k < |steps| && d in steps[k].dependsOn ==> d in done
  }

  lemma DependsOnlyFollows(done: set<Id>, more: set<Id>, steps: seq<Action>)
    requires DependsOnly(done, steps) && done <= more
    ensures Follows(more, steps)
  {
  }

  lemma FollowsWider(done: set<Id>, more: set<Id>, steps: seq<Action>)
    requires Follows(done, steps) && done <= more
    ensures Follows(more, steps)
  {
  }

  lemma FollowsConcat(done: set<Id>, a: seq<Action>, b: seq<Action>)
    requires Follows(done, a) && Follows(done + IdSet(a), b)
    ensures Follows(done, a + b)
  {
    forall k, d | 0 <= k < |a + b| && d in (a + b)[k].dependsOn ensures d in done || d in IdSet((a + b)[..k]) {
      if k < |a| {
        assert (a + b)[..k] == a[..k] && d in a[k].dependsOn;
      } else {
        var m := k - |a|;
        assert (a + b)[..k] == a + b[..m] && d in b[m].dependsOn;
        assert d in done + IdSet(a) || d in IdSet(b[..m]);
        IdSetConcat(a, b[..m]);
      }
    }
  }

  /** No two actions share an id. */
  ghost predicate Distinct(steps: seq<Action>) {
    forall i, j :: 0 <= i < j < |steps| ==> steps[i].id != steps[j].id
  }

  lemma DistinctConcat(a: seq<Action>, b: seq<Action>)
    requires Distinct(a) && Distinct(b) && IdSet(a) !! IdSet(b)
    ensures Distinct(a + b)
  {
    forall i, j | 0 <= i < j < |a + b| ensures (a + b)[i].id != (a + b)[j].id {
      if i < |a| <= j { assert a[i].id in IdSet(a) && b[j - |a|].id in IdSet(b); }
    }
  }

  /** Every action has an id and a kind that the placement agent is granted. */
  ghost predicate Placing(steps: seq<Action>) {
    forall i :: 0 <= i < |steps| ==> steps[i].id != "" && steps[i].kind in PLACEMENT_GRANTS
  }

  lemma PlacingConcat(a: seq<Action>, b: seq<Action>)
    requires Placing(a) && Placing(b)
    ensures Placing(a + b)
  {
  }

  /** The kernel finds each action in its turn. */
  ghost predicate AllInTurn(plan: seq<Action>) {
    forall k :: 0 <= k < |plan| ==> InTurn(PLACEMENT_GRANTS, plan[..k], plan[k])
  }

  ghost predicate InOrder(steps: seq<Action>) { Placing(steps) && Follows({}, steps) && Distinct(steps) }

  lemma InOrderIsInTurn(plan: seq<Action>)
    requires InOrder(plan)
    ensures AllInTurn(plan)
  {
    forall k | 0 <= k < |plan| ensures InTurn(PLACEMENT_GRANTS, plan[..k], plan[k]) {
      forall i | 0 <= i < |plan[k].dependsOn| ensures Completed(plan[..k], plan[k].dependsOn[i]) {
        var d := plan[k].dependsOn[i];
        assert d in plan[k].dependsOn;
        FollowsAt({}, plan, k, d);
        CompletedIsIn(plan[..k], d);
      }
    }
  }

  lemma InOrderConcat(a: seq<Action>, b: seq<Action>)
    requires InOrder(a) && InOrder(b) && IdSet(a) !! IdSet(b)
    ensures InOrder(a + b)
  {
    PlacingConcat(a, b);
    FollowsWider({}, {} + IdSet(a), b);
    FollowsConcat({}, a, b);
    DistinctConcat(a, b);
  }

  // ---- The ids of each group ----

  predicate Starts(steps: seq<Action>, c: char) { forall i :: 0 <= i < |steps| ==> |steps[i].id| > 0 && steps[i].id[0] == c }

  lemma StartsApart(a: seq<Action>, b: seq<Action>, c: char, d: char)
    requires Starts(a, c) && Starts(b, d) && c != d
    ensures IdSet(a) !! IdSet(b)
  {
  }

  function MountID(secret: Id, id: Id): Id { "mount-" + secret + "-" + id }
  function CreateVolumeID(volume: Id): Id { "create-volume-" + volume }
  function AttachVolumeID(volume: Id, id: Id): Id { "attach-volume-" + volume + "-" + id }

  ghost predicate DistinctSecrets(refs: seq<SecretRef>) { forall i, j :: 0 <= i < j < |refs| ==> refs[i].name != refs[j].name }
  ghost predicate DistinctVolumes(refs: seq<VolumeRef>) { forall i, j :: 0 <= i < j < |refs| ==> refs[i].name != refs[j].name }

  lemma MountIsUnique(a: Id, b: Id, id: Id)
    requires MountID(a, id) == MountID(b, id)
    ensures a == b
  {
    assert MountID(a, id)[6..|MountID(a, id)| - |id| - 1] == a;
    assert MountID(b, id)[6..|MountID(b, id)| - |id| - 1] == b;
  }

  lemma AttachIsUnique(a: Id, b: Id, id: Id)
    requires AttachVolumeID(a, id) == AttachVolumeID(b, id)
    ensures a == b
  {
    assert AttachVolumeID(a, id)[14..|AttachVolumeID(a, id)| - |id| - 1] == a;
    assert AttachVolumeID(b, id)[14..|AttachVolumeID(b, id)| - |id| - 1] == b;
  }

  lemma CreateVolumeIsUnique(a: Id, b: Id)
    requires CreateVolumeID(a) == CreateVolumeID(b)
    ensures a == b
  {
    assert CreateVolumeID(a)[14..] == a && CreateVolumeID(b)[14..] == b;
  }

  lemma {:induction false} SecretsInOrder(goal: Goal, n: Node, id: Id, refs: seq<SecretRef>)
    requires DistinctSecrets(refs)
    ensures var steps := SecretSteps(goal, n, id, refs);
            && |steps| == |refs| && (forall i :: 0 <= i < |refs| ==> steps[i] == MountStep(goal, n, id, refs[i]))
            && Distinct(steps) && Placing(steps) && DependsOnly({"create-" + id}, steps) && Starts(steps, 'm')
    decreases |refs|
  {
    if refs != [] {
      var k := |refs| - 1;
      SecretsInOrder(goal, n, id, refs[..k]);
      var front := SecretSteps(goal, n, id, refs[..k]);
      forall i | 0 <= i < k ensures front[i].id != MountID(refs[k].name, id) {
        assert front[i] == MountStep(goal, n, id, refs[..k][i]);
        if front[i].id == MountID(refs[k].name, id) { MountIsUnique(refs[i].name, refs[k].name, id); }
      }
    }
  }

  // ---- Volumes ----

  /** The id of a step about one of the volumes. */
  ghost predicate VolumeNamed(x: Id, volumes: map<Id, Volume>, id: Id, name: Id) {
    (x == CreateVolumeID(name) && name !in volumes) || x == AttachVolumeID(name, id)
  }

  ghost predicate NamedAmong(x: Id, volumes: map<Id, Volume>, id: Id, refs: seq<VolumeRef>) {
    exists i :: 0 <= i < |refs| && VolumeNamed(x, volumes, id, refs[i].name)
  }

  lemma PairInOrder(goal: Goal, volumes: map<Id, Volume>, n: Node, id: Id, ref: VolumeRef)
    ensures var pair := VolumePair(goal, volumes, n, id, ref);
            && Distinct(pair) && Placing(pair) && Follows({"create-" + id}, pair)
            && (forall x :: x in IdSet(pair) ==> VolumeNamed(x, volumes, id, ref.name))
  {
    var pair := VolumePair(goal, volumes, n, id, ref);
    var attach := pair[|pair| - 1];
    assert attach.id == AttachVolumeID(ref.name, id) && attach.id[0] == 'a';
    if ref.name !in volumes {
      assert |pair| == 2 && pair[0].id == CreateVolumeID(ref.name) && pair[0].id[0] == 'c';
      assert pair[..1][0].id in IdSet(pair[..1]);
    } else {
      assert |pair| == 1;
    }
  }

  lemma VolumesApart(volumes: map<Id, Volume>, id: Id, a: Id, b: Id, x: Id)
    requires VolumeNamed(x, volumes, id, a) && VolumeNamed(x, volumes, id, b)
    ensures a == b
  {
    if x == CreateVolumeID(a) {
      assert x[0] == 'c' && AttachVolumeID(b, id)[0] == 'a';
      CreateVolumeIsUnique(a, b);
    } else {
      assert x[0] == 'a' && CreateVolumeID(b)[0] == 'c';
      AttachIsUnique(a, b, id);
    }
  }

  lemma {:induction false} VolumesInOrder(goal: Goal, volumes: map<Id, Volume>, n: Node, id: Id, refs: seq<VolumeRef>)
    requires DistinctVolumes(refs)
    ensures var steps := VolumeSteps(goal, volumes, n, id, refs);
            && Distinct(steps) && Placing(steps) && Follows({"create-" + id}, steps)
            && (forall x :: x in IdSet(steps) ==> NamedAmong(x, volumes, id, refs))
    decreases |refs|
  {
    if refs != [] {
      var k := |refs| - 1;
      VolumesInOrder(goal, volumes, n, id, refs[..k]);
      PairInOrder(goal, volumes, n, id, refs[k]);
      var front, pair := VolumeSteps(goal, volumes, n, id, refs[..k]), VolumePair(goal, volumes, n, id, refs[k]);
      PairApart(volumes, id, refs, front, pair);
      DistinctConcat(front, pair);
      PlacingConcat(front, pair);
      FollowsWider({"create-" + id}, {"create-" + id} + IdSet(front), pair);
      FollowsConcat({"create-" + id}, front, pair);
      IdSetConcat(front, pair);
      forall x | x in IdSet(front + pair) ensures NamedAmong(x, volumes, id, refs) {
        if x in IdSet(front) {
          var i :| 0 <= i < k && VolumeNamed(x, volumes, id, refs[..k][i].name);
          assert VolumeNamed(x, volumes, id, refs[i].name);
        } else {
          assert VolumeNamed(x, volumes, id, refs[k].name);
        }
      }
    }
  }

  lemma PairApart(volumes: map<Id, Volume>, id: Id, refs: seq<VolumeRef>, front: seq<Action>, pair: seq<Action>)
    requires refs != [] && DistinctVolumes(refs)
    requires forall x :: x in IdSet(front) ==> NamedAmong(x, volumes, id, refs[..|refs| - 1])
    requires forall x :: x in IdSet(pair) ==> VolumeNamed(x, volumes, id, refs[|refs| - 1].name)
    ensures IdSet(front) !! IdSet(pair)
  {
    var k := |refs| - 1;
    forall x | x in IdSet(front) && x in IdSet(pair) ensures false {
      var i :| 0 <= i < k && VolumeNamed(x, volumes, id, refs[..k][i].name);
      VolumesApart(volumes, id, refs[i].name, refs[k].name, x);
    }
  }

  lemma {:induction false} VolumeStepOf(goal: Goal, volumes: map<Id, Volume>, n: Node, id: Id, refs: seq<VolumeRef>, i: nat)
    requires i < |refs| && refs[i].name !in volumes
    ensures CreateVolumeID(refs[i].name) in IdSet(VolumeSteps(goal, volumes, n, id, refs))
    decreases |refs|
  {
    var k := |refs| - 1;
    IdSetConcat(VolumeSteps(goal, volumes, n, id, refs[..k]), VolumePair(goal, volumes, n, id, refs[k]));
    if i < k { VolumeStepOf(goal, volumes, n, id, refs[..k], i); } else { PairCreates(goal, volumes, n, id, refs[k]); }
  }

  lemma PairCreates(goal: Goal, volumes: map<Id, Volume>, n: Node, id: Id, ref: VolumeRef)
    requires ref.name !in volumes
    ensures CreateVolumeID(ref.name) in IdSet(VolumePair(goal, volumes, n, id, ref))
  {
    assert VolumePair(goal, volumes, n, id, ref)[0].id == CreateVolumeID(ref.name);
  }

  // ---- One replica in order ----

  lemma GrantsInOrder(goal: Goal, n: Node, id: Id)
    ensures var steps := GrantSteps(goal, n, id);
            Distinct(steps) && Placing(steps) && DependsOnly({"create-" + id}, steps) && Starts(steps, 'g')
  {
  }

  lemma NetworkInOrder(goal: Goal, n: Node, id: Id)
    ensures var steps := NetworkSteps(goal, n, id);
            && Distinct(steps) && Placing(steps) && DependsOnly({"create-" + id}, steps) && Starts(steps, 'a')
            && forall x :: x in IdSet(steps) ==> x == "attach-" + id
  {
  }

  lemma VolumeIDStarts(x: Id, volumes: map<Id, Volume>, id: Id, refs: seq<VolumeRef>)
    requires NamedAmong(x, volumes, id, refs)
    ensures |x| > 0 && (x[0] == 'c' || x[0] == 'a') && x != "attach-" + id
  {
    var i :| 0 <= i < |refs| && VolumeNamed(x, volumes, id, refs[i].name);
    if x == CreateVolumeID(refs[i].name) {
      assert x[0] == 'c' && ("attach-" + id)[0] == 'a';
    } else {
      assert x[0] == 'a' && |x| > |"attach-" + id|;
    }
  }

  lemma VolumesStartApart(volumes: map<Id, Volume>, id: Id, refs: seq<VolumeRef>, steps: seq<Action>, others: seq<Action>, c: char)
    requires (forall x :: x in IdSet(steps) ==> NamedAmong(x, volumes, id, refs)) && Starts(others, c) && c != 'a' && c != 'c'
    ensures IdSet(steps) !! IdSet(others)
  {
    forall x | x in IdSet(steps) && x in IdSet(others) ensures false { VolumeIDStarts(x, volumes, id, refs); }
  }

  lemma VolumesNetworkApart(volumes: map<Id, Volume>, id: Id, refs: seq<VolumeRef>, steps: seq<Action>, network: seq<Action>)
    requires forall x :: x in IdSet(steps) ==> NamedAmong(x, volumes, id, refs)
    requires forall x :: x in IdSet(network) ==> x == "attach-" + id
    ensures IdSet(steps) !! IdSet(network)
  {
    forall x | x in IdSet(steps) && x in IdSet(network) ensures false { VolumeIDStarts(x, volumes, id, refs); }
  }

  /** One group of steps after another, all waiting for nothing but what is done. */
  lemma OneMoreGroup(done: set<Id>, a: seq<Action>, b: seq<Action>)
    requires Distinct(a) && Placing(a) && Follows(done, a) && Distinct(b) && Placing(b) && Follows(done, b)
    requires IdSet(a) !! IdSet(b)
    ensures Distinct(a + b) && Placing(a + b) && Follows(done, a + b) && IdSet(a + b) == IdSet(a) + IdSet(b)
  {
    DistinctConcat(a, b);
    PlacingConcat(a, b);
    FollowsWider(done, done + IdSet(a), b);
    FollowsConcat(done, a, b);
    IdSetConcat(a, b);
  }

  lemma PreparationsInOrder(goal: Goal, volumes: map<Id, Volume>, n: Node, id: Id)
    requires DistinctSecrets(goal.workload.secrets) && DistinctVolumes(goal.workload.volumes)
    ensures var steps := Preparations(goal, volumes, n, id);
            && Distinct(steps) && Placing(steps) && Follows({"create-" + id}, steps)
            && IdSet(steps) == IdSet(GrantSteps(goal, n, id)) + IdSet(VolumeSteps(goal, volumes, n, id, goal.workload.volumes)) +
                               IdSet(SecretSteps(goal, n, id, goal.workload.secrets)) + IdSet(NetworkSteps(goal, n, id))
  {
    var done, refs := {"create-" + id}, goal.workload.volumes;
    var g, v, m, a := GrantSteps(goal, n, id), VolumeSteps(goal, volumes, n, id, refs),
                      SecretSteps(goal, n, id, goal.workload.secrets), NetworkSteps(goal, n, id);
    GrantsInOrder(goal, n, id);
    VolumesInOrder(goal, volumes, n, id, refs);
    SecretsInOrder(goal, n, id, goal.workload.secrets);
    NetworkInOrder(goal, n, id);
    DependsOnlyFollows(done, done, g);
    DependsOnlyFollows(done, done, m);
    DependsOnlyFollows(done, done, a);
    VolumesStartApart(volumes, id, refs, v, g, 'g');
    VolumesStartApart(volumes, id, refs, v, m, 'm');
    VolumesNetworkApart(volumes, id, refs, v, a);
    StartsApart(g, m, 'g', 'm');
    StartsApart(g, a, 'g', 'a');
    StartsApart(m, a, 'm', 'a');
    OneMoreGroup(done, g, v);
    OneMoreGroup(done, g + v, m);
    OneMoreGroup(done, g + v + m, a);
  }

  lemma {:induction false} IdsAreIds(steps: seq<Action>, kind: ActionKind, d: Id)
    requires d in Ids(steps, kind)
    ensures d in IdSet(steps)
  {
    var k := |steps| - 1;
    IdSetConcat(steps[..k], [steps[k]]);
    assert steps == steps[..k] + [steps[k]];
    if d in Ids(steps[..k], kind) { IdsAreIds(steps[..k], kind, d); } else { assert [steps[k]][0].id == d; }
  }

  lemma StartWaits(goal: Goal, volumes: map<Id, Volume>, n: Node, id: Id, d: Id)
    requires DistinctSecrets(goal.workload.secrets) && DistinctVolumes(goal.workload.volumes)
    requires d in StartStep(goal, volumes, n, id).dependsOn
    ensures d == "create-" + id || d in IdSet(Preparations(goal, volumes, n, id))
  {
    PreparationsInOrder(goal, volumes, n, id);
    if d in Ids(GrantSteps(goal, n, id), GrantTools) { IdsAreIds(GrantSteps(goal, n, id), GrantTools, d); }
    else if d in Ids(VolumeSteps(goal, volumes, n, id, goal.workload.volumes), AttachVolume) {
      IdsAreIds(VolumeSteps(goal, volumes, n, id, goal.workload.volumes), AttachVolume, d);
    } else if d in Ids(SecretSteps(goal, n, id, goal.workload.secrets), MountSecret) {
      IdsAreIds(SecretSteps(goal, n, id, goal.workload.secrets), MountSecret, d);
    } else if d in Ids(NetworkSteps(goal, n, id), AttachNetwork) {
      IdsAreIds(NetworkSteps(goal, n, id), AttachNetwork, d);
    }
  }

  /** The ids of the preparations, by how they start. */
  lemma PreparationIDs(goal: Goal, volumes: map<Id, Volume>, n: Node, id: Id, x: Id)
    requires DistinctSecrets(goal.workload.secrets) && DistinctVolumes(goal.workload.volumes)
    requires x in IdSet(Preparations(goal, volumes, n, id))
    ensures |x| > 0 && x[0] in {'g', 'm', 'a', 'c'}
    ensures x[0] == 'c' ==> NamedAmong(x, volumes, id, goal.workload.volumes)
  {
    PreparationsInOrder(goal, volumes, n, id);
    GrantsInOrder(goal, n, id);
    VolumesInOrder(goal, volumes, n, id, goal.workload.volumes);
    SecretsInOrder(goal, n, id, goal.workload.secrets);
    NetworkInOrder(goal, n, id);
    if x in IdSet(VolumeSteps(goal, volumes, n, id, goal.workload.volumes)) {
      VolumeIDStarts(x, volumes, id, goal.workload.volumes);
    }
  }

  /** A volume still to be created whose creation has the same id as the allocation's. */
  ghost predicate Clashes(goal: Goal, volumes: map<Id, Volume>, id: Id) {
    exists i :: 0 <= i < |goal.workload.volumes| && goal.workload.volumes[i].name !in volumes &&
                "volume-" + goal.workload.volumes[i].name == id
  }

  lemma ClashIsSameID(name: Id, id: Id)
    ensures CreateVolumeID(name) == "create-" + id <==> "volume-" + name == id
  {
    assert CreateVolumeID(name) == "create-" + ("volume-" + name);
    assert ("create-" + ("volume-" + name))[7..] == "volume-" + name && ("create-" + id)[7..] == id;
  }

  lemma StartFollows(goal: Goal, volumes: map<Id, Volume>, n: Node, id: Id, done: set<Id>, prep: seq<Action>, start: Action)
    requires DistinctSecrets(goal.workload.secrets) && DistinctVolumes(goal.workload.volumes) && done == {"create-" + id}
    requires prep == Preparations(goal, volumes, n, id) && start == StartStep(goal, volumes, n, id) && Follows(done, prep)
    ensures Follows(done, prep + [start])
  {
    forall d | d in start.dependsOn ensures d in done + IdSet(prep) { StartWaits(goal, volumes, n, id, d); }
    DependsOnlyFollows(done + IdSet(prep), done + IdSet(prep), [start]);
    FollowsConcat(done, prep, [start]);
  }

  lemma StartApart(goal: Goal, volumes: map<Id, Volume>, n: Node, id: Id, start: Action)
    requires DistinctSecrets(goal.workload.secrets) && DistinctVolumes(goal.workload.volumes)
    requires start == StartStep(goal, volumes, n, id)
    ensures IdSet([start]) == {"start-" + id} && IdSet(Preparations(goal, volumes, n, id)) !! IdSet([start])
    ensures Placing([start]) && Distinct([start])
  {
    assert [start][0].id == "start-" + id && ("start-" + id)[0] == 's';
    forall x | x in IdSet(Preparations(goal, volumes, n, id)) ensures x != "start-" + id {
      PreparationIDs(goal, volumes, n, id, x);
    }
  }

  lemma StartIsLast(goal: Goal, volumes: map<Id, Volume>, n: Node, id: Id)
    requires DistinctSecrets(goal.workload.secrets) && DistinctVolumes(goal.workload.volumes)
    ensures var steps := AfterCreate(goal, volumes, n, id);
            && Distinct(steps) && Placing(steps) && Follows({"create-" + id}, steps)
            && IdSet(steps) == IdSet(Preparations(goal, volumes, n, id)) + {"start-" + id}
  {
    var prep, start := Preparations(goal, volumes, n, id), StartStep(goal, volumes, n, id);
    PreparationsInOrder(goal, volumes, n, id);
    StartFollows(goal, volumes, n, id, {"create-" + id}, prep, start);
    StartApart(goal, volumes, n, id, start);
    IdSetConcat(prep, [start]);
    DistinctConcat(prep, [start]);
    PlacingConcat(prep, [start]);
  }

  lemma CreationInOrder(goal: Goal, n: Node, id: Id, replica: int)
    ensures var steps := PullSteps(goal, n, id) + [CreateStep(goal, n, id, replica)];
            InOrder(steps) && IdSet(steps) <= {"pull-" + id, "create-" + id} && "create-" + id in IdSet(steps)
  {
    var pulls, create := PullSteps(goal, n, id), CreateStep(goal, n, id, replica);
    IdSetConcat(pulls, [create]);
    assert [create][0].id == "create-" + id;
    if pulls != [] {
      assert pulls[0].id == "pull-" + id && ("pull-" + id)[0] == 'p' && ("create-" + id)[0] == 'c';
      assert (pulls + [create])[..1] == pulls;
    }
  }

  lemma AppendedInOrder(first: seq<Action>, rest: seq<Action>, done: set<Id>)
    requires InOrder(first) && Distinct(rest) && Placing(rest) && Follows(done, rest) && done <= IdSet(first)
    requires IdSet(first) !! IdSet(rest)
    ensures InOrder(first + rest)
  {
    FollowsWider(done, {} + IdSet(first), rest);
    FollowsConcat({}, first, rest);
    DistinctConcat(first, rest);
    PlacingConcat(first, rest);
  }

  lemma Regroup(a: seq<Action>, b: seq<Action>, c: seq<Action>)
    ensures a + (b + c) == (a + b) + c
  {
  }

  lemma ReplicaInOrder(goal: Goal, volumes: map<Id, Volume>, n: Node, replica: int, id: Id)
    requires DistinctSecrets(goal.workload.secrets) && DistinctVolumes(goal.workload.volumes)
    requires id == AllocationID(goal.workload.name, replica) && !Clashes(goal, volumes, id)
    ensures InOrder(ReplicaSteps(goal, volumes, n, replica))
  {
    var pulls, create, rest := PullSteps(goal, n, id), CreateStep(goal, n, id, replica), AfterCreate(goal, volumes, n, id);
    CreationInOrder(goal, n, id, replica);
    StartIsLast(goal, volumes, n, id);
    forall x | x in IdSet(rest) ensures x !in IdSet(pulls + [create]) { RestApart(goal, volumes, n, id, x); }
    AppendedInOrder(pulls + [create], rest, {"create-" + id});
    Regroup(pulls, [create], rest);
  }

  lemma SameIDTwice(pulls: seq<Action>, create: Action, rest: seq<Action>)
    requires create.id in IdSet(rest)
    ensures !AllInTurn(pulls + ([create] + rest))
  {
    var plan := pulls + ([create] + rest);
    var j :| 0 <= j < |rest| && rest[j].id == create.id;
    var k := |pulls| + 1 + j;
    assert plan[k] == rest[j] && plan[..k][|pulls|] == create;
    assert Completed(plan[..k], plan[k].id);
    assert !InTurn(PLACEMENT_GRANTS, plan[..k], plan[k]);
  }

  lemma ClashIsPlanned(goal: Goal, volumes: map<Id, Volume>, n: Node, id: Id)
    requires DistinctSecrets(goal.workload.secrets) && DistinctVolumes(goal.workload.volumes) && Clashes(goal, volumes, id)
    ensures "create-" + id in IdSet(AfterCreate(goal, volumes, n, id))
  {
    var refs := goal.workload.volumes;
    var i :| 0 <= i < |refs| && refs[i].name !in volumes && "volume-" + refs[i].name == id;
    ClashIsSameID(refs[i].name, id);
    VolumeStepOf(goal, volumes, n, id, refs, i);
    PreparationsInOrder(goal, volumes, n, id);
    StartIsLast(goal, volumes, n, id);
  }

  /** A replica's actions are each in turn for the kernel, dependencies first and no id twice, if and only if no
      volume still to be created is named so that its creation has the id of the allocation's creation. */
  lemma ReplicaInTurn(goal: Goal, volumes: map<Id, Volume>, n: Node, replica: int)
    requires DistinctSecrets(goal.workload.secrets) && DistinctVolumes(goal.workload.volumes)
    ensures AllInTurn(ReplicaSteps(goal, volumes, n, replica)) <==>
            !Clashes(goal, volumes, AllocationID(goal.workload.name, replica))
  {
    var id := AllocationID(goal.workload.name, replica);
    if Clashes(goal, volumes, id) {
      ClashIsPlanned(goal, volumes, n, id);
      SameIDTwice(PullSteps(goal, n, id), CreateStep(goal, n, id, replica), AfterCreate(goal, volumes, n, id));
    } else {
      ReplicaInOrder(goal, volumes, n, replica, id);
      InOrderIsInTurn(ReplicaSteps(goal, volumes, n, replica));
    }
  }

  lemma FirstChars(id: Id)
    ensures ("pull-" + id)[0] == 'p' && ("create-" + id)[0] == 'c' && ("start-" + id)[0] == 's'
  {
  }

  lemma VolumeCreationApart(goal: Goal, volumes: map<Id, Volume>, id: Id, x: Id)
    requires NamedAmong(x, volumes, id, goal.workload.volumes) && !Clashes(goal, volumes, id)
    ensures x != "create-" + id
  {
    var i :| 0 <= i < |goal.workload.volumes| && VolumeNamed(x, volumes, id, goal.workload.volumes[i].name);
    FirstChars(id);
    assert AttachVolumeID(goal.workload.volumes[i].name, id)[0] == 'a';
    ClashIsSameID(goal.workload.volumes[i].name, id);
  }

  lemma RestApart(goal: Goal, volumes: map<Id, Volume>, n: Node, id: Id, x: Id)
    requires DistinctSecrets(goal.workload.secrets) && DistinctVolumes(goal.workload.volumes) && !Clashes(goal, volumes, id)
    requires x in IdSet(Preparations(goal, volumes, n, id)) + {"start-" + id}
    ensures x != "pull-" + id && x != "create-" + id
  {
    FirstChars(id);
    if x != "start-" + id {
      PreparationIDs(goal, volumes, n, id, x);
      if x[0] == 'c' { VolumeCreationApart(goal, volumes, id, x); }
    }
  }

  // ---- Several replicas in one plan ----

  predicate Ends(x: Id, p: Id, replica: nat) { x == p + "-" + Decimal(replica) }

  ghost predicate EndsIn(x: Id, replica: nat) { exists p :: Ends(x, p, replica) }

  ghost predicate EndsBelow(x: Id, replica: nat) { exists r: nat :: r < replica && EndsIn(x, r) }

  /** Every id ends in the number of the replica. */
  ghost predicate Numbered(steps: seq<Action>, replica: nat) {
    forall i :: 0 <= i < |steps| ==> EndsIn(steps[i].id, replica)
  }

  lemma NumberedConcat(a: seq<Action>, b: seq<Action>, replica: nat)
    requires Numbered(a, replica) && Numbered(b, replica)
    ensures Numbered(a + b, replica)
  {
  }

  lemma EndsInReplica(prefix: string, name: Id, replica: nat)
    ensures EndsIn(prefix + AllocationID(name, replica), replica)
  {
    Associative(prefix, name, "-", Decimal(replica));
    assert Ends(prefix + AllocationID(name, replica), prefix + name, replica);
  }

  lemma Associative(a: string, b: string, c: string, d: string)
    ensures a + ((b + c) + d) == ((a + b) + c) + d
  {
  }

  lemma {:induction false} SecretsNumbered(goal: Goal, n: Node, id: Id, refs: seq<SecretRef>, replica: nat)
    requires id == AllocationID(goal.workload.name, replica)
    ensures Numbered(SecretSteps(goal, n, id, refs), replica)
    decreases |refs|
  {
    if refs != [] {
      var k := |refs| - 1;
      SecretsNumbered(goal, n, id, refs[..k], replica);
      EndsInReplica("mount-" + refs[k].name + "-", goal.workload.name, replica);
      NumberedConcat(SecretSteps(goal, n, id, refs[..k]), [MountStep(goal, n, id, refs[k])], replica);
    }
  }

  lemma PreparationsNumbered(goal: Goal, volumes: map<Id, Volume>, n: Node, id: Id, replica: nat)
    requires id == AllocationID(goal.workload.name, replica) && goal.workload.volumes == []
    ensures Numbered(Preparations(goal, volumes, n, id), replica)
  {
    var g, m, a := GrantSteps(goal, n, id), SecretSteps(goal, n, id, goal.workload.secrets), NetworkSteps(goal, n, id);
    EndsInReplica("grant-tools-", goal.workload.name, replica);
    EndsInReplica("attach-", goal.workload.name, replica);
    SecretsNumbered(goal, n, id, goal.workload.secrets, replica);
    NumberedConcat(g, [], replica);
    NumberedConcat(g + [], m, replica);
    NumberedConcat(g + [] + m, a, replica);
  }

  lemma ReplicaNumbered(goal: Goal, volumes: map<Id, Volume>, n: Node, replica: nat)
    requires goal.workload.volumes == []
    ensures Numbered(ReplicaSteps(goal, volumes, n, replica), replica)
  {
    var id := AllocationID(goal.workload.name, replica);
    var pulls, create, prep, start := PullSteps(goal, n, id), CreateStep(goal, n, id, replica), Preparations(goal, volumes, n, id),
                                      StartStep(goal, volumes, n, id);
    EndsInReplica("pull-", goal.workload.name, replica);
    EndsInReplica("create-", goal.workload.name, replica);
    EndsInReplica("start-", goal.workload.name, replica);
    PreparationsNumbered(goal, volumes, n, id, replica);
    NumberedConcat(prep, [start], replica);
    NumberedConcat([create], prep + [start], replica);
    NumberedConcat(pulls, [create] + (prep + [start]), replica);
  }

  ghost predicate NumberedBelow(plan: seq<Action>, replica: nat) {
    forall i :: 0 <= i < |plan| ==> EndsBelow(plan[i].id, replica)
  }

  lemma NumberedApart(plan: seq<Action>, steps: seq<Action>, replica: nat)
    requires NumberedBelow(plan, replica) && Numbered(steps, replica)
    ensures IdSet(plan) !! IdSet(steps)
  {
    forall x | x in IdSet(plan) && x in IdSet(steps) ensures false {
      var i :| 0 <= i < |plan| && plan[i].id == x;
      var j :| 0 <= j < |steps| && steps[j].id == x;
      var r: nat :| r < replica && EndsIn(plan[i].id, r);
      var p :| Ends(plan[i].id, p, r);
      var q :| Ends(steps[j].id, q, replica);
      NumberedIsUnique(p, r, q, replica);
    }
  }

  lemma NumberedOneMore(plan: seq<Action>, steps: seq<Action>, replica: nat)
    requires NumberedBelow(plan, replica) && Numbered(steps, replica)
    ensures NumberedBelow(plan + steps, replica + 1)
  {
    var more := plan + steps;
    forall i | 0 <= i < |more| ensures EndsBelow(more[i].id, replica + 1) {
      if i < |plan| {
        var r: nat :| r < replica && EndsIn(plan[i].id, r);
        assert EndsIn(more[i].id, r);
      } else {
        assert EndsIn(steps[i - |plan|].id, replica);
      }
    }
  }

  /** Without volumes, a plan in order stays in order when the next replica is added. */
  lemma NextReplicaInOrder(goal: Goal, volumes: map<Id, Volume>, n: Node, plan: seq<Action>, replica: nat)
    requires goal.workload.volumes == [] && DistinctSecrets(goal.workload.secrets)
    requires InOrder(plan) && NumberedBelow(plan, replica)
    ensures InOrder(plan + ReplicaSteps(goal, volumes, n, replica))
    ensures NumberedBelow(plan + ReplicaSteps(goal, volumes, n, replica), replica + 1)
  {
    var steps := ReplicaSteps(goal, volumes, n, replica);
    ReplicaInOrder(goal, volumes, n, replica, AllocationID(goal.workload.name, replica));
    ReplicaNumbered(goal, volumes, n, replica);
    NumberedApart(plan, steps, replica);
    InOrderConcat(plan, steps);
    NumberedOneMore(plan, steps, replica);
  }

  // ---- How many actions ----

  function VolumeCost(volumes: map<Id, Volume>, refs: seq<VolumeRef>): nat {
    if refs == [] then 0
    else VolumeCost(volumes, refs[..|refs| - 1]) + if refs[|refs| - 1].name in volumes then 1 else 2
  }

  /** The actions of one replica, a pull of the image excepted. */
  function ReplicaCost(goal: Goal, volumes: map<Id, Volume>): nat {
    2 + (if goal.workload.runtime.Some? && goal.workload.runtime.value.tools != [] then 1 else 0) +
    VolumeCost(volumes, goal.workload.volumes) + |goal.workload.secrets| + (if goal.workload.port > 0 then 1 else 0)
  }

  lemma {:induction false} VolumesCost(goal: Goal, volumes: map<Id, Volume>, n: Node, id: Id, refs: seq<VolumeRef>)
    ensures |VolumeSteps(goal, volumes, n, id, refs)| == VolumeCost(volumes, refs)
    decreases |refs|
  {
    if refs != [] { VolumesCost(goal, volumes, n, id, refs[..|refs| - 1]); }
  }

  lemma {:induction false} SecretsCost(goal: Goal, n: Node, id: Id, refs: seq<SecretRef>)
    ensures |SecretSteps(goal, n, id, refs)| == |refs|
    decreases |refs|
  {
    if refs != [] { SecretsCost(goal, n, id, refs[..|refs| - 1]); }
  }

  lemma ReplicaCosts(goal: Goal, volumes: map<Id, Volume>, n: Node, replica: int)
    ensures |ReplicaSteps(goal, volumes, n, replica)| ==
            ReplicaCost(goal, volumes) + if goal.workload.image in n.images then 0 else 1
  {
    var id := AllocationID(goal.workload.name, replica);
    VolumesCost(goal, volumes, n, id, goal.workload.volumes);
    SecretsCost(goal, n, id, goal.workload.secrets);
  }

  function PullCount(steps: seq<Action>): nat {
    if steps == [] then 0 else PullCount(steps[..|steps| - 1]) + if steps[|steps| - 1].kind.PullImage? then 1 else 0
  }

  lemma {:induction false} PullsConcat(a: seq<Action>, b: seq<Action>)
    ensures PullCount(a + b) == PullCount(a) + PullCount(b)
    decreases |b|
  {
    if b == [] {
      assert a + b == a;
    } else {
      PullsConcat(a, b[..|b| - 1]);
      assert (a + b)[..|a + b| - 1] == a + b[..|b| - 1];
    }
  }

  lemma {:induction false} NoPulls(steps: seq<Action>)
    requires forall i :: 0 <= i < |steps| ==> !steps[i].kind.PullImage?
    ensures PullCount(steps) == 0
  {
    if steps != [] { NoPulls(steps[..|steps| - 1]); }
  }

  lemma {:induction false} VolumesPullNothing(goal: Goal, volumes: map<Id, Volume>, n: Node, id: Id, refs: seq<VolumeRef>)
    ensures PullCount(VolumeSteps(goal, volumes, n, id, refs)) == 0
    decreases |refs|
  {
    if refs != [] {
      var front, pair := VolumeSteps(goal, volumes, n, id, refs[..|refs| - 1]), VolumePair(goal, volumes, n, id, refs[|refs| - 1]);
      VolumesPullNothing(goal, volumes, n, id, refs[..|refs| - 1]);
      NoPulls(pair);
      PullsConcat(front, pair);
    }
  }

  lemma {:induction false} SecretsPullNothing(goal: Goal, n: Node, id: Id, refs: seq<SecretRef>)
    ensures PullCount(SecretSteps(goal, n, id, refs)) == 0
    decreases |refs|
  {
    if refs != [] {
      var front, mount := SecretSteps(goal, n, id, refs[..|refs| - 1]), [MountStep(goal, n, id, refs[|refs| - 1])];
      SecretsPullNothing(goal, n, id, refs[..|refs| - 1]);
      NoPulls(mount);
      PullsConcat(front, mount);
    }
  }

  lemma PreparationsPullNothing(goal: Goal, volumes: map<Id, Volume>, n: Node, id: Id)
    ensures PullCount(Preparations(goal, volumes, n, id)) == 0
  {
    var g, v, m, a := GrantSteps(goal, n, id), VolumeSteps(goal, volumes, n, id, goal.workload.volumes),
                      SecretSteps(goal, n, id, goal.workload.secrets), NetworkSteps(goal, n, id);
    NoPulls(g);
    NoPulls(a);
    VolumesPullNothing(goal, volumes, n, id, goal.workload.volumes);
    SecretsPullNothing(goal, n, id, goal.workload.secrets);
    PullsConcat(g, v);
    PullsConcat(g + v, m);
    PullsConcat(g + v + m, a);
  }

  lemma PullsOfOne(goal: Goal, n: Node, id: Id)
    ensures PullCount(PullSteps(goal, n, id)) == |PullSteps(goal, n, id)| == if goal.workload.image in n.images then 0 else 1
  {
    var pulls := PullSteps(goal, n, id);
    if pulls != [] { assert pulls[..0] == []; }
  }

  lemma AfterPullsPullNothing(goal: Goal, volumes: map<Id, Volume>, n: Node, id: Id, replica: int)
    ensures PullCount([CreateStep(goal, n, id, replica)] + AfterCreate(goal, volumes, n, id)) == 0
  {
    var create, prep, start := CreateStep(goal, n, id, replica), Preparations(goal, volumes, n, id), StartStep(goal, volumes, n, id);
    PreparationsPullNothing(goal, volumes, n, id);
    NoPulls([create]);
    NoPulls([start]);
    PullsConcat(prep, [start]);
    PullsConcat([create], prep + [start]);
  }

  /** The size of a replica's share of a plan, exactly. */
  lemma ReplicaPulls(goal: Goal, volumes: map<Id, Volume>, n: Node, replica: int)
    ensures var steps := ReplicaSteps(goal, volumes, n, replica); |steps| == ReplicaCost(goal, volumes) + PullCount(steps)
  {
    var id := AllocationID(goal.workload.name, replica);
    ReplicaCosts(goal, volumes, n, replica);
    PullsOfOne(goal, n, id);
    AfterPullsPullNothing(goal, volumes, n, id, replica);
    PullsConcat(PullSteps(goal, n, id), [CreateStep(goal, n, id, replica)] + AfterCreate(goal, volumes, n, id));
  }

  /** Two replicas of a workload with a port and one secret, on nodes without its image, make ten actions: more
      than the default policy allows in one plan. */
  lemma BatchExceedsLimit(goal: Goal, volumes: map<Id, Volume>, a: Node, b: Node, r: int, q: int)
    requires goal.workload.port > 0 && |goal.workload.secrets| == 1 && goal.workload.volumes == [] && goal.workload.runtime.None?
    requires goal.workload.image !in a.images && goal.workload.image !in b.images
    ensures |ReplicaSteps(goal, volumes, a, r) + ReplicaSteps(goal, volumes, b, q)| == 10 > DEFAULT_POLICY.maxActions
  {
    ReplicaCosts(goal, volumes, a, r);
    ReplicaCosts(goal, volumes, b, q);
  }

  // ---- What is created ----

  /** The allocations a plan creates, in order. */
  function Creations(steps: seq<Action>): seq<Id> {
    if steps == [] then []
    else
      var rest, a := Creations(steps[..|steps| - 1]), steps[|steps| - 1];
      if a.kind.CreateAllocation? then rest + [a.target] else rest
  }

  lemma {:induction false} CreatedConcat(a: seq<Action>, b: seq<Action>)
    ensures Creations(a + b) == Creations(a) + Creations(b)
    decreases |b|
  {
    if b == [] {
      assert a + b == a;
    } else {
      var front, last := b[..|b| - 1], b[|b| - 1];
      CreatedConcat(a, front);
      assert (a + b)[..|a + b| - 1] == a + front;
      if last.kind.CreateAllocation? { assert Creations(a) + (Creations(front) + [last.target]) == (Creations(a) + Creations(front)) + [last.target]; }
    }
  }

  ghost predicate CreatesNothing(steps: seq<Action>) {
    forall i :: 0 <= i < |steps| ==> !steps[i].kind.CreateAllocation?
  }

  lemma {:induction false} NothingCreated(steps: seq<Action>)
    requires CreatesNothing(steps)
    ensures Creations(steps) == []
  {
    if steps != [] { NothingCreated(steps[..|steps| - 1]); }
  }

  lemma NothingConcat(a: seq<Action>, b: seq<Action>)
    requires CreatesNothing(a) && CreatesNothing(b)
    ensures CreatesNothing(a + b)
  {
  }

  lemma {:induction false} VolumesCreateNothing(goal: Goal, volumes: map<Id, Volume>, n: Node, id: Id, refs: seq<VolumeRef>)
    ensures CreatesNothing(VolumeSteps(goal, volumes, n, id, refs))
    decreases |refs|
  {
    if refs != [] {
      var front := refs[..|refs| - 1];
      VolumesCreateNothing(goal, volumes, n, id, front);
      NothingConcat(VolumeSteps(goal, volumes, n, id, front), VolumePair(goal, volumes, n, id, refs[|refs| - 1]));
    }
  }

  lemma {:induction false} SecretsCreateNothing(goal: Goal, n: Node, id: Id, refs: seq<SecretRef>)
    ensures CreatesNothing(SecretSteps(goal, n, id, refs))
    decreases |refs|
  {
    if refs != [] {
      var front := refs[..|refs| - 1];
      SecretsCreateNothing(goal, n, id, front);
      NothingConcat(SecretSteps(goal, n, id, front), [MountStep(goal, n, id, refs[|refs| - 1])]);
    }
  }

  lemma AfterCreateCreatesNothing(goal: Goal, volumes: map<Id, Volume>, n: Node, id: Id)
    ensures CreatesNothing(AfterCreate(goal, volumes, n, id))
  {
    var g, v, m, a := GrantSteps(goal, n, id), VolumeSteps(goal, volumes, n, id, goal.workload.volumes),
                      SecretSteps(goal, n, id, goal.workload.secrets), NetworkSteps(goal, n, id);
    VolumesCreateNothing(goal, volumes, n, id, goal.workload.volumes);
    SecretsCreateNothing(goal, n, id, goal.workload.secrets);
    NothingConcat(g, v);
    NothingConcat(g + v, m);
    NothingConcat(g + v + m, a);
    NothingConcat(g + v + m + a, [StartStep(goal, volumes, n, id)]);
  }

  /** One replica's actions create exactly that replica. */
  lemma StepsCreate(goal: Goal, volumes: map<Id, Volume>, n: Node, replica: int, id: Id)
    requires id == AllocationID(goal.workload.name, replica)
    ensures Creations(ReplicaSteps(goal, volumes, n, replica)) == [id]
  {
    var pulls, create, rest := PullSteps(goal, n, id), CreateStep(goal, n, id, replica), AfterCreate(goal, volumes, n, id);
    NothingCreated(pulls);
    AfterCreateCreatesNothing(goal, volumes, n, id);
    NothingCreated(rest);
    assert [create][..0] == [] && Creations([create]) == [id];
    CreatedConcat([create], rest);
    CreatedConcat(pulls, [create] + rest);
  }
}
