/** What a goal must look like before anything is planned for it (control/validate.go). */
module Admission {
  import opened Types
  import opened Kernel
  import opened Exactness
  import opened ReplicaPlan
  import CanaryRollout

  predicate Lower(c: char) { 'a' <= c <= 'z' || '0' <= c <= '9' }

  /** Lowercase DNS-style text. */
  predicate DnsName(s: string) {
    && 1 <= |s| <= 63 && s[0] != '-' && s[|s| - 1] != '-'
    && forall i :: 0 <= i < |s| ==> Lower(s[i]) || s[i] == '-'
  }

  predicate Handle(s: string) {
    && 1 <= |s| <= 63 && Lower(s[0]) && Lower(s[|s| - 1])
    && forall i :: 0 <= i < |s| ==> Lower(s[i]) || s[i] == '-' || s[i] == '.' || s[i] == '_'
  }

  predicate Hex(c: char) { 'a' <= c <= 'f' || '0' <= c <= '9' }

  /** The image ends in a sha256 digest. */
  predicate DigestPinned(image: string) {
    && |image| >= 72 && image[|image| - 72..|image| - 64] == "@sha256:"
    && forall i :: |image| - 64 <= i < |image| ==> Hex(image[i])
  }

  predicate PortAdmitted(w: Workload) { w.runtime.None? || w.port != 0 ==> 1 <= w.port <= 65535 }

  predicate BudgetAdmitted(b: Budget) { b.tokens >= 1 && b.cost >= 1 && b.wall >= 1 && b.calls >= 1 }

  const MAX_TOOL_GRANTS := 32

  predicate Spaced(c: char) { c in {' ', '\t', '\n', '\r'} }

  predicate Blank(s: string) { forall i :: 0 <= i < |s| ==> Spaced(s[i]) }

  ghost predicate ToolsAdmitted(tools: seq<ToolGrant>) {
    && |tools| <= MAX_TOOL_GRANTS
    && (forall i :: 0 <= i < |tools| ==> Handle(tools[i].name) && !Blank(tools[i].scope))
    && (forall i, j :: 0 <= i < j < |tools| ==> tools[i].name != tools[j].name)
  }

  ghost predicate RuntimeAdmitted(w: Workload) {
    w.runtime.Some? ==>
      && w.engine == "" && DnsName(w.runtime.value.provider) && BudgetAdmitted(w.runtime.value.budget)
      && ToolsAdmitted(w.runtime.value.tools) && (w.runtime.value.queue != "" ==> DnsName(w.runtime.value.queue))
  }

  predicate EngineAdmitted(w: Workload) { w.engine == "" || (w.engine == "postgres" && w.volumes != [] && w.replicas == 1) }

  /** An absolute path without ".." in it. */
  predicate PathAdmitted(path: string) {
    path != "" && path[0] == '/' && forall i :: 0 < i < |path| ==> !(path[i - 1] == '.' && path[i] == '.')
  }

  ghost predicate VolumesAdmitted(w: Workload) {
    && (w.volumes != [] ==> w.replicas == 1) && DistinctVolumes(w.volumes)
    && (forall i :: 0 <= i < |w.volumes| ==> DnsName(w.volumes[i].name) && PathAdmitted(w.volumes[i].mountPath))
    && (forall i, j :: 0 <= i < j < |w.volumes| ==> w.volumes[i].mountPath != w.volumes[j].mountPath)
  }

  predicate VersionAdmitted(v: string) { 1 <= |v| <= 64 && forall i :: 0 <= i < |v| ==> !Spaced(v[i]) }

  ghost predicate SecretsAdmitted(w: Workload) {
    && DistinctSecrets(w.secrets)
    && (forall i :: 0 <= i < |w.secrets| ==>
          Handle(w.secrets[i].name) && VersionAdmitted(w.secrets[i].version) && PathAdmitted(w.secrets[i].mountPath))
    && (forall i, j :: 0 <= i < j < |w.secrets| ==> w.secrets[i].mountPath != w.secrets[j].mountPath)
  }

  ghost predicate CanaryAdmitted(goal: Goal) {
    goal.canary.Some? ==>
      CanaryRollout.Ladder(goal.canary.value.steps) && goal.canary.value.holdFor >= 0 && goal.route.Some? && goal.workload.replicas >= 2
  }

  predicate RouteAdmitted(goal: Goal) {
    goal.route.Some? ==>
      !Blank(goal.route.value.host) && 1 <= goal.route.value.port <= 65535 && goal.route.value.exposure in {"tailnet", "public"}
  }

  /** The checks of admission on the fields that are modelled. */
  ghost predicate Admitted(goal: Goal) {
    var w := goal.workload;
    && DnsName(goal.id) && DnsName(w.name) && DigestPinned(w.image) && w.replicas >= 1 && PortAdmitted(w)
    && w.resources.cpu >= 1 && w.resources.mem >= 1
    && VolumesAdmitted(w) && EngineAdmitted(w) && RuntimeAdmitted(w) && CanaryAdmitted(goal) && SecretsAdmitted(w)
    && RouteAdmitted(goal)
  }

  lemma {:induction false} PinnedAt(image: string, k: nat)
    requires k + 8 <= |image| && image[k..k + 8] == "@sha256:"
    ensures Pinned(image)
    decreases k
  {
    if k > 0 {
      assert image[1..][k - 1..k + 7] == image[k..k + 8];
      PinnedAt(image[1..], k - 1);
    }
  }

  /** An admitted goal is all that planning, placement and the kernel take for granted about a goal. */
  lemma AdmittedIsValid(goal: Goal)
    requires Admitted(goal)
    ensures GoalValid(goal) && Pinned(goal.workload.image)
    ensures DistinctSecrets(goal.workload.secrets) && DistinctVolumes(goal.workload.volumes)
  {
    PinnedAt(goal.workload.image, |goal.workload.image| - 72);
  }

  /** The goal renamed, with one volume. */
  function Clashing(goal: Goal, path: string): Goal {
    goal.(workload := goal.workload.(name := "volume-data", volumes := [VolumeRef("data-0", path)]))
  }

  lemma ClashingNames()
    ensures DnsName("volume-data") && DnsName("data-0") && AllocationID("volume-data", 0) == "volume-" + "data-0"
  {
    assert "volume-data" + "-" == "volume-" + "data-";
  }

  /** Out of any admitted goal for one replica: an admitted one whose replica and volume are created under the same
      id, so that the kernel does not find its actions in turn. */
  lemma ClashingGoal(goal: Goal, path: string, volumes: map<Id, Volume>, n: Node)
    requires Admitted(goal) && goal.workload.replicas == 1 && PathAdmitted(path) && "data-0" !in volumes
    ensures Admitted(Clashing(goal, path)) && !AllInTurn(ReplicaSteps(Clashing(goal, path), volumes, n, 0))
  {
    var g := Clashing(goal, path);
    ClashingNames();
    assert g.workload.volumes[0].name == "data-0";
    assert Clashes(g, volumes, AllocationID(g.workload.name, 0));
    ReplicaInTurn(g, volumes, n, 0);
  }
}
