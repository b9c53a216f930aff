/**
 * What the console writes on a joining node (web/baremetal_onboarding.py,
 * guard_patch, promote_status) and what the promotion controller does to it.
 */
module OnboardingGuard {
  import opened Wrappers

  const RUNNING := "running"
  const COMPLETE := "complete"

  datatype Taint = Taint(key: string, value: string, effect: string)
  const TAINT := Taint("harvester-ops.io/onboarding", "pending", "NoSchedule")

  datatype Condition = Condition(kind: string, status: string)

  /** The parts of a Node object that matter here; absent fields are None. */
  datatype Node = Node(
    uid: string, version: nat, installId: Option<string>,
    unschedulable: Option<bool>, taints: Option<seq<Taint>>,
    promote: Option<string>, nativeDone: bool,
    name: string, labels: map<string, string>, conditions: seq<Condition>)

  predicate Cordoned(n: Node) {
    n.unschedulable == Some(true)
  }

  function Taints(n: Node): seq<Taint> {
    if n.taints.Some? then n.taints.value else []
  }

  // --- JSON Patch (RFC 6902, sections 4.1, 4.3, 4.6 and 5) --------------------------------

  datatype Operation =
    | TestUid(uid: string)
    | TestVersion(version: nat)
    | AddUnschedulable(value: bool)
    | ReplaceTaints(taints: seq<Taint>)

  function ApplyOperation(n: Node, op: Operation): Option<Node> {
    match op
    case TestUid(uid) => if n.uid == uid then Some(n) else None
    case TestVersion(version) => if n.version == version then Some(n) else None
    case AddUnschedulable(value) => Some(n.(unschedulable := Some(value)))
    case ReplaceTaints(taints) => if n.taints.Some? then Some(n.(taints := Some(taints))) else None
  }

  /** One failing operation and nothing is applied. */
  function ApplyPatch(n: Node, ops: seq<Operation>): Option<Node>
    decreases |ops|
  {
    if ops == [] then Some(n)
    else
      match ApplyOperation(n, ops[0])
      case None => None
      case Some(m) => ApplyPatch(m, ops[1..])
  }

  function Remaining(taints: seq<Taint>): (r: seq<Taint>)
    ensures TAINT !in r
  {
    if taints == [] then []
    else if taints[0] == TAINT then Remaining(taints[1..])
    else [taints[0]] + Remaining(taints[1..])
  }

  /** `guard_patch` */
  function GuardPatch(n: Node): seq<Operation> {
    [TestUid(n.uid)] + ([TestVersion(n.version)] + ([AddUnschedulable(true)]
    + (if Remaining(Taints(n)) != Taints(n) then [ReplaceTaints(Remaining(Taints(n)))] else [])))
  }

  /** What a guarded node looks like: cordoned, the onboarding taint gone, everything else as it was. */
  function Guarded(n: Node): Node {
    n.(unschedulable := Some(true),
       taints := if Remaining(Taints(n)) != Taints(n) then Some(Remaining(Taints(n))) else n.taints)
  }

  lemma {:induction false} RemainingKeepsOthers(taints: seq<Taint>)
    ensures multiset(Remaining(taints)) == multiset(taints)[TAINT := 0]
    ensures TAINT !in taints ==> Remaining(taints) == taints
  {
    if taints == [] {
    } else {
      assert taints == [taints[0]] + taints[1..];
      RemainingKeepsOthers(taints[1..]);
    }
  }

  /**
   * The patch made from a snapshot takes effect on the node if and only if the
   * node still has that uid and version; then it cordons it and removes every
   * onboarding taint, no other, in one step.
   */
  lemma {:induction false} GuardPatchIff(n: Node, seen: Node)
    requires n.uid == seen.uid && n.version == seen.version ==> n == seen
    ensures ApplyPatch(n, GuardPatch(seen)) == if n.uid == seen.uid && n.version == seen.version then Some(Guarded(n)) else None
    ensures Cordoned(Guarded(n)) && TAINT !in Taints(Guarded(n))
    ensures multiset(Taints(Guarded(n))) == multiset(Taints(n))[TAINT := 0]
    ensures Guarded(n).(unschedulable := n.unschedulable, taints := n.taints) == n
  {
    RemainingKeepsOthers(Taints(n));
    var tail := if Remaining(Taints(seen)) != Taints(seen) then [ReplaceTaints(Remaining(Taints(seen)))] else [];
    PatchStep(n, TestUid(seen.uid), [TestVersion(seen.version)] + ([AddUnschedulable(true)] + tail));
    PatchStep(n, TestVersion(seen.version), [AddUnschedulable(true)] + tail);
    PatchStep(n, AddUnschedulable(true), tail);
    if n == seen && tail != [] {
      var cordoned := n.(unschedulable := Some(true));
      assert tail[1..] == [];
      assert ApplyPatch(cordoned, tail) == Some(Guarded(n));
    }
  }

  lemma {:induction false} PatchTakesEffect(n: Node, seen: Node)
    requires n.uid == seen.uid && n.version == seen.version ==> n == seen
    ensures ApplyPatch(n, GuardPatch(seen)) == if n.uid == seen.uid && n.version == seen.version then Some(Guarded(n)) else None
    ensures Cordoned(Guarded(n)) && Guarded(n).installId == n.installId
  {
    GuardPatchIff(n, seen);
  }

  lemma {:induction false} PatchStep(n: Node, op: Operation, rest: seq<Operation>)
    ensures ApplyPatch(n, [op] + rest) == match ApplyOperation(n, op) case None => None case Some(m) => ApplyPatch(m, rest)
  {
    assert ([op] + rest)[1..] == rest;
  }

  // --- the promotion controller ----------------------------------------------------------------

  datatype Promotion = Start | Result(status: string)

  /** A promotion starts on a node without a status and cordons it; a complete one lifts the cordon. */
  function Promote(n: Node, p: Promotion): Node {
    match p
    case Start => if n.promote.None? then n.(promote := Some(RUNNING), unschedulable := Some(true)) else n
    case Result(status) =>
      if n.promote == Some(RUNNING) && status != RUNNING then
        n.(promote := Some(status), unschedulable := if status == COMPLETE then Some(false) else n.unschedulable)
      else n
  }

  function PromoteAll(n: Node, ps: seq<Promotion>): Node
    decreases |ps|
  {
    if ps == [] then n else PromoteAll(Promote(n, ps[0]), ps[1..])
  }

  lemma {:induction false} EndedStays(n: Node, ps: seq<Promotion>)
    requires n.promote.Some? && n.promote != Some(RUNNING)
    ensures PromoteAll(n, ps) == n
    decreases |ps|
  {
    if ps == [] {
    } else {
      EndedStays(n, ps[1..]);
    }
  }

  lemma {:induction false} MayBeLifted(n: Node) returns (ps: seq<Promotion>)
    requires Cordoned(n) && (n.promote.None? || n.promote == Some(RUNNING))
    ensures !Cordoned(PromoteAll(n, ps))
  {
    var started := n.(promote := Some(RUNNING), unschedulable := Some(true));
    var lifted := n.(promote := Some(COMPLETE), unschedulable := Some(false));
    assert [Result(COMPLETE)][1..] == [] && Promote(started, Result(COMPLETE)) == lifted;
    assert PromoteAll(started, [Result(COMPLETE)]) == PromoteAll(lifted, []) == lifted;
    if n.promote.None? {
      ps := [Start, Result(COMPLETE)];
      assert ps[1..] == [Result(COMPLETE)] && Promote(n, Start) == started;
    } else {
      ps := [Result(COMPLETE)];
      assert n == started;
    }
  }

  /**
   * A cordoned node stays cordoned whatever the controller does next, if and
   * only if its promotion is over: one that is running, or not started, may
   * still complete and lift the cordon.
   */
  lemma {:induction false} CordonLastsIff(n: Node)
    requires Cordoned(n)
    ensures (forall ps :: Cordoned(PromoteAll(n, ps))) <==> n.promote.Some? && n.promote != Some(RUNNING)
  {
    if n.promote.Some? && n.promote != Some(RUNNING) {
      forall ps: seq<Promotion>
        ensures Cordoned(PromoteAll(n, ps))
      {
        EndedStays(n, ps);
      }
    } else {
      var ps := MayBeLifted(n);
    }
  }

  // --- readiness -----------------------------------------------------------------------------------

  const PROFILE_LABEL := "harvester-ops.io/storage-profile"
  const DEFAULT_DISK := "/var/lib/harvester/defaultdisk"

  datatype StorageDisk = StorageDisk(path: string, conditions: seq<Condition>)
  datatype Pod = Pod(namespace: string, node: string, daemonsets: seq<string>, deleting: bool, phase: string, conditions: seq<Condition>)

  /** The CSI plugin that the profile expects on the node. */
  datatype Csi = Csi(namespace: string, daemonset: string)

  /** The last condition of this kind has this status. */
  ghost predicate StatusIs(cs: seq<Condition>, kind: string, status: string) {
    exists i :: 0 <= i < |cs| && cs[i] == Condition(kind, status) && forall j :: i < j < |cs| ==> cs[j].kind != kind
  }

  ghost predicate DiskReady(disks: seq<StorageDisk>) {
    exists d :: d in disks && d.path == "/var/lib/harvester/defaultdisk" && Condition("Ready", "True") in d.conditions
  }

  /** A pod of the plugin on the host, that is not going away. */
  ghost predicate IsPlugin(p: Pod, csi: Csi, host: string) {
    p.namespace == csi.namespace && p.node == host && csi.daemonset in p.daemonsets && !p.deleting
  }

  /** There is one such pod, running and ready. */
  ghost predicate PluginReady(pods: seq<Pod>, csi: Csi, host: string) {
    exists k :: 0 <= k < |pods| && OnlyPlugin(pods, k, csi, host)
  }

  ghost predicate OnlyPlugin(pods: seq<Pod>, k: int, csi: Csi, host: string)
    requires 0 <= k < |pods|
  {
    && pods[k].phase == "Running" && Condition("Ready", "True") in pods[k].conditions
    && forall j :: 0 <= j < |pods| ==> (IsPlugin(pods[j], csi, host) <==> j == k)
  }

  /** All that `readiness` asks of a host. */
  ghost predicate AllReady(n: Node, disks: seq<StorageDisk>, pods: seq<Pod>, profile: string, csi: Option<Csi>) {
    && StatusIs(n.conditions, "Ready", "True") && Cordoned(n) && DiskReady(disks)
    && "harvester-ops.io/storage-profile" in n.labels && n.labels["harvester-ops.io/storage-profile"] == profile
    && StatusIs(n.conditions, "MemoryPressure", "False") && StatusIs(n.conditions, "DiskPressure", "False")
    && StatusIs(n.conditions, "PIDPressure", "False")
    && (csi.Some? ==> PluginReady(pods, csi.value, n.name))
  }

  lemma {:induction false} StatusMore(cs: seq<Condition>, c: Condition, kind: string, status: string)
    ensures StatusIs(cs + [c], kind, status) <==> if c.kind == kind then c.status == status else StatusIs(cs, kind, status)
  {
    var all := cs + [c];
    assert all[|cs|] == c;
    if i :| 0 <= i < |cs| && cs[i] == Condition(kind, status) && forall j :: i < j < |cs| ==> cs[j].kind != kind {
      assert all[i] == cs[i];
    }
    if i :| 0 <= i < |all| && all[i] == Condition(kind, status) && forall j :: i < j < |all| ==> all[j].kind != kind {
      assert i < |cs| ==> cs[i] == all[i] && forall j :: i < j < |cs| ==> cs[j] == all[j];
    }
  }

  lemma {:induction false} NoStatus()
    ensures Tabulates(map[], [])
  {
  }

  predicate Kept(statuses: map<string, string>, kind: string, status: string) {
    kind in statuses && statuses[kind] == status
  }

  ghost predicate Tabulates(statuses: map<string, string>, cs: seq<Condition>) {
    forall k, v :: Kept(statuses, k, v) <==> StatusIs(cs, k, v)
  }

  lemma {:induction false} OneMoreStatus(statuses: map<string, string>, cs: seq<Condition>, c: Condition)
    requires Tabulates(statuses, cs)
    ensures Tabulates(statuses[c.kind := c.status], cs + [c])
  {
    hide StatusIs;
    forall k, v
      ensures Kept(statuses[c.kind := c.status], k, v) <==> StatusIs(cs + [c], k, v)
    {
      StatusMore(cs, c, k, v);
    }
  }

  /** The statuses by kind; a later condition replaces an earlier one. */
  method Statuses(cs: seq<Condition>) returns (statuses: map<string, string>)
    ensures forall k, v :: Kept(statuses, k, v) <==> StatusIs(cs, k, v)
  {
    statuses := map[];
    NoStatus();
    assert cs[..0] == [];
    hide StatusIs, Kept;
    for n := 0 to |cs|
      invariant Tabulates(statuses, cs[..n])
    {
      assert cs[..n + 1] == cs[..n] + [cs[n]];
      OneMoreStatus(statuses, cs[..n], cs[n]);
      statuses := statuses[cs[n].kind := cs[n].status];
    }
    assert cs[..|cs|] == cs;
  }

  function Plugins(pods: seq<Pod>, csi: Csi, host: string): seq<Pod> {
    if pods == [] then []
    else
      var p := pods[|pods| - 1];
      Plugins(pods[..|pods| - 1], csi, host)
      + (if p.namespace == csi.namespace && p.node == host && csi.daemonset in p.daemonsets && !p.deleting then [p] else [])
  }

  lemma {:induction false} NoPlugin(pods: seq<Pod>, csi: Csi, host: string)
    ensures Plugins(pods, csi, host) == [] <==> forall j :: 0 <= j < |pods| ==> !IsPlugin(pods[j], csi, host)
  {
    if pods == [] {
    } else {
      var n := |pods| - 1;
      NoPlugin(pods[..n], csi, host);
      if IsPlugin(pods[n], csi, host) {
        assert Plugins(pods, csi, host)[|Plugins(pods[..n], csi, host)|] == pods[n];
      } else {
        assert Plugins(pods, csi, host) == Plugins(pods[..n], csi, host);
        assert forall j :: 0 <= j < n ==> pods[..n][j] == pods[j];
      }
    }
  }

  predicate Serves(p: Pod) {
    p.phase == "Running" && exists c :: c in p.conditions && c.kind == "Ready" && c.status == "True"
  }

  lemma {:induction false} ServesIff(p: Pod)
    ensures Serves(p) <==> p.phase == "Running" && Condition("Ready", "True") in p.conditions
  {
    if c :| c in p.conditions && c.kind == "Ready" && c.status == "True" {
      assert c == Condition("Ready", "True");
    }
  }

  lemma {:induction false} OnePluginIff(pods: seq<Pod>, csi: Csi, host: string)
    ensures |Plugins(pods, csi, host)| == 1 && Serves(Plugins(pods, csi, host)[0]) <==> PluginReady(pods, csi, host)
  {
    if pods == [] {
    } else {
      var n := |pods| - 1;
      var before, last := pods[..n], pods[n];
      NoPlugin(before, csi, host);
      OnePluginIff(before, csi, host);
      ServesIff(last);
      hide Serves;
      assert forall j :: 0 <= j < n ==> before[j] == pods[j];
      var found := Plugins(before, csi, host);
      if IsPlugin(last, csi, host) {
        hide IsPlugin;
        assert Plugins(pods, csi, host) == found + [last];
        if found == [] {
          assert OnlyPlugin(pods, n, csi, host) <==> Serves(last);
          assert forall k :: 0 <= k < n ==> !OnlyPlugin(pods, k, csi, host);
        } else {
          var j :| 0 <= j < n && IsPlugin(before[j], csi, host);
          assert IsPlugin(pods[j], csi, host) && !PluginReady(pods, csi, host);
        }
      } else {
        assert Plugins(pods, csi, host) == found;
        hide IsPlugin;
        PluginBefore(pods, csi, host);
      }
    }
  }

  lemma {:induction false} PluginBefore(pods: seq<Pod>, csi: Csi, host: string)
    requires pods != [] && !IsPlugin(pods[|pods| - 1], csi, host)
    ensures PluginReady(pods, csi, host) <==> PluginReady(pods[..|pods| - 1], csi, host)
  {
    hide IsPlugin;
    var n := |pods| - 1;
    var before := pods[..n];
    assert forall j :: 0 <= j < n ==> before[j] == pods[j];
    if k :| 0 <= k < n && OnlyPlugin(before, k, csi, host) {
      assert pods[k] == before[k] && forall j :: 0 <= j < |pods| ==> (IsPlugin(pods[j], csi, host) <==> j == k);
      assert OnlyPlugin(pods, k, csi, host);
    }
    if k :| 0 <= k < |pods| && OnlyPlugin(pods, k, csi, host) {
      assert k < n && before[k] == pods[k] && forall j :: 0 <= j < n ==> (IsPlugin(before[j], csi, host) <==> j == k);
      assert OnlyPlugin(before, k, csi, host);
    }
  }

  function Facts(node: bool, cordoned: bool, disk: bool, setup: bool, pressure: bool): map<string, bool> {
    map["node" := node, "cordoned" := cordoned, "local_disk" := disk, "storage_boot_setup" := setup, "pressure_clear" := pressure]
  }

  lemma {:induction false} AllFacts(node: bool, cordoned: bool, disk: bool, setup: bool, pressure: bool, plugin: bool)
    ensures var m := Facts(node, cordoned, disk, setup, pressure);
      var all := m["csi_node" := plugin];
      && ((forall k :: k in m ==> m[k]) <==> node && cordoned && disk && setup && pressure)
      && ((forall k :: k in all ==> all[k]) <==> node && cordoned && disk && setup && pressure && plugin)
  {
    var m := Facts(node, cordoned, disk, setup, pressure);
    assert m["node"] == node && m["cordoned"] == cordoned && m["local_disk"] == disk;
    assert m["storage_boot_setup"] == setup && m["pressure_clear"] == pressure;
    assert "csi_node" !in m;
    var all := m["csi_node" := plugin];
    assert all["csi_node"] == plugin && forall k :: k in m ==> all[k] == m[k];
  }

  /** `readiness`: the facts by name; all are true exactly when the host is ready. */
  method Readiness(n: Node, disks: seq<StorageDisk>, pods: seq<Pod>, profile: string, csi: Option<Csi>) returns (latest: map<string, bool>)
    ensures (forall k :: k in latest ==> latest[k]) <==> AllReady(n, disks, pods, profile, csi)
  {
    hide StatusIs, PluginReady, Plugins, Serves, DiskReady, Facts;
    var conditions := Statuses(n.conditions);
    var node := Kept(conditions, "Ready", "True");
    var disk := exists d :: d in disks && ReadyDisk(d);
    var setup := PROFILE_LABEL in n.labels && n.labels[PROFILE_LABEL] == profile;
    var pressure := Kept(conditions, "MemoryPressure", "False") && Kept(conditions, "DiskPressure", "False")
      && Kept(conditions, "PIDPressure", "False");
    DiskReadyIff(disks);
    latest := Facts(node, n.unschedulable == Some(true), disk, setup, pressure);
    AllFacts(node, n.unschedulable == Some(true), disk, setup, pressure, false);
    if csi.Some? {
      var plugins := Plugins(pods, csi.value, n.name);
      OnePluginIff(pods, csi.value, n.name);
      var plugin := |plugins| == 1 && Serves(plugins[0]);
      AllFacts(node, n.unschedulable == Some(true), disk, setup, pressure, plugin);
      latest := latest["csi_node" := plugin];
    }
  }

  predicate ReadyDisk(d: StorageDisk) {
    d.path == DEFAULT_DISK && exists c :: c in d.conditions && c.kind == "Ready" && c.status == "True"
  }

  lemma {:induction false} DiskReadyIff(disks: seq<StorageDisk>)
    ensures (exists d :: d in disks && ReadyDisk(d)) <==> DiskReady(disks)
  {
    if d :| d in disks && ReadyDisk(d) {
      var c :| c in d.conditions && c.kind == "Ready" && c.status == "True";
      assert c == Condition("Ready", "True");
    }
    if d :| d in disks && d.path == "/var/lib/harvester/defaultdisk" && Condition("Ready", "True") in d.conditions {
      assert ReadyDisk(d);
    }
  }
}
