/**
 * The locks of commands on one KVM host (bin/harvester-kvm.py): non-blocking
 * file locks, shared or exclusive, taken one by one by any number of commands
 * at once. A command that finds one busy closes all it has opened.
 */
module KvmLocks {
  import opened Names
  import Text
  import opened Wrappers

  // --- requests ---------------------------------------------------------------------------

  datatype Lock = VmLock(name: string) | PoolLock(name: string) | VolumeLock(name: string) | NetworkLock(name: string)
  datatype Mode = Shared | Exclusive
  datatype Request = Request(lock: Lock, mode: Mode)

  datatype Source = Source(pool: Option<string>, imagePool: Option<string>)
  datatype Nic = Nic(kind: string, source: Option<string>)

  /** What a request file says of disks, seed and cards; parts of another type are absent. */
  datatype Spec = Spec(disks: seq<Option<Source>>, seedPool: Option<string>, nics: seq<Nic>)

  datatype Verb = StartVerb | StopVerb | RefreshVerb | AutostartVerb

  /** A volume of a pool. */
  datatype Vol = Vol(pool: string, name: string)

  datatype Command =
    | OnVm(name: string)                                   // power, note, delete, snapshot
    | Clone(name: string, copy: string)
    | Create(names: seq<string>, spec: Spec)
    | Edit(name: string, newName: string, spec: Spec)
    | Hot(name: string, pools: seq<string>, networks: seq<string>)
    | NewSeed(name: string)
    | VerifyImage(volume: Vol)
    | WriteVolume(volume: Vol)                             // upload, create, delete
    | ResizeVolume(volume: Vol)
    | ChangePool(pool: string)                             // define, delete
    | PoolVerb(pool: string, verb: Verb)
    | ChangeNetwork(network: string)                       // define, delete
    | NetworkVerb(network: string, verb: Verb)

  /**
   * The volumes a command works on besides those of its arguments, known once
   * its plan is accepted: a creation's disks and seeds and the images it reads;
   * the copies of a clone and what they are copied from; the disk added by an
   * edit; the new seed, and the one before it that is removed; the storage
   * removed with a VM.
   */
  datatype Plan = Plan(created: seq<Vol>, removed: seq<Vol>, read: seq<Vol>)

  /** A command, with its plan once there is one. */
  datatype Work = Work(command: Command, plan: Option<Plan>)

  function Given(x: Option<string>): seq<string> {
    if x.Some? then [x.value] else []
  }

  function DiskPool(disk: Option<Source>): seq<string> {
    if disk.Some? then Given(disk.value.pool) + Given(disk.value.imagePool) else []
  }

  function DiskPools(disks: seq<Option<Source>>): seq<string> {
    if disks == [] then [] else DiskPool(disks[0]) + DiskPools(disks[1..])
  }

  /** The pools a creation writes to: its disks, their images, the seed. */
  function PoolsOf(spec: Spec): seq<string> {
    DiskPools(spec.disks) + Given(spec.seedPool)
  }

  lemma {:induction false} DiskPoolIs(disk: Option<Source>)
    ensures DiskPool(disk) == if disk.Some? then Given(disk.value.pool) + Given(disk.value.imagePool) else []
  {
  }

  lemma {:induction false} DiskPoolsStep(disks: seq<Option<Source>>, n: nat)
    requires n < |disks|
    ensures DiskPools(disks[n..]) == DiskPool(disks[n]) + DiskPools(disks[n + 1..])
  {
    assert disks[n..][0] == disks[n] && disks[n..][1..] == disks[n + 1..];
  }

  function NetworksOf(nics: seq<Nic>): seq<string> {
    if nics == [] then []
    else (if nics[0].kind == "network" then Given(nics[0].source) else []) + NetworksOf(nics[1..])
  }

  // --- what a request uses -----------------------------------------------------------------

  ghost predicate DiskUses(disk: Option<Source>, x: string) {
    disk.Some? && (disk.value.pool == Some(x) || disk.value.imagePool == Some(x))
  }

  /** Some disk or its image is in the pool, or the seed is to be. */
  ghost predicate UsesPool(spec: Spec, x: string) {
    (exists i :: 0 <= i < |spec.disks| && DiskUses(spec.disks[i], x)) || spec.seedPool == Some(x)
  }

  /** Some card of kind "network" is on it. */
  ghost predicate UsesNetwork(nics: seq<Nic>, x: string) {
    exists i :: 0 <= i < |nics| && nics[i].kind == "network" && nics[i].source == Some(x)
  }

  lemma {:induction false} DiskPoolsIff(disks: seq<Option<Source>>, x: string)
    ensures x in DiskPools(disks) <==> exists i :: 0 <= i < |disks| && DiskUses(disks[i], x)
  {
    if disks == [] {
    } else {
      DiskPoolsIff(disks[1..], x);
      assert x in DiskPool(disks[0]) <==> DiskUses(disks[0], x);
      hide DiskPool, DiskUses;
      if i :| 0 <= i < |disks[1..]| && DiskUses(disks[1..][i], x) {
        assert DiskUses(disks[i + 1], x);
      }
      if i :| 0 <= i < |disks| && DiskUses(disks[i], x) {
        assert i == 0 || DiskUses(disks[1..][i - 1], x);
      }
    }
  }

  /** The pools of a request are those that a disk, an image or the seed is in. */
  lemma {:induction false} PoolsOfIff(spec: Spec, x: string)
    ensures x in PoolsOf(spec) <==> UsesPool(spec, x)
  {
    DiskPoolsIff(spec.disks, x);
  }

  lemma {:induction false} NetworksOfIff(nics: seq<Nic>, x: string)
    ensures x in NetworksOf(nics) <==> UsesNetwork(nics, x)
  {
    if nics == [] {
    } else {
      NetworksOfIff(nics[1..], x);
      if i :| 0 <= i < |nics[1..]| && nics[1..][i].kind == "network" && nics[1..][i].source == Some(x) {
        assert nics[i + 1] == nics[1..][i];
      }
      if i :| 0 <= i < |nics| && nics[i].kind == "network" && nics[i].source == Some(x) {
        assert i == 0 || nics[1..][i - 1] == nics[i];
      }
    }
  }

  lemma {:induction false} SortedPools(spec: Spec)
    ensures Ascending(Sorted(PoolsOf(spec))) && forall x :: x in Sorted(PoolsOf(spec)) <==> UsesPool(spec, x)
  {
    SortedHolds(PoolsOf(spec));
    hide Sorted, PoolsOf, UsesPool, Ascending;
    forall x
      ensures x in PoolsOf(spec) <==> UsesPool(spec, x)
    {
      PoolsOfIff(spec, x);
    }
  }

  /** `spec_pools` */
  method SpecPools(spec: Spec) returns (pools: seq<string>)
    ensures pools == Sorted(PoolsOf(spec))
    ensures Ascending(pools) && forall x :: x in pools <==> UsesPool(spec, x)
  {
    SortedPools(spec);
    hide Sorted, DiskPool, UsesPool, Ascending, Given;
    var found: seq<string> := [];
    assert spec.disks[0..] == spec.disks;
    for n := 0 to |spec.disks|
      invariant found + DiskPools(spec.disks[n..]) == DiskPools(spec.disks)
    {
      ghost var before := found;
      DiskPoolsStep(spec.disks, n);
      var disk := spec.disks[n];
      if disk.Some? {
        found := found + Given(disk.value.pool);
        found := found + Given(disk.value.imagePool);
      }
      DiskPoolIs(disk);
      assert found == before + DiskPool(disk);
      Text.AppendAssoc(before, DiskPool(disk), DiskPools(spec.disks[n + 1..]));
    }
    assert found + [] == found;
    pools := Sorted(found + Given(spec.seedPool));
  }

  function Asks(locks: string -> Lock, names: seq<string>, mode: Mode): (rs: seq<Request>)
    ensures |rs| == |names| && forall i :: 0 <= i < |rs| ==> rs[i] == Request(locks(names[i]), mode)
  {
    seq(|names|, i requires 0 <= i < |names| => Request(locks(names[i]), mode))
  }

  function VmsAsked(names: seq<string>): seq<Request> {
    Asks(n => VmLock(n), Sorted(names), Exclusive)
  }

  function PoolsAsked(names: seq<string>, mode: Mode): seq<Request> {
    Asks(n => PoolLock(n), Sorted(names), mode)
  }

  function VolumesAsked(names: seq<string>, mode: Mode): seq<Request> {
    Asks(n => VolumeLock(n), Sorted(names), mode)
  }

  function NetworksAsked(names: seq<string>, mode: Mode): seq<Request> {
    Asks(n => NetworkLock(n), Sorted(names), mode)
  }

  /** The name a volume is locked under. */
  function Path(v: Vol): string {
    v.pool + "/" + v.name
  }

  /** Two volumes have one lock only if they are one: no pool is named with a slash. */
  lemma {:induction false} PathsApart(a: Vol, b: Vol)
    requires '/' !in a.pool && '/' !in b.pool && Path(a) == Path(b)
    ensures a == b
  {
    PathSplits(a);
    PathSplits(b);
    assert Path(a)[|a.pool| + 1..] == a.name && Path(b)[|b.pool| + 1..] == b.name;
  }

  lemma {:induction false} PathSplits(v: Vol)
    requires '/' !in v.pool
    ensures Text.SplitOn(Path(v), '/')[0] == v.pool
  {
    var rest := "/" + v.name;
    assert Path(v) == v.pool + rest && Text.SplitOn(rest, '/')[0] == "" && v.pool + "" == v.pool;
    Text.SplitLead(v.pool, rest, '/');
  }

  function Paths(vs: seq<Vol>): (paths: seq<string>)
    ensures |paths| == |vs| && forall i :: 0 <= i < |vs| ==> paths[i] == Path(vs[i])
  {
    seq(|vs|, i requires 0 <= i < |vs| => Path(vs[i]))
  }

  function PoolNames(vs: seq<Vol>): (pools: seq<string>)
    ensures |pools| == |vs| && forall i :: 0 <= i < |vs| ==> pools[i] == vs[i].pool
  {
    seq(|vs|, i requires 0 <= i < |vs| => vs[i].pool)
  }

  function ModeOf(shared: bool): Mode {
    if shared then Shared else Exclusive
  }

  /** The locks a command takes at once, in order. */
  function FirstLocks(c: Command): seq<Request> {
    match c
    case OnVm(name) => VmsAsked([name])
    case Clone(name, copy) => VmsAsked([name, copy])
    case Create(names, spec) => VmsAsked(names) + PoolsAsked(PoolsOf(spec), Shared)
    case Edit(name, newName, spec) =>
      VmsAsked([name, newName]) + (PoolsAsked(PoolsOf(spec), Shared) + NetworksAsked(NetworksOf(spec.nics), Shared))
    case Hot(name, pools, networks) => VmsAsked([name]) + (PoolsAsked(pools, Shared) + NetworksAsked(networks, Shared))
    case NewSeed(name) => VmsAsked([name])
    case VerifyImage(volume) => PoolsAsked([volume.pool], Shared) + VolumesAsked([Path(volume)], Shared)
    case WriteVolume(volume) => PoolsAsked([volume.pool], Shared) + VolumesAsked([Path(volume)], Exclusive)
    case ResizeVolume(volume) => VolumesAsked([Path(volume)], Exclusive)
    case ChangePool(pool) => PoolsAsked([pool], Exclusive)
    case PoolVerb(pool, verb) => PoolsAsked([pool], ModeOf(verb in {RefreshVerb, StartVerb}))
    case ChangeNetwork(network) => NetworksAsked([network], Exclusive)
    case NetworkVerb(network, verb) => NetworksAsked([network], ModeOf(verb == StartVerb))
  }

  /** The locks taken once the plan is accepted, before anything is written: only for what is created. */
  function PlanLocks(w: Work): seq<Request> {
    match (w.command, w.plan)
    case (Create(_, spec), Some(plan)) =>
      VolumesAsked(Paths(plan.created), Exclusive) + NetworksAsked(NetworksOf(spec.nics), Shared)
    case (NewSeed(_), Some(plan)) =>
      PoolsAsked(PoolNames(plan.created), Shared) + VolumesAsked(Paths(plan.created), Exclusive)
    case _ => []
  }

  function Needs(w: Work): seq<Request> {
    FirstLocks(w.command) + PlanLocks(w)
  }

  // --- commands side by side -----------------------------------------------------------------

  type Pid = nat
  datatype Process = Process(work: Work, held: seq<Request>, todo: seq<Request>)
  type System = map<Pid, Process>

  predicate Compatible(a: Request, b: Request) {
    a.lock == b.lock ==> a.mode == Shared && b.mode == Shared
  }

  /** Some open descriptor, of any command and of this one too, is in the way. */
  predicate Busy(s: System, r: Request) {
    exists p :: p in s && exists i :: 0 <= i < |s[p].held| && !Compatible(s[p].held[i], r)
  }

  datatype Event =
    | Begin(pid: Pid, command: Command)
    | Take(pid: Pid)                // one lock, or the refusal that closes them all
    | Accept(pid: Pid, plan: Plan)  // the plan is known: more locks to take
    | End(pid: Pid)                 // finished, failed or killed: every descriptor closed

  function Do(s: System, e: Event): System {
    match e
    case Begin(pid, command) =>
      if pid in s then s else s[pid := Process(Work(command, None), [], FirstLocks(command))]
    case Take(pid) =>
      if pid !in s || s[pid].todo == [] then s
      else if Busy(s, s[pid].todo[0]) then s - {pid}
      else s[pid := s[pid].(held := s[pid].held + [s[pid].todo[0]], todo := s[pid].todo[1..])]
    case Accept(pid, plan) =>
      if pid !in s || s[pid].todo != [] || s[pid].work.plan.Some? then s
      else
        var w := s[pid].work.(plan := Some(plan));
        s[pid := s[pid].(work := w, todo := PlanLocks(w))]
    case End(pid) => s - {pid}
  }

  function DoAll(s: System, es: seq<Event>): System
    decreases |es|
  {
    if es == [] then s else DoAll(Do(s, es[0]), es[1..])
  }

  /** Past its locks: free to write. */
  ghost predicate Settled(s: System, p: Pid) {
    p in s && s[p].todo == []
  }

  ghost predicate HoldsInOrder(p: Process) {
    p.held + p.todo == Needs(p.work)
  }

  ghost predicate Excludes(s: System) {
    forall p, q, i, j ::
      p in s && q in s && 0 <= i < |s[p].held| && 0 <= j < |s[q].held| && (p != q || i != j) ==>
        Compatible(s[p].held[i], s[q].held[j])
  }

  ghost predicate Valid(s: System) {
    Excludes(s) && forall p :: p in s ==> HoldsInOrder(s[p])
  }

  lemma {:induction false} TakeExcludes(s: System, pid: Pid)
    requires Excludes(s) && pid in s && s[pid].todo != [] && !Busy(s, s[pid].todo[0])
    ensures Excludes(Do(s, Take(pid)))
  {
    var s' := Do(s, Take(pid));
    forall p, q, i, j | p in s' && q in s' && 0 <= i < |s'[p].held| && 0 <= j < |s'[q].held| && (p != q || i != j)
      ensures Compatible(s'[p].held[i], s'[q].held[j])
    {
      if i < |s[p].held| && j < |s[q].held| {
        assert Compatible(s[p].held[i], s[q].held[j]);
      }
    }
  }

  lemma {:induction false} TakeKeepsOrder(p: Process)
    requires HoldsInOrder(p) && p.todo != []
    ensures HoldsInOrder(p.(held := p.held + [p.todo[0]], todo := p.todo[1..]))
  {
    hide Needs;
    assert p.held + [p.todo[0]] + p.todo[1..] == p.held + p.todo;
  }

  lemma {:induction false} TakeKeepsValid(s: System, pid: Pid)
    requires Valid(s)
    ensures Valid(Do(s, Take(pid)))
  {
    if pid in s && s[pid].todo != [] && !Busy(s, s[pid].todo[0]) {
      hide HoldsInOrder, Busy, Needs;
      TakeExcludes(s, pid);
      TakeKeepsOrder(s[pid]);
    }
  }

  lemma {:induction false} BeginKeepsValid(s: System, pid: Pid, command: Command)
    requires Valid(s)
    ensures Valid(Do(s, Begin(pid, command)))
  {
    NoPlan(command);
    hide FirstLocks, PlanLocks, Compatible;
    assert [] + FirstLocks(command) == FirstLocks(command) + PlanLocks(Work(command, None));
  }

  lemma {:induction false} NoPlan(command: Command)
    ensures PlanLocks(Work(command, None)) == []
  {
    hide FirstLocks;
  }

  lemma {:induction false} AcceptKeepsValid(s: System, pid: Pid, plan: Plan)
    requires Valid(s)
    ensures Valid(Do(s, Accept(pid, plan)))
  {
    if pid in s && s[pid].todo == [] && s[pid].work.plan.None? {
      assert s[pid].held + [] == s[pid].held;
      assert FirstLocks(s[pid].work.command) + [] == FirstLocks(s[pid].work.command);
    }
  }

  lemma {:induction false} DoKeepsValid(s: System, e: Event)
    requires Valid(s)
    ensures Valid(Do(s, e))
  {
    hide FirstLocks, PlanLocks;
    match e
    case Begin(pid, command) => BeginKeepsValid(s, pid, command);
    case Take(pid) => TakeKeepsValid(s, pid);
    case Accept(pid, plan) => AcceptKeepsValid(s, pid, plan);
    case End(pid) =>
  }

  /** In every reachable state, the open locks are compatible and each command holds the start of what it asked for. */
  lemma {:induction false} ReachableValid(es: seq<Event>)
    ensures Valid(DoAll(map[], es))
  {
    AllKeepValid(map[], es);
  }

  lemma {:induction false} AllKeepValid(s: System, es: seq<Event>)
    requires Valid(s)
    ensures Valid(DoAll(s, es))
    decreases |es|
  {
    if es == [] {
    } else {
      DoKeepsValid(s, es[0]);
      AllKeepValid(Do(s, es[0]), es[1..]);
    }
  }

  lemma {:induction false} SettledApart(es: seq<Event>, p: Pid, q: Pid, a: Request, b: Request)
    requires var s := DoAll(map[], es); Settled(s, p) && Settled(s, q) && p != q && a in Needs(s[p].work) && b in Needs(s[q].work)
    ensures Compatible(a, b)
  {
    var s := DoAll(map[], es);
    ReachableValid(es);
    assert s[p].held + [] == s[p].held && s[q].held + [] == s[q].held;
    var i :| 0 <= i < |s[p].held| && s[p].held[i] == a;
    var j :| 0 <= j < |s[q].held| && s[q].held[j] == b;
  }

  // --- what commands exclude ----------------------------------------------------------------

  lemma {:induction false} Asked(locks: string -> Lock, names: seq<string>, mode: Mode, name: string)
    requires name in names
    ensures Request(locks(name), mode) in Asks(locks, Sorted(names), mode)
  {
    SortedHolds(names);
    var i :| 0 <= i < |Sorted(names)| && Sorted(names)[i] == name;
    assert Asks(locks, Sorted(names), mode)[i] == Request(locks(name), mode);
  }

  // --- no command is in its own way --------------------------------------------------------------

  ghost predicate DistinctLocks(rs: seq<Request>) {
    forall i, j :: 0 <= i < j < |rs| ==> rs[i].lock != rs[j].lock
  }

  lemma {:induction false} AsksDistinct(locks: string -> Lock, names: seq<string>, mode: Mode)
    requires forall a, b :: locks(a) == locks(b) ==> a == b
    ensures DistinctLocks(Asks(locks, Sorted(names), mode))
  {
    SortedHolds(names);
    forall i, j | 0 <= i < j < |Sorted(names)|
      ensures locks(Sorted(names)[i]) != locks(Sorted(names)[j])
    {
      LessTotal(Sorted(names)[i], Sorted(names)[j]);
    }
  }

  function Kind(l: Lock): nat {
    match l
    case VmLock(_) => 0
    case PoolLock(_) => 1
    case VolumeLock(_) => 2
    case NetworkLock(_) => 3
  }

  ghost predicate Between(rs: seq<Request>, lo: nat, hi: nat) {
    forall r :: r in rs ==> lo <= Kind(r.lock) < hi
  }

  lemma {:induction false} AppendDistinct(a: seq<Request>, b: seq<Request>, lo: nat, mid: nat, hi: nat)
    requires DistinctLocks(a) && DistinctLocks(b) && Between(a, lo, mid) && Between(b, mid, hi) && lo <= mid <= hi
    ensures DistinctLocks(a + b) && Between(a + b, lo, hi)
  {
    forall i, j | 0 <= i < j < |a + b|
      ensures (a + b)[i].lock != (a + b)[j].lock
    {
      if i < |a| <= j {
        assert a[i] in a && b[j - |a|] in b;
      }
    }
  }

  /** VM, pool, volume and network locks, each group sorted without repetition. */
  lemma {:induction false} GroupsDistinct(vms: seq<string>, pools: seq<string>, poolMode: Mode, volumes: seq<string>, volumeMode: Mode, networks: seq<string>)
    ensures var a, b := VmsAsked(vms), PoolsAsked(pools, poolMode);
      var c, d := VolumesAsked(volumes, volumeMode), NetworksAsked(networks, Shared);
      && DistinctLocks(a) && DistinctLocks(b) && DistinctLocks(c) && DistinctLocks(d)
      && DistinctLocks(a + b) && DistinctLocks(b + c) && DistinctLocks(c + d)
      && DistinctLocks(a + (b + d)) && DistinctLocks((a + b) + (c + d)) && DistinctLocks(a + (b + c))
  {
    var a, b := VmsAsked(vms), PoolsAsked(pools, poolMode);
    var c, d := VolumesAsked(volumes, volumeMode), NetworksAsked(networks, Shared);
    AsksDistinct(n => VmLock(n), vms, Exclusive);
    AsksDistinct(n => PoolLock(n), pools, poolMode);
    AsksDistinct(n => VolumeLock(n), volumes, volumeMode);
    AsksDistinct(n => NetworkLock(n), networks, Shared);
    assert Between(a, 0, 1) && Between(b, 1, 2) && Between(c, 2, 3) && Between(d, 3, 4) && Between(d, 2, 4);
    AppendDistinct(a, b, 0, 1, 2);
    AppendDistinct(b, c, 1, 2, 3);
    AppendDistinct(c, d, 2, 3, 4);
    AppendDistinct(b, d, 1, 2, 4);
    AppendDistinct(a, b + d, 0, 1, 4);
    AppendDistinct(a, b + c, 0, 1, 3);
    AppendDistinct(a + b, c + d, 0, 2, 4);
  }

  lemma {:induction false} NetworksAskedDistinct(networks: seq<string>, mode: Mode)
    ensures DistinctLocks(NetworksAsked(networks, mode))
  {
    AsksDistinct(n => NetworkLock(n), networks, mode);
  }

  lemma {:induction false} NothingDistinct()
    ensures DistinctLocks([])
  {
  }

  /** No command asks twice for the same lock. */
  lemma {:induction false} NeedsDistinct(w: Work)
    ensures DistinctLocks(Needs(w))
  {
    hide VmsAsked, PoolsAsked, VolumesAsked, NetworksAsked, DistinctLocks;
    NothingDistinct();
    var first := FirstLocks(w.command);
    assert first + [] == first;
    var created := if w.plan.Some? then w.plan.value.created else [];
    match w.command
    case OnVm(name) => GroupsDistinct([name], [], Shared, [], Shared, []);
    case Clone(name, copy) => GroupsDistinct([name, copy], [], Shared, [], Shared, []);
    case Create(names, spec) =>
      GroupsDistinct(names, PoolsOf(spec), Shared, Paths(created), Exclusive, NetworksOf(spec.nics));
    case Edit(name, newName, spec) => GroupsDistinct([name, newName], PoolsOf(spec), Shared, [], Shared, NetworksOf(spec.nics));
    case Hot(name, pools, networks) => GroupsDistinct([name], pools, Shared, [], Shared, networks);
    case NewSeed(name) => GroupsDistinct([name], PoolNames(created), Shared, Paths(created), Exclusive, []);
    case VerifyImage(volume) => GroupsDistinct([], [volume.pool], Shared, [Path(volume)], Shared, []);
    case WriteVolume(volume) => GroupsDistinct([], [volume.pool], Shared, [Path(volume)], Exclusive, []);
    case ResizeVolume(volume) => GroupsDistinct([], [], Shared, [Path(volume)], Exclusive, []);
    case ChangePool(pool) => GroupsDistinct([], [pool], Exclusive, [], Shared, []);
    case PoolVerb(pool, verb) => GroupsDistinct([], [pool], ModeOf(verb in {RefreshVerb, StartVerb}), [], Shared, []);
    case ChangeNetwork(network) => NetworksAskedDistinct([network], Exclusive);
    case NetworkVerb(network, verb) => NetworksAskedDistinct([network], ModeOf(verb == StartVerb));
  }

  lemma {:induction false} OwnLocksApart(p: Process, i: nat)
    requires HoldsInOrder(p) && i < |p.held| && p.todo != []
    ensures Compatible(p.held[i], p.todo[0])
  {
    NeedsDistinct(p.work);
    hide Needs;
    assert (p.held + p.todo)[i] == p.held[i] && (p.held + p.todo)[|p.held|] == p.todo[0];
  }

  /** Its own descriptors are never in a command's way: what is busy is busy without them. */
  lemma {:induction false} BusyByOthers(s: System, pid: Pid)
    requires pid in s && HoldsInOrder(s[pid]) && s[pid].todo != []
    ensures Busy(s, s[pid].todo[0]) <==> Busy(s - {pid}, s[pid].todo[0])
  {
    hide Needs, HoldsInOrder;
    var r := s[pid].todo[0];
    forall i | 0 <= i < |s[pid].held|
      ensures Compatible(s[pid].held[i], r)
    {
      OwnLocksApart(s[pid], i);
    }
    if Busy(s, r) {
      var q :| q in s && exists i :: 0 <= i < |s[q].held| && !Compatible(s[q].held[i], r);
      assert q in s - {pid} && (s - {pid})[q] == s[q];
    }
    if Busy(s - {pid}, r) {
      var q :| q in s - {pid} && exists i :: 0 <= i < |(s - {pid})[q].held| && !Compatible((s - {pid})[q].held[i], r);
      assert q in s && (s - {pid})[q] == s[q];
    }
  }

  // --- a command that ends leaves nothing behind ---------------------------------------------------

  function Mover(e: Event): Pid {
    match e
    case Begin(pid, _) => pid
    case Take(pid) => pid
    case Accept(pid, _) => pid
    case End(pid) => pid
  }

  /** The moves of one command never touch the locks of the others. */
  lemma {:induction false} OthersKept(s: System, es: seq<Event>, pid: Pid)
    requires forall e :: e in es ==> Mover(e) == pid
    ensures DoAll(s, es) - {pid} == s - {pid}
    decreases |es|
  {
    if es == [] {
    } else {
      assert es[0] in es && forall e :: e in es[1..] ==> e in es;
      assert Do(s, es[0]) - {pid} == s - {pid};
      OthersKept(Do(s, es[0]), es[1..], pid);
    }
  }

  /** A command that is over, refused or ended, leaves the locks as if it had never run. */
  lemma {:induction false} AsIfNeverRun(s: System, es: seq<Event>, pid: Pid)
    requires (forall e :: e in es ==> Mover(e) == pid) && pid !in s && pid !in DoAll(s, es)
    ensures DoAll(s, es) == s
  {
    OthersKept(s, es, pid);
    assert s - {pid} == s && DoAll(s, es) - {pid} == DoAll(s, es);
  }

  // --- which commands can be at work at the same time -------------------------------------------------

  /** Some lock is asked for by both, and not shared by both. */
  ghost predicate Clash(a: Work, b: Work) {
    exists r, t :: r in Needs(a) && t in Needs(b) && !Compatible(r, t)
  }

  ghost predicate AtWork(s: System, p: Pid, w: Work) {
    Settled(s, p) && s[p].work == w
  }

  /** Some run leads to both past their locks. */
  ghost predicate SideBySide(a: Work, b: Work) {
    exists es: seq<Event>, p: Pid, q: Pid :: p != q && AtWork(DoAll(map[], es), p, a) && AtWork(DoAll(map[], es), q, b)
  }

  lemma {:induction false} DoAllAppend(s: System, a: seq<Event>, b: seq<Event>)
    ensures DoAll(s, a + b) == DoAll(DoAll(s, a), b)
    decreases |a|
  {
    if a == [] {
      assert a + b == b;
    } else {
      assert (a + b)[0] == a[0] && (a + b)[1..] == a[1..] + b;
      DoAllAppend(Do(s, a[0]), a[1..], b);
    }
  }

  /** Locks that nobody else holds in the way are all taken. */
  lemma {:induction false} TakesAll(s: System, pid: Pid) returns (es: seq<Event>)
    requires Valid(s) && pid in s && forall r :: r in s[pid].todo ==> !Busy(s - {pid}, r)
    ensures var p := s[pid]; DoAll(s, es) == s[pid := p.(held := p.held + p.todo, todo := [])]
    decreases |s[pid].todo|
  {
    hide Needs, Busy, Excludes;
    var p := s[pid];
    if p.todo == [] {
      assert p.held + p.todo == p.held;
      es := [];
    } else {
      assert HoldsInOrder(p) && p.todo[0] in p.todo;
      BusyByOthers(s, pid);
      TakeKeepsValid(s, pid);
      hide HoldsInOrder, Valid;
      var s1 := Do(s, Take(pid));
      assert s1 - {pid} == s - {pid} && forall r :: r in p.todo[1..] ==> r in p.todo;
      var rest := TakesAll(s1, pid);
      assert p.held + [p.todo[0]] + p.todo[1..] == p.held + p.todo;
      es := [Take(pid)] + rest;
      assert es[1..] == rest;
    }
  }

  /** A command with nobody in its way begins and takes its first locks. */
  lemma {:induction false} Enters(s: System, pid: Pid, command: Command) returns (es: seq<Event>)
    requires Valid(s) && pid !in s && forall r :: r in FirstLocks(command) ==> !Busy(s, r)
    ensures DoAll(s, es) == s[pid := Process(Work(command, None), FirstLocks(command), [])] && Valid(DoAll(s, es))
  {
    hide FirstLocks, PlanLocks, Busy, Valid;
    var s0 := Do(s, Begin(pid, command));
    BeginKeepsValid(s, pid, command);
    assert s0 - {pid} == s;
    var first := TakesAll(s0, pid);
    AllKeepValid(s0, first);
    assert [] + FirstLocks(command) == FirstLocks(command);
    es := [Begin(pid, command)] + first;
    assert es[1..] == first;
  }

  /** Then its plan is accepted and it takes the rest. */
  lemma {:induction false} GoesOn(s: System, pid: Pid, plan: Plan) returns (es: seq<Event>)
    requires Valid(s) && Settled(s, pid) && s[pid].work.plan.None?
    requires forall r :: r in PlanLocks(s[pid].work.(plan := Some(plan))) ==> !Busy(s - {pid}, r)
    ensures var w := s[pid].work.(plan := Some(plan));
      DoAll(s, es) == s[pid := Process(w, s[pid].held + PlanLocks(w), [])] && Valid(DoAll(s, es))
  {
    hide PlanLocks, Busy, Valid;
    var s2 := Do(s, Accept(pid, plan));
    AcceptKeepsValid(s, pid, plan);
    assert s2 - {pid} == s - {pid};
    var more := TakesAll(s2, pid);
    AllKeepValid(s2, more);
    es := [Accept(pid, plan)] + more;
    assert es[1..] == more;
  }

  lemma {:induction false} GoesToWork(s: System, pid: Pid, w: Work) returns (es: seq<Event>)
    requires Valid(s) && pid !in s && forall r :: r in Needs(w) ==> !Busy(s, r)
    ensures DoAll(s, es) == s[pid := Process(w, Needs(w), [])] && Valid(DoAll(s, es))
  {
    hide FirstLocks, PlanLocks, Busy, Valid;
    assert forall r :: r in FirstLocks(w.command) ==> r in Needs(w);
    es := Enters(s, pid, w.command);
    if w.plan.None? {
      NoPlanNoLocks(w);
      assert FirstLocks(w.command) + [] == FirstLocks(w.command);
    } else {
      var s1 := DoAll(s, es);
      assert s1 - {pid} == s && forall r :: r in PlanLocks(w) ==> r in Needs(w);
      var more := GoesOn(s1, pid, w.plan.value);
      DoAllAppend(s, es, more);
      es := es + more;
    }
  }

  lemma {:induction false} NoPlanNoLocks(w: Work)
    requires w.plan.None?
    ensures PlanLocks(w) == []
  {
  }

  /**
   * Two commands can be at work at the same time if and only if no lock is
   * asked for by both and exclusively by one: what they do with it is not asked.
   */
  lemma {:induction false} SideBySideIff(a: Work, b: Work)
    ensures SideBySide(a, b) <==> !Clash(a, b)
  {
    hide Needs;
    if SideBySide(a, b) {
      var es: seq<Event>, p: Pid, q: Pid :| p != q && AtWork(DoAll(map[], es), p, a) && AtWork(DoAll(map[], es), q, b);
      forall r, t | r in Needs(a) && t in Needs(b)
        ensures Compatible(r, t)
      {
        SettledApart(es, p, q, r, t);
      }
    }
    if !Clash(a, b) {
      var es := GoesToWork(map[], 0, a);
      var s := DoAll(map[], es);
      forall r | r in Needs(b)
        ensures !Busy(s, r)
      {
        forall i | 0 <= i < |s[0].held|
          ensures Compatible(s[0].held[i], r)
        {
          assert s[0].held[i] in Needs(a);
        }
      }
      var more := GoesToWork(s, 1, b);
      DoAllAppend(map[], es, more);
      assert AtWork(DoAll(map[], es + more), 0, a) && AtWork(DoAll(map[], es + more), 1, b);
    }
  }

  // --- what is asked for, lock by lock ------------------------------------------------------------------

  lemma {:induction false} AskedIff(locks: string -> Lock, names: seq<string>, mode: Mode, r: Request)
    ensures r in Asks(locks, Sorted(names), mode) <==> exists n :: n in names && r == Request(locks(n), mode)
  {
    SortedHolds(names);
    var rs := Asks(locks, Sorted(names), mode);
    if r in rs {
      var i :| 0 <= i < |rs| && rs[i] == r;
      assert Sorted(names)[i] in names;
    }
    if n :| n in names && r == Request(locks(n), mode) {
      Asked(locks, names, mode, n);
    }
  }

  lemma {:induction false} GroupsAsked(names: seq<string>, mode: Mode, r: Request)
    ensures r in VmsAsked(names) <==> r.lock.VmLock? && r.lock.name in names && r.mode == Exclusive
    ensures r in PoolsAsked(names, mode) <==> r.lock.PoolLock? && r.lock.name in names && r.mode == mode
    ensures r in VolumesAsked(names, mode) <==> r.lock.VolumeLock? && r.lock.name in names && r.mode == mode
    ensures r in NetworksAsked(names, mode) <==> r.lock.NetworkLock? && r.lock.name in names && r.mode == mode
  {
    AskedIff(n => VmLock(n), names, Exclusive, r);
    AskedIff(n => PoolLock(n), names, mode, r);
    AskedIff(n => VolumeLock(n), names, mode, r);
    AskedIff(n => NetworkLock(n), names, mode, r);
  }

  /** The volumes a creation or a new seed locks: those it creates. */
  function Created(w: Work): seq<Vol> {
    if w.plan.Some? then w.plan.value.created else []
  }

  /** The pools whose lock a command asks for, and how. */
  ghost predicate AsksPool(w: Work, x: string, mode: Mode) {
    match w.command
    case Create(_, spec) => UsesPool(spec, x) && mode == Shared
    case Edit(_, _, spec) => UsesPool(spec, x) && mode == Shared
    case Hot(_, pools, _) => x in pools && mode == Shared
    case NewSeed(_) => x in PoolNames(Created(w)) && mode == Shared
    case VerifyImage(volume) => x == volume.pool && mode == Shared
    case WriteVolume(volume) => x == volume.pool && mode == Shared
    case ChangePool(pool) => x == pool && mode == Exclusive
    case PoolVerb(pool, verb) => x == pool && mode == ModeOf(verb in {RefreshVerb, StartVerb})
    case _ => false
  }

  ghost predicate AsksVolume(w: Work, x: string, mode: Mode) {
    match w.command
    case Create(_, _) => x in Paths(Created(w)) && mode == Exclusive
    case NewSeed(_) => x in Paths(Created(w)) && mode == Exclusive
    case VerifyImage(volume) => x == Path(volume) && mode == Shared
    case WriteVolume(volume) => x == Path(volume) && mode == Exclusive
    case ResizeVolume(volume) => x == Path(volume) && mode == Exclusive
    case _ => false
  }

  ghost predicate AsksNetwork(w: Work, x: string, mode: Mode) {
    match w.command
    case Create(_, spec) => w.plan.Some? && UsesNetwork(spec.nics, x) && mode == Shared
    case Edit(_, _, spec) => UsesNetwork(spec.nics, x) && mode == Shared
    case Hot(_, _, networks) => x in networks && mode == Shared
    case ChangeNetwork(network) => x == network && mode == Exclusive
    case NetworkVerb(network, verb) => x == network && mode == ModeOf(verb == StartVerb)
    case _ => false
  }

  ghost predicate AsksVm(w: Work, x: string, mode: Mode) {
    mode == Exclusive
    && (match w.command
        case OnVm(name) => x == name
        case Clone(name, copy) => x in [name, copy]
        case Create(names, _) => x in names
        case Edit(name, newName, _) => x in [name, newName]
        case Hot(name, _, _) => x == name
        case NewSeed(name) => x == name
        case _ => false)
  }

  ghost predicate Asking(w: Work, r: Request) {
    match r.lock
    case VmLock(name) => AsksVm(w, name, r.mode)
    case PoolLock(name) => AsksPool(w, name, r.mode)
    case VolumeLock(name) => AsksVolume(w, name, r.mode)
    case NetworkLock(name) => AsksNetwork(w, name, r.mode)
  }

  /** The locks of a command, one by one. */
  lemma {:induction false} NeedsIff(w: Work, r: Request)
    ensures r in Needs(w) <==> Asking(w, r)
  {
    hide VmsAsked, PoolsAsked, VolumesAsked, NetworksAsked, PoolsOf, NetworksOf, UsesPool, UsesNetwork;
    var vols := Created(w);
    match w.command
    case OnVm(name) => GroupsAsked([name], Shared, r);
    case Clone(name, copy) => GroupsAsked([name, copy], Shared, r);
    case Create(names, spec) =>
      GroupsAsked(names, Shared, r);
      GroupsAsked(PoolsOf(spec), Shared, r);
      GroupsAsked(Paths(vols), Exclusive, r);
      GroupsAsked(NetworksOf(spec.nics), Shared, r);
      PoolsOfIff(spec, r.lock.name);
      NetworksOfIff(spec.nics, r.lock.name);
    case Edit(name, newName, spec) =>
      GroupsAsked([name, newName], Shared, r);
      GroupsAsked(PoolsOf(spec), Shared, r);
      GroupsAsked(NetworksOf(spec.nics), Shared, r);
      PoolsOfIff(spec, r.lock.name);
      NetworksOfIff(spec.nics, r.lock.name);
    case Hot(name, pools, networks) =>
      GroupsAsked([name], Shared, r);
      GroupsAsked(pools, Shared, r);
      GroupsAsked(networks, Shared, r);
    case NewSeed(name) =>
      GroupsAsked([name], Shared, r);
      GroupsAsked(PoolNames(vols), Shared, r);
      GroupsAsked(Paths(vols), Exclusive, r);
    case VerifyImage(volume) =>
      GroupsAsked([volume.pool], Shared, r);
      GroupsAsked([Path(volume)], Shared, r);
    case WriteVolume(volume) =>
      GroupsAsked([volume.pool], Shared, r);
      GroupsAsked([Path(volume)], Exclusive, r);
    case ResizeVolume(volume) => GroupsAsked([Path(volume)], Exclusive, r);
    case ChangePool(pool) => GroupsAsked([pool], Exclusive, r);
    case PoolVerb(pool, verb) => GroupsAsked([pool], ModeOf(verb in {RefreshVerb, StartVerb}), r);
    case ChangeNetwork(network) => GroupsAsked([network], Exclusive, r);
    case NetworkVerb(network, verb) => GroupsAsked([network], ModeOf(verb == StartVerb), r);
  }

  // --- what a command works on, and whether that is locked -------------------------------------------------

  ghost predicate OnPool(w: Work, x: string) {
    AsksPool(w, x, Shared) || AsksPool(w, x, Exclusive)
  }

  ghost predicate OnVolume(w: Work, x: string) {
    AsksVolume(w, x, Shared) || AsksVolume(w, x, Exclusive)
  }

  ghost predicate OnNetwork(w: Work, x: string) {
    AsksNetwork(w, x, Shared) || AsksNetwork(w, x, Exclusive)
  }

  /** The volumes a command creates, sends, resizes, copies to or removes. */
  ghost function Writes(w: Work): seq<Vol> {
    (match w.command
     case WriteVolume(volume) => [volume]
     case ResizeVolume(volume) => [volume]
     case _ => [])
    + (if w.plan.Some? then w.plan.value.created + w.plan.value.removed else [])
  }

  /** The volumes it reads: an image verified, a disk copied, a medium inserted. */
  ghost function Reads(w: Work): seq<Vol> {
    (if w.command.VerifyImage? then [w.command.volume] else [])
    + (if w.plan.Some? then w.plan.value.read else [])
  }

  ghost predicate WorksIn(w: Work, x: string) {
    exists i :: 0 <= i < |Writes(w) + Reads(w)| && (Writes(w) + Reads(w))[i].pool == x
  }

  /** Stops, deletes, defines a pool, or changes its automatic start. */
  ghost predicate AlonePool(c: Command, x: string) {
    c == ChangePool(x) || c == PoolVerb(x, StopVerb) || c == PoolVerb(x, AutostartVerb)
  }

  ghost predicate AloneNetwork(c: Command, x: string) {
    c == ChangeNetwork(x) || c == NetworkVerb(x, StopVerb) || c == NetworkVerb(x, AutostartVerb)
  }

  lemma {:induction false} AlonePoolNeeds(w: Work, x: string)
    requires AlonePool(w.command, x)
    ensures forall r :: r in Needs(w) <==> r == Request(PoolLock(x), Exclusive)
  {
    hide Needs;
    forall r
      ensures r in Needs(w) <==> r == Request(PoolLock(x), Exclusive)
    {
      NeedsIff(w, r);
    }
  }

  lemma {:induction false} AloneNetworkNeeds(w: Work, x: string)
    requires AloneNetwork(w.command, x)
    ensures forall r :: r in Needs(w) <==> r == Request(NetworkLock(x), Exclusive)
  {
    hide Needs;
    forall r
      ensures r in Needs(w) <==> r == Request(NetworkLock(x), Exclusive)
    {
      NeedsIff(w, r);
    }
  }

  /**
   * Whoever stops, deletes or defines a pool has nobody beside it that asks
   * for the pool; anybody that does not can be at work in it meanwhile.
   */
  lemma {:induction false} PoolAlone(a: Work, b: Work, x: string)
    requires AlonePool(b.command, x)
    ensures SideBySide(a, b) <==> !OnPool(a, x)
  {
    SideBySideIff(a, b);
    hide Needs, SideBySide, AsksVm, AsksVolume, AsksNetwork;
    var mine := Request(PoolLock(x), Exclusive);
    AlonePoolNeeds(b, x);
    forall r | r in Needs(a)
      ensures !Compatible(r, mine) ==> OnPool(a, x)
    {
      NeedsIff(a, r);
      hide AsksPool;
    }
    NeedsIff(a, Request(PoolLock(x), Shared));
    NeedsIff(a, Request(PoolLock(x), Exclusive));
    hide AsksPool;
    if OnPool(a, x) {
      var r := Request(PoolLock(x), if AsksPool(a, x, Shared) then Shared else Exclusive);
      assert r in Needs(a) && mine in Needs(b) && !Compatible(r, mine);
    }
  }

  /** The same for a network. */
  lemma {:induction false} NetworkAlone(a: Work, b: Work, x: string)
    requires AloneNetwork(b.command, x)
    ensures SideBySide(a, b) <==> !OnNetwork(a, x)
  {
    SideBySideIff(a, b);
    hide Needs, SideBySide, AsksVm, AsksVolume, AsksPool;
    var mine := Request(NetworkLock(x), Exclusive);
    AloneNetworkNeeds(b, x);
    forall r | r in Needs(a)
      ensures !Compatible(r, mine) ==> OnNetwork(a, x)
    {
      NeedsIff(a, r);
      hide AsksNetwork;
    }
    NeedsIff(a, Request(NetworkLock(x), Shared));
    NeedsIff(a, Request(NetworkLock(x), Exclusive));
    hide AsksNetwork;
    if OnNetwork(a, x) {
      var r := Request(NetworkLock(x), if AsksNetwork(a, x, Shared) then Shared else Exclusive);
      assert r in Needs(a) && mine in Needs(b) && !Compatible(r, mine);
    }
  }

  /**
   * Who locks a volume alone has nobody beside it that asks for that volume,
   * and for a resize, an upload or a deletion nothing else is asked of others.
   */
  lemma {:induction false} VolumeAlone(a: Work, b: Work, x: string)
    requires AsksVolume(b, x, Exclusive)
    ensures SideBySide(a, b) ==> !OnVolume(a, x)
    ensures b.command.ResizeVolume? ==> (SideBySide(a, b) <==> !OnVolume(a, x))
    ensures b.command.WriteVolume? ==>
      (SideBySide(a, b) <==> !OnVolume(a, x) && !AsksPool(a, b.command.volume.pool, Exclusive))
  {
    SideBySideIff(a, b);
    hide Needs, SideBySide, AsksVm, AsksNetwork, AsksPool;
    var mine := Request(VolumeLock(x), Exclusive);
    NeedsIff(b, mine);
    NeedsIff(a, Request(VolumeLock(x), Shared));
    NeedsIff(a, Request(VolumeLock(x), Exclusive));
    if OnVolume(a, x) {
      var r := Request(VolumeLock(x), if AsksVolume(a, x, Shared) then Shared else Exclusive);
      assert r in Needs(a) && mine in Needs(b) && !Compatible(r, mine);
    }
    if b.command.ResizeVolume? || b.command.WriteVolume? {
      VolumeAloneBack(a, b);
    }
  }

  lemma {:induction false} VolumeAloneBack(a: Work, b: Work)
    requires b.command.ResizeVolume? || b.command.WriteVolume?
    ensures var v := b.command.volume;
      Clash(a, b) <==> OnVolume(a, Path(v)) || (b.command.WriteVolume? && AsksPool(a, v.pool, Exclusive))
  {
    hide Needs;
    var v := b.command.volume;
    var mine, under := Request(VolumeLock(Path(v)), Exclusive), Request(PoolLock(v.pool), Shared);
    forall r
      ensures r in Needs(b) <==> r == mine || (b.command.WriteVolume? && r == under)
    {
      NeedsIff(b, r);
    }
    hide AsksVm, AsksNetwork, AsksPool, AsksVolume;
    forall r | r in Needs(a)
      ensures !Compatible(r, mine) ==> OnVolume(a, Path(v))
      ensures !Compatible(r, under) ==> AsksPool(a, v.pool, Exclusive)
    {
      NeedsIff(a, r);
    }
    NeedsIff(a, Request(PoolLock(v.pool), Exclusive));
    NeedsIff(a, Request(VolumeLock(Path(v)), Shared));
    NeedsIff(a, mine);
    if OnVolume(a, Path(v)) {
      var r := Request(VolumeLock(Path(v)), if AsksVolume(a, Path(v), Shared) then Shared else Exclusive);
      assert r in Needs(a) && mine in Needs(b) && !Compatible(r, mine);
    }
    if b.command.WriteVolume? && AsksPool(a, v.pool, Exclusive) {
      assert Request(PoolLock(v.pool), Exclusive) in Needs(a) && under in Needs(b) && !Compatible(Request(PoolLock(v.pool), Exclusive), under);
    }
  }

  // --- what is worked on without its lock --------------------------------------------------------------------

  /**
   * A clone, the storage removed with a VM, and a resize work in a pool whose
   * lock they do not ask for: the pool can be stopped or deleted meanwhile.
   */
  lemma {:induction false} PoolStoppedUnder(a: Work, x: string)
    requires WorksIn(a, x) && (a.command.OnVm? || a.command.Clone? || a.command.ResizeVolume?)
    ensures SideBySide(a, Work(PoolVerb(x, StopVerb), None)) && SideBySide(a, Work(ChangePool(x), None))
  {
    PoolAlone(a, Work(PoolVerb(x, StopVerb), None), x);
    PoolAlone(a, Work(ChangePool(x), None), x);
  }

  /**
   * No command locks the volumes that a clone reads and creates, that go with
   * a VM, that an edit creates or that a medium is read from: each can be
   * sent, resized or deleted by another command meanwhile.
   */
  lemma {:induction false} VolumeTakenUnder(a: Work, v: Vol)
    requires v in Writes(a) + Reads(a)
    requires a.command.OnVm? || a.command.Clone? || a.command.Edit? || a.command.Hot?
    ensures SideBySide(a, Work(WriteVolume(v), None)) && SideBySide(a, Work(ResizeVolume(v), None))
  {
    VolumeAlone(a, Work(WriteVolume(v), None), Path(v));
    VolumeAlone(a, Work(ResizeVolume(v), None), Path(v));
  }

  /** The seed that a new one replaces is removed without its lock, and an image is read for a creation without its own. */
  lemma {:induction false} OtherVolumesUnlocked(a: Work, v: Vol)
    requires a.plan.Some? && v in a.plan.value.removed + a.plan.value.read && Path(v) !in Paths(a.plan.value.created)
    requires a.command.NewSeed? || a.command.Create?
    ensures SideBySide(a, Work(WriteVolume(v), None)) && SideBySide(a, Work(ResizeVolume(v), None))
  {
    VolumeAlone(a, Work(WriteVolume(v), None), Path(v));
    VolumeAlone(a, Work(ResizeVolume(v), None), Path(v));
  }

  // --- the loops of vm_lock and object_lock ---------------------------------------------------------

  class LockDirectory {
    var system: System

    /** All the locks asked for, or the first busy one and every descriptor closed. */
    method TakeAll(pid: Pid) returns (busy: bool)
      requires Valid(system) && pid in system
      modifies this
      ensures Valid(system)
      ensures busy <==> exists r :: r in old(system)[pid].todo && Busy(old(system) - {pid}, r)
      ensures busy ==> system == old(system) - {pid}
      ensures !busy ==> var p := old(system)[pid]; system == old(system)[pid := p.(held := p.held + p.todo, todo := [])]
    {
      hide Needs, FirstLocks, PlanLocks, Busy, Excludes;
      ghost var s := system;
      var p := system[pid];
      assert p.held + p.todo[..0] == p.held && p.todo[0..] == p.todo;
      for n := 0 to |p.todo|
        invariant pid in system && Valid(system)
        invariant system == s[pid := p.(held := p.held + p.todo[..n], todo := p.todo[n..])]
        invariant forall i :: 0 <= i < n ==> !Busy(s - {pid}, p.todo[i])
      {
        assert HoldsInOrder(system[pid]);
        BusyByOthers(system, pid);
        TakeKeepsValid(system, pid);
        assert system - {pid} == s - {pid} && system[pid].todo[0] == p.todo[n];
        var blocked := Busy(system, system[pid].todo[0]);
        system := Do(system, Take(pid));
        if blocked {
          assert p.todo[n] in p.todo;
          return true;
        }
        assert p.held + p.todo[..n] + [p.todo[n]] == p.held + p.todo[..n + 1];
        assert p.todo[n..][1..] == p.todo[n + 1..];
      }
      assert p.todo[..|p.todo|] == p.todo && p.todo[|p.todo|..] == [];
      return false;
    }

    /** The beginning of a command: its first locks. */
    method Enter(pid: Pid, command: Command) returns (busy: bool)
      requires Valid(system) && pid !in system
      modifies this
      ensures Valid(system)
      ensures busy <==> exists r :: r in FirstLocks(command) && Busy(old(system), r)
      ensures system == if busy then old(system) else old(system)[pid := Process(Work(command, None), FirstLocks(command), [])]
    {
      hide PlanLocks, Busy, Excludes, FirstLocks;
      ghost var s := system;
      BeginKeepsValid(system, pid, command);
      system := Do(system, Begin(pid, command));
      assert system - {pid} == s;
      busy := TakeAll(pid);
      assert [] + FirstLocks(command) == FirstLocks(command);
    }

    /** `hold`: the plan is accepted, nothing is written yet. */
    method Hold(pid: Pid, plan: Plan) returns (busy: bool)
      requires Valid(system) && Settled(system, pid) && system[pid].work.plan.None?
      modifies this
      ensures Valid(system)
      ensures busy <==> exists r :: r in PlanLocks(old(system)[pid].work.(plan := Some(plan))) && Busy(old(system) - {pid}, r)
      ensures busy ==> system == old(system) - {pid}
      ensures !busy ==> var p := old(system)[pid];
        var w := p.work.(plan := Some(plan));
        system == old(system)[pid := Process(w, p.held + PlanLocks(w), [])]
    {
      hide PlanLocks, Busy, Excludes, FirstLocks;
      ghost var s := system;
      AcceptKeepsValid(system, pid, plan);
      system := Do(system, Accept(pid, plan));
      assert system - {pid} == s - {pid};
      busy := TakeAll(pid);
    }
  }
}
