/**
 * Going back to the source machines of a wave (bin/harvester-forklift.py,
 * cmd_wave_rollback, halt_vm, until): the Harvester copy stops first, then the
 * source starts. Any call to the cluster may fail, and the command may be run
 * again at any time.
 */
module ForkliftRollback {
  import opened Wrappers

  type VmId = string
  type Name = string

  /** `spec.running` and `spec.runStrategy` of a VirtualMachine, each perhaps absent. */
  datatype Spec = Spec(running: Option<bool>, strategy: Option<string>)

  /** `copyOf`: the source id that Forklift wrote on the copies made by this wave's plan. */
  datatype Machine = Machine(spec: Spec, copyOf: Option<VmId>)

  /** Machines and running instances of the target namespace, sources that are on, sources recorded as rolled back. */
  datatype World = World(vms: map<Name, Machine>, instances: set<Name>, on: set<VmId>, record: set<VmId>)

  /** What the wave's status says; `listing` is the order in which the cluster lists machines. */
  datatype Wave = Wave(
    switched: bool,              // succeeded or failed: a rollback is allowed
    hasUid: bool,
    listing: seq<Name>,
    expected: map<VmId, Name>,   // the name Forklift was expected to give
    created: set<VmId>,          // Forklift finished creating the machine
    cutover: set<VmId>)          // the switchover of this machine has started

  predicate Halted(s: Spec) {
    if s.running.Some? && s.strategy.None? then !s.running.value else s.strategy == Some("Halted")
  }

  function Halt(s: Spec): (r: Spec)
    ensures Halted(r) && (Halted(s) ==> r == s)
  {
    if s.running.Some? && s.strategy.None? then s.(running := Some(false)) else s.(strategy := Some("Halted"))
  }

  function FirstLabelled(vms: map<Name, Machine>, listing: seq<Name>, id: VmId): (n: Option<Name>)
    ensures n.Some? ==> n.value in vms && vms[n.value].copyOf == Some(id)
    ensures n.None? ==> forall x :: x in listing && x in vms ==> vms[x].copyOf != Some(id)
  {
    if listing == [] then None
    else if listing[0] in vms && vms[listing[0]].copyOf == Some(id) then Some(listing[0])
    else FirstLabelled(vms, listing[1..], id)
  }

  /** The machine that `halt_vm` settles on: by the expected name, else by Forklift's labels. */
  function Find(vms: map<Name, Machine>, wave: Wave, id: VmId): (n: Option<Name>)
    ensures n.Some? ==> n.value in vms
  {
    if id in wave.expected && wave.expected[id] in vms then Some(wave.expected[id])
    else if wave.hasUid then FirstLabelled(vms, wave.listing, id)
    else None
  }

  /** The machine found is stopped; or there is none, and none was created. */
  ghost predicate Stopped(w: World, wave: Wave, id: VmId) {
    match Find(w.vms, wave, id)
    case None => id !in wave.created
    case Some(n) => Halted(w.vms[n].spec) && n !in w.instances
  }

  /** Only specifications changed, towards halted; no instance appeared. */
  ghost predicate OnlyStops(u: World, w: World) {
    && u.vms.Keys == w.vms.Keys
    && (forall n :: n in w.vms ==>
          && u.vms[n].copyOf == w.vms[n].copyOf
          && (u.vms[n].spec == w.vms[n].spec || u.vms[n].spec == Halt(w.vms[n].spec)))
    && u.instances <= w.instances
  }

  lemma {:induction false} FirstLabelledSame(a: map<Name, Machine>, b: map<Name, Machine>, listing: seq<Name>, id: VmId)
    requires a.Keys == b.Keys && forall n :: n in a ==> a[n].copyOf == b[n].copyOf
    ensures FirstLabelled(a, listing, id) == FirstLabelled(b, listing, id)
  {
    if listing == [] {
    } else {
      FirstLabelledSame(a, b, listing[1..], id);
    }
  }

  lemma {:induction false} StoppedStays(u: World, w: World, wave: Wave, id: VmId)
    requires OnlyStops(u, w)
    ensures Find(u.vms, wave, id) == Find(w.vms, wave, id)
    ensures Stopped(w, wave, id) ==> Stopped(u, wave, id)
  {
    FirstLabelledSame(u.vms, w.vms, wave.listing, id);
  }

  // --- no two running copies --------------------------------------------------------------

  /** A copy of the source is running on Harvester, or would be started again. */
  ghost predicate CopyRuns(w: World, id: VmId) {
    exists n :: n in w.vms && w.vms[n].copyOf == Some(id) && !(Halted(w.vms[n].spec) && n !in w.instances)
  }

  /** Some copy other than the machine found for the source is running. */
  ghost predicate OtherCopyRuns(w: World, wave: Wave, id: VmId) {
    exists n :: n in w.vms && w.vms[n].copyOf == Some(id) && Find(w.vms, wave, id) != Some(n)
      && !(Halted(w.vms[n].spec) && n !in w.instances)
  }

  /** Nothing but the machine found for the source is touched, and that only to stop it. */
  ghost predicate HaltsOnly(s: World, w: World, wave: Wave, id: VmId) {
    && OnlyStops(s, w)
    && (forall n :: n in w.vms && s.vms[n] != w.vms[n] ==> Find(w.vms, wave, id) == Some(n))
    && (forall n :: n in w.instances - s.instances ==> Find(w.vms, wave, id) == Some(n))
  }

  /**
   * Once the stop of `id` has succeeded, some copy of it still runs if and only
   * if, before the stop, a copy ran that is not the machine it settles on.
   */
  lemma {:induction false} StoppedCopiesIff(s: World, w: World, wave: Wave, id: VmId)
    requires HaltsOnly(s, w, wave, id) && Stopped(s, wave, id)
    ensures CopyRuns(s, id) <==> OtherCopyRuns(w, wave, id)
  {
    StoppedStays(s, w, wave, id);
    if CopyRuns(s, id) {
      var n :| n in s.vms && s.vms[n].copyOf == Some(id) && !(Halted(s.vms[n].spec) && n !in s.instances);
      assert n in w.vms && Find(w.vms, wave, id) != Some(n);
    }
    if OtherCopyRuns(w, wave, id) {
      var n :| n in w.vms && w.vms[n].copyOf == Some(id) && Find(w.vms, wave, id) != Some(n)
        && !(Halted(w.vms[n].spec) && n !in w.instances);
      assert s.vms[n] == w.vms[n] && (n in w.instances ==> n in s.instances);
    }
  }

  /** In particular, when the expected name, if taken, is taken by the copy, and the source has one copy at most. */
  ghost predicate WellNamed(w: World, wave: Wave, id: VmId) {
    && wave.hasUid && (forall n :: n in w.vms ==> n in wave.listing)
    && (forall a, b :: a in w.vms && b in w.vms && w.vms[a].copyOf == w.vms[b].copyOf == Some(id) ==> a == b)
    && (id in wave.expected && wave.expected[id] in w.vms ==> w.vms[wave.expected[id]].copyOf == Some(id))
  }

  lemma {:induction false} WellNamedIsSafe(w: World, wave: Wave, id: VmId)
    requires WellNamed(w, wave, id) && Stopped(w, wave, id)
    ensures !CopyRuns(w, id)
  {
    forall n | n in w.vms && w.vms[n].copyOf == Some(id)
      ensures Halted(w.vms[n].spec) && n !in w.instances
    {
      assert n in wave.listing;
      assert Find(w.vms, wave, id) == Some(n);
    }
  }

  /** Another machine already bears the expected name: that one is stopped, and the copy runs on. */
  lemma {:induction false} TakenNameMisleads() returns (w: World, wave: Wave)
    ensures Stopped(w, wave, "vm-1") && CopyRuns(w, "vm-1")
  {
    var other := Machine(Spec(None, Some("Halted")), None);
    var copy := Machine(Spec(None, Some("Always")), Some("vm-1"));
    w := World(map["web" := other, "web-2" := copy], {"web-2"}, {}, {});
    wave := Wave(true, true, ["web", "web-2"], map["vm-1" := "web"], {"vm-1"}, {"vm-1"});
    assert Find(w.vms, wave, "vm-1") == Some("web");
    assert w.vms["web-2"].copyOf == Some("vm-1") && "web-2" in w.instances;
  }

  // --- one run ----------------------------------------------------------------------------------

  /** What one rollback of `ids` may have done, in `s`, to the world `w` it started from. */
  ghost predicate Careful(s: World, w: World, wave: Wave, ids: seq<VmId>) {
    && OnlyStops(s, w)
    && w.on <= s.on && w.record <= s.record
    && (forall id :: id in s.on - w.on ==> id in ids && id !in w.record && Stopped(s, wave, id))
    && (forall id :: id in s.record - w.record ==> id in ids && id in s.on && Stopped(s, wave, id))
    && (forall n :: n in w.vms && s.vms[n] != w.vms[n] ==> Meant(n, w, wave, ids))
    && (forall n :: n in w.instances - s.instances ==> Meant(n, w, wave, ids))
  }

  /** The machine found for one of the sources still to be rolled back. */
  ghost predicate Meant(n: Name, w: World, wave: Wave, ids: seq<VmId>) {
    exists id :: id in ids && id !in w.record && Find(w.vms, wave, id) == Some(n)
  }

  /** Stopping the machine of one more source. */
  lemma {:induction false} HaltIsCareful(w: World, u: World, s: World, wave: Wave, ids: seq<VmId>, id: VmId)
    requires Careful(u, w, wave, ids) && id in ids && id !in w.record
    requires OnlyStops(s, u) && s.on == u.on && s.record == u.record
    requires forall n :: n in u.vms && s.vms[n] != u.vms[n] ==> Find(u.vms, wave, id) == Some(n)
    requires forall n :: n in u.instances - s.instances ==> Find(u.vms, wave, id) == Some(n)
    ensures Careful(s, w, wave, ids)
  {
    StoppedStays(u, w, wave, id);
    forall x | x in s.on - w.on || x in s.record - w.record
      ensures Stopped(s, wave, x)
    {
      StoppedStays(s, u, wave, x);
    }
  }

  /** Starting it, and recording it, once it is stopped. */
  lemma {:induction false} StartIsCareful(w: World, u: World, s: World, wave: Wave, ids: seq<VmId>, id: VmId)
    requires Careful(u, w, wave, ids) && id in ids && id !in w.record && Stopped(u, wave, id)
    requires s.vms == u.vms && s.instances == u.instances
    requires s.on == u.on || s.on == u.on + {id}
    requires s.record == u.record || (s.record == u.record + {id} && id in s.on)
    ensures Careful(s, w, wave, ids)
  {
    forall x | x in s.on - w.on || x in s.record - w.record
      ensures Stopped(s, wave, x)
    {
      assert Stopped(s, wave, x) == Stopped(u, wave, x);
    }
  }

  /** Rolling back again, at any later time, for the same or other sources of the wave: still one careful rollback. */
  lemma {:induction false} CarefulAgain(w: World, u: World, s: World, wave: Wave, first: seq<VmId>, second: seq<VmId>)
    requires Careful(u, w, wave, first) && Careful(s, u, wave, second)
    ensures Careful(s, w, wave, first + second)
  {
    forall x | x in s.on - w.on || x in s.record - w.record
      ensures Stopped(s, wave, x)
    {
      StoppedStays(s, u, wave, x);
    }
    forall n | n in w.vms && (s.vms[n] != w.vms[n] || n in w.instances - s.instances)
      ensures Meant(n, w, wave, first + second)
    {
      MeantAgain(w, u, s, wave, first, second, n);
    }
    forall n | n in w.instances - s.instances
      ensures Meant(n, w, wave, first + second)
    {
      MeantAgain(w, u, s, wave, first, second, n);
    }
  }

  lemma {:induction false} MeantAgain(w: World, u: World, s: World, wave: Wave, first: seq<VmId>, second: seq<VmId>, n: Name)
    requires Careful(u, w, wave, first) && Careful(s, u, wave, second)
    requires (n in w.vms && s.vms[n] != w.vms[n]) || n in w.instances - s.instances
    ensures Meant(n, w, wave, first + second)
  {
    if Meant(n, w, wave, first) {
      var id :| id in first && id !in w.record && Find(w.vms, wave, id) == Some(n);
      assert id in first + second;
    } else {
      if n in w.vms && s.vms[n] != w.vms[n] {
        assert u.vms[n] == w.vms[n] && n in u.vms;
      } else {
        assert n in u.instances - s.instances;
      }
      assert Meant(n, u, wave, second);
      var id :| id in second && id !in u.record && Find(u.vms, wave, id) == Some(n);
      StoppedStays(u, w, wave, id);
      assert id in first + second;
    }
  }

  // --- in which order ---------------------------------------------------------------------------

  /** What one rollback did to the sources, each with the world at that instant. */
  datatype Step =
    | PowerOn(id: VmId, world: World, started: bool)   // asked of vCenter; started or not
    | Record(id: VmId, world: World)                   // written on the plan
    | LeftOff(id: VmId, world: World)                  // its machine did not stop in time

  function OnAfter(on: set<VmId>, log: seq<Step>): set<VmId> {
    if log == [] then on
    else
      var n := |log| - 1;
      OnAfter(on, log[..n]) + (if log[n].PowerOn? && log[n].started then {log[n].id} else {})
  }

  function RecordAfter(record: set<VmId>, log: seq<Step>): set<VmId> {
    if log == [] then record
    else
      var n := |log| - 1;
      RecordAfter(record, log[..n]) + (if log[n].Record? then {log[n].id} else {})
  }

  /**
   * Nothing happens to a source before its machine is stopped: at each start
   * and record, in the world of that instant, it is, and it is not when the
   * source is left off; the source was off when asked to start, and is on when
   * recorded. What is on and recorded at each instant is what the steps before
   * made it.
   */
  ghost predicate InOrder(log: seq<Step>, w: World, wave: Wave) {
    log == []
    || (var n := |log| - 1; var x := log[n];
        && InOrder(log[..n], w, wave)
        && OnlyStops(x.world, w) && (Stopped(x.world, wave, x.id) <==> !x.LeftOff?)
        && x.world.on == OnAfter(w.on, log[..n]) && x.world.record == RecordAfter(w.record, log[..n])
        && (x.PowerOn? ==> x.id !in x.world.on) && (x.Record? ==> x.id in x.world.on))
  }

  /** The source was left off, or asked to start. */
  ghost predicate Tried(log: seq<Step>, id: VmId) {
    exists i :: 0 <= i < |log| && log[i].id == id && !log[i].Record?
  }

  lemma {:induction false} TriedStill(log: seq<Step>, more: seq<Step>, id: VmId)
    requires log <= more && Tried(log, id)
    ensures Tried(more, id)
  {
    var i :| 0 <= i < |log| && log[i].id == id && !log[i].Record?;
    assert more[i] == log[i];
  }

  /** The steps so far are in order, and lead to `s`. */
  ghost predicate Leads(log: seq<Step>, w: World, s: World, wave: Wave) {
    InOrder(log, w, wave) && OnlyStops(s, w) && s.on == OnAfter(w.on, log) && s.record == RecordAfter(w.record, log)
  }

  lemma {:induction false} LeadsOn(log: seq<Step>, w: World, u: World, s: World, wave: Wave)
    requires Leads(log, w, u, wave) && OnlyStops(s, u) && s.on == u.on && s.record == u.record
    ensures Leads(log, w, s, wave)
  {
  }

  lemma {:induction false} NothingYet(w: World, wave: Wave, ids: seq<VmId>)
    ensures Careful(w, w, wave, ids) && Leads([], w, w, wave)
  {
  }

  /** The stop of one more machine is no step of a source. */
  lemma {:induction false} HaltedOn(w: World, u: World, s: World, wave: Wave, ids: seq<VmId>, id: VmId, log: seq<Step>)
    requires Careful(u, w, wave, ids) && id in ids && id !in w.record && Leads(log, w, u, wave)
    requires HaltsOnly(s, u, wave, id) && s.on == u.on && s.record == u.record
    ensures Careful(s, w, wave, ids) && Leads(log, w, s, wave)
  {
    HaltIsCareful(w, u, s, wave, ids, id);
    LeadsOn(log, w, u, s, wave);
  }

  /** A source is started, if it was off, and recorded, if that went well, once its machine is stopped. */
  function Steps(u: World, id: VmId, started: bool, recorded: bool): seq<Step> {
    (if id in u.on then [] else [PowerOn(id, u, started)])
    + (if recorded then [Record(id, u.(on := u.on + {id}))] else [])
  }

  lemma {:induction false} OneMoreStep(log: seq<Step>, w: World, u: World, wave: Wave, x: Step)
    requires Leads(log, w, u, wave) && x.world == u && (Stopped(u, wave, x.id) <==> !x.LeftOff?)
    requires (x.PowerOn? ==> x.id !in u.on) && (x.Record? ==> x.id in u.on)
    ensures var s := if x.Record? then u.(record := u.record + {x.id}) else if x.PowerOn? && x.started then u.(on := u.on + {x.id}) else u;
      Leads(log + [x], w, s, wave)
  {
    assert (log + [x])[..|log|] == log;
  }

  lemma {:induction false} StepsLead(log: seq<Step>, w: World, u: World, wave: Wave, id: VmId, started: bool, recorded: bool)
    requires Leads(log, w, u, wave) && Stopped(u, wave, id) && (recorded ==> started) && (id in u.on ==> started)
    ensures var s := u.(on := if started then u.on + {id} else u.on, record := if recorded then u.record + {id} else u.record);
      Leads(log + Steps(u, id, started, recorded), w, s, wave)
  {
    hide InOrder, Leads, Stopped;
    var first: seq<Step> := if id in u.on then [] else [PowerOn(id, u, started)];
    var u1 := u.(on := if started then u.on + {id} else u.on);
    assert id in u.on ==> u1 == u && log + first == log;
    if id !in u.on {
      OneMoreStep(log, w, u, wave, PowerOn(id, u, started));
    }
    assert Leads(log + first, w, u1, wave);
    if recorded {
      assert Stopped(u1, wave, id) by {
        StoppedStays(u1, u, wave, id);
      }
      OneMoreStep(log + first, w, u1, wave, Record(id, u1));
      assert log + Steps(u, id, started, recorded) == log + first + [Record(id, u1)];
    } else {
      assert Steps(u, id, started, recorded) == first;
    }
  }

  lemma {:induction false} TriedOn(log: seq<Step>, more: seq<Step>, ids: seq<VmId>)
    requires log <= more
    ensures forall id :: id in ids && Tried(log, id) ==> Tried(more, id)
  {
    forall id | id in ids && Tried(log, id)
      ensures Tried(more, id)
    {
      TriedStill(log, more, id);
    }
  }

  // --- the command -----------------------------------------------------------------------------

  datatype Halting = IsStopped | LeftRunning | Broke
  datatype Power = Started | Question | Error(on: bool)   // an answer that is lost leaves the source on or off
  datatype Exit = Success | Fail | Refused | Raised

  /** The outside: which calls fail, when a halted instance goes, what vCenter answers. */
  datatype Outside = Outside(fails: nat -> bool, gone: (Name, int) -> bool, answers: VmId -> bool, power: (VmId, nat) -> Power)

  /** One of these calls failed. */
  ghost predicate Failing(from: nat, upto: nat, outside: Outside) {
    exists c: nat :: from <= c < upto && outside.fails(c)
  }

  lemma {:induction false} FailingMore(from: nat, mid: nat, upto: nat, outside: Outside)
    requires from <= mid <= upto
    ensures Failing(from, upto, outside) <==> Failing(from, mid, outside) || Failing(mid, upto, outside)
  {
    if Failing(from, upto, outside) {
      var c: nat :| from <= c < upto && outside.fails(c);
    }
  }

  lemma {:induction false} OneCall(c: nat, outside: Outside)
    ensures Failing(c, c + 1, outside) <==> outside.fails(c)
    ensures !Failing(c, c, outside)
  {
  }

  /** The instance is still there at the j-th reading, one every five seconds. */
  ghost predicate StillThere(n: Name, start: int, j: nat, outside: Outside) {
    !outside.gone(n, start + 5 * j)
  }

  class Rollback {
    var vms: map<Name, Machine>
    var instances: set<Name>
    var on: set<VmId>
    var record: set<VmId>
    var now: int
    var calls: nat
    ghost var log: seq<Step>

    ghost function State(): World
      reads this
    {
      World(vms, instances, on, record)
    }

    constructor (w: World, now: int)
      ensures State() == w && log == []
    {
      vms, instances, on, record := w.vms, w.instances, w.on, w.record;
      this.now, calls, log := now, 0, [];
    }

    /** One call to the cluster: false where the client raises. */
    method Call(outside: Outside) returns (ok: bool)
      modifies `calls
      ensures calls == old(calls) + 1 && (!ok <==> Failing(old(calls), calls, outside))
    {
      OneCall(calls, outside);
      ok := !outside.fails(calls);
      calls := calls + 1;
    }

    /** The halted machine's instance, read once: it may just have gone. */
    method InstanceGone(n: Name, outside: Outside) returns (gone: bool)
      modifies `instances
      ensures gone <==> n !in instances
      ensures instances == if outside.gone(n, now) then old(instances) - {n} else old(instances)
    {
      if n in instances && outside.gone(n, now) {
        instances := instances - {n};
      }
      gone := n !in instances;
    }

    /** `until`, waiting for the instance to go; reads every five seconds, once more at the deadline. */
    method WaitGone(n: Name, timeout: nat, outside: Outside) returns (r: Halting)
      modifies `instances, `now, `calls
      ensures instances == old(instances) || instances == old(instances) - {n}
      ensures r == IsStopped ==> n !in instances
      ensures r == LeftRunning ==> n in instances && now >= old(now) + timeout
      ensures r == LeftRunning ==> forall j: nat :: 5 * j < timeout + 5 ==> StillThere(n, old(now), j, outside)
      ensures calls > old(calls) && (r == Broke <==> Failing(old(calls), calls, outside))
      ensures old(now) <= now < old(now) + timeout + 5
    {
      var deadline := now + timeout;
      ghost var k := 0;
      OneCall(calls, outside);
      while true
        invariant instances == old(instances)
        invariant k >= 0 && now == old(now) + 5 * k && now < deadline + 5
        invariant forall j: nat :: j < k ==> StillThere(n, old(now), j, outside)
        invariant calls >= old(calls) && !Failing(old(calls), calls, outside)
        decreases deadline + 5 - now
      {
        ghost var before := calls;
        var ok := Call(outside);
        FailingMore(old(calls), before, calls, outside);
        if !ok {
          return Broke;
        }
        var gone := InstanceGone(n, outside);
        if gone {
          return IsStopped;
        }
        assert StillThere(n, old(now), k, outside);
        if now >= deadline {
          return LeftRunning;
        }
        now := now + 5;
        k := k + 1;
      }
    }

    /** `halt_vm`: stopped means that the machine found has no instance left, or that there is none to stop. */
    method HaltVm(id: VmId, wave: Wave, timeout: nat, outside: Outside) returns (r: Halting)
      modifies `vms, `instances, `now, `calls
      ensures HaltsOnly(State(), old(State()), wave, id)
      ensures r == IsStopped ==> Stopped(State(), wave, id)
      ensures r == LeftRunning ==> !Stopped(State(), wave, id)
      ensures calls > old(calls) && (r == Broke <==> Failing(old(calls), calls, outside))
      ensures r == IsStopped ==> (CopyRuns(State(), id) <==> OtherCopyRuns(old(State()), wave, id))
    {
      ghost var w := State();
      var ok := Call(outside);
      if !ok {
        return Broke;
      }
      var n := Find(vms, wave, id);
      if n.None? {
        if id in wave.created {
          return LeftRunning;
        }
        StoppedCopiesIff(w, w, wave, id);
        return IsStopped;
      }
      ghost var first := calls;
      if !Halted(vms[n.value].spec) {
        ok := Call(outside);
        FailingMore(old(calls), first, calls, outside);
        if !ok {
          return Broke;
        }
        vms := vms[n.value := vms[n.value].(spec := Halt(vms[n.value].spec))];
      }
      assert OnlyStops(State(), w);
      ghost var before := calls;
      r := WaitGone(n.value, timeout, outside);
      FailingMore(old(calls), before, calls, outside);
      StoppedStays(State(), w, wave, id);
      if r == IsStopped {
        StoppedCopiesIff(State(), w, wave, id);
      }
    }

    /** `power_on`, then the record: a source already on is left as is. */
    method StartSource(id: VmId, outside: Outside) returns (r: Exit)
      modifies `on, `record, `calls, `log
      ensures on == old(on) || on == old(on) + {id}
      ensures record == if r == Success then old(record) + {id} else old(record)
      ensures r in {Success, Fail, Raised} && (r == Success ==> id in on)
      ensures r == Fail <==> id !in old(on) && !outside.power(id, old(calls)).Started?
      ensures calls >= old(calls) && (r == Raised <==> Failing(old(calls), calls, outside))
      ensures log == old(log) + Steps(old(State()), id, id in on, r == Success)
    {
      ghost var u := State();
      if id !in on {
        var power := outside.power(id, calls);
        if power.Started? || (power.Error? && power.on) {
          on := on + {id};
        }
        log := log + [PowerOn(id, u, id in on)];
        OneCall(calls, outside);
        if !power.Started? {
          return Fail;
        }
      }
      var ok := Call(outside);
      if !ok {
        return Raised;
      }
      assert on == u.on + {id};
      log := log + [Record(id, State())];
      record := record + {id};
      return Success;
    }

    /**
     * `cmd_wave_rollback`: a source is started only once its machine is stopped
     * (or was never created) and recorded only once it is on, at the instant of
     * each; machines already recorded are not touched; a refusal, or a vCenter
     * that cannot be read, leaves everything as it was.
     */
    method WaveRollback(ids: seq<VmId>, wave: Wave, timeout: nat, outside: Outside) returns (r: Exit)
      modifies this
      ensures Careful(State(), old(State()), wave, ids)
      ensures old(log) <= log && Leads(log[|old(log)|..], old(State()), State(), wave)
      ensures !wave.switched || (exists id :: id in ids && id !in old(record) && id !in wave.cutover) ==>
        r == Refused && State() == old(State()) && log == old(log)
      ensures (exists id :: id in ids && id !in old(record) && !outside.answers(id)) ==>
        r != Success && State() == old(State()) && log == old(log)
      ensures r == Success ==> forall id :: id in ids ==> id in record
      ensures calls >= old(calls) && (r == Raised <==> Failing(old(calls), calls, outside))
      ensures r == Refused ==> !wave.switched || exists id :: id in ids && id !in old(record) && id !in wave.cutover
      ensures wave.switched && (forall id :: id in ids && id !in old(record) ==> id in wave.cutover && outside.answers(id)) ==>
        r == Raised || forall id :: id in ids && id !in record ==> Tried(log[|old(log)|..], id)
    {
      assert log[|log|..] == [];
      OneCall(calls, outside);
      if !wave.switched {
        return Refused;
      }
      var todo := Left(ids, record);
      for k := 0 to |todo|
        invariant State() == old(State()) && log == old(log) && forall j :: 0 <= j < k ==> todo[j] in wave.cutover
      {
        if todo[k] !in wave.cutover {
          assert todo[k] in todo;
          return Refused;
        }
      }
      for k := 0 to |todo|
        invariant State() == old(State()) && log == old(log) && forall j :: 0 <= j < k ==> outside.answers(todo[j])
      {
        if !outside.answers(todo[k]) {
          return Fail;
        }
      }
      r := PutBack(ids, todo, wave, timeout, outside);
    }

    /** One source: its machine is stopped, then it is started and recorded. */
    method PutOneBack(id: VmId, wave: Wave, timeout: nat, outside: Outside, ghost w: World, ghost ids: seq<VmId>, ghost before: nat)
      returns (r: Exit)
      requires Careful(State(), w, wave, ids) && id in ids && id !in w.record
      requires before <= |log| && Leads(log[before..], w, State(), wave)
      modifies this
      ensures Careful(State(), w, wave, ids) && r in {Success, Fail, Raised}
      ensures old(log) <= log && Leads(log[before..], w, State(), wave)
      ensures old(record) <= record && (r == Success ==> id in record)
      ensures r == Fail ==> Tried(log[before..], id)
      ensures calls >= old(calls) && (r == Raised <==> Failing(old(calls), calls, outside))
    {
      hide Leads, Careful, OnlyStops, Stopped, Failing;
      ghost var u := State();
      var halting := HaltVm(id, wave, timeout, outside);
      ghost var halted := State();
      HaltedOn(w, u, halted, wave, ids, id, log[before..]);
      if halting == Broke {
        return Raised;
      }
      if halting == LeftRunning {
        OneMoreStep(log[before..], w, halted, wave, LeftOff(id, halted));
        ghost var soFar := log[before..];
        log := log + [LeftOff(id, halted)];
        assert log[before..] == soFar + [LeftOff(id, halted)];
        assert log[before..][|soFar|].id == id;
        return Fail;
      }
      ghost var done := log[before..];
      ghost var called := calls;
      r := StartSource(id, outside);
      FailingMore(old(calls), called, calls, outside);
      StartIsCareful(w, halted, State(), wave, ids, id);
      StepsLead(done, w, halted, wave, id, id in on, r == Success);
      assert log[before..] == done + Steps(halted, id, id in on, r == Success);
      assert id in halted.on ==> halted.on + {id} == halted.on;
      assert State() == halted.(on := if id in on then halted.on + {id} else halted.on,
                                record := if r == Success then halted.record + {id} else halted.record);
      if r == Fail {
        assert log[before..][|done|] == PowerOn(id, halted, id in on);
      }
    }

    method PutBack(ids: seq<VmId>, todo: seq<VmId>, wave: Wave, timeout: nat, outside: Outside) returns (r: Exit)
      requires todo == Left(ids, record)
      modifies this
      ensures Careful(State(), old(State()), wave, ids) && r in {Success, Fail, Raised}
      ensures old(log) <= log && Leads(log[|old(log)|..], old(State()), State(), wave)
      ensures r == Success ==> forall id :: id in ids ==> id in record
      ensures calls >= old(calls) && (r == Raised <==> Failing(old(calls), calls, outside))
      ensures r != Raised ==> forall id :: id in ids && id !in record ==> Tried(log[|old(log)|..], id)
    {
      hide Careful, Leads, Tried, Failing, Left;
      r := Success;
      ghost var w, before := State(), |log|;
      NothingYet(w, wave, ids);
      assert log[before..] == [] && todo[..0] == [];
      OneCall(calls, outside);
      for k := 0 to |todo|
        invariant Careful(State(), w, wave, ids) && r in {Success, Fail} && w.record <= record
        invariant old(log) <= log && Leads(log[before..], w, State(), wave)
        invariant calls >= old(calls) && !Failing(old(calls), calls, outside)
        invariant r == Success ==> forall id :: id in todo[..k] ==> id in record
        invariant forall id :: id in todo[..k] && id !in record ==> Tried(log[before..], id)
      {
        assert todo[k] in todo && todo[..k + 1] == todo[..k] + [todo[k]];
        ghost var steps, called := log[before..], calls;
        var one := PutOneBack(todo[k], wave, timeout, outside, w, ids, before);
        FailingMore(old(calls), called, calls, outside);
        if one == Raised {
          return Raised;
        }
        if one == Fail {
          r := Fail;
        }
        assert steps <= log[before..];
        TriedOn(steps, log[before..], todo[..k]);
      }
      assert todo[..|todo|] == todo;
    }
  }

  /** The requested sources that are not recorded yet. */
  function Left(ids: seq<VmId>, record: set<VmId>): (todo: seq<VmId>)
    ensures forall id :: id in todo <==> id in ids && id !in record
  {
    if ids == [] then []
    else (if ids[0] in record then [] else [ids[0]]) + Left(ids[1..], record)
  }
}
