/**
 * What happens to one object over a run: its value, its filing, and its line.
 */
module FolderSlots {
  import opened Wrappers
  import opened FolderPaths
  import opened FolderRuns
  import opened FolderLines

  datatype Slot = Slot(value: Option<Path>, entry: Option<Entry>, from: Option<Path>, status: Status)

  function SlotAt(w: World, i: nat): Slot
    requires i < |w.journal| && w.journal[i].what.ObjectRow?
  {
    var m := w.journal[i];
    Slot(Value(w, m.what.key), Cached(w, m.what.key), m.from, m.status)
  }

  function PathIn(e: Option<Entry>): Option<Path> {
    if e.None? then None else Some(e.value.path)
  }

  function Entered(to: Option<Path>, source: Source): Option<Entry> {
    if to.None? then None else Some(Entry(to.value, source))
  }

  function KeptInConsole(s: Slot, to: Option<Path>): Slot {
    if s.entry.Some? && s.entry.value.source == OnObject then s.(status := Failed)
    else s.(entry := Entered(to, ConsoleOnly), status := Done)
  }

  /** One object line, as seen by its object. */
  function Outcome(s: Slot, to: Option<Path>, access: Option<Access>, strict: bool): Slot {
    match access
    case None => s.(status := Failed)
    case Some(a) =>
      if !a.write then KeptInConsole(s, to)
      else if !a.readable || (strict && s.value != s.from && s.value != to) then s.(status := Failed)
      else
        var noted := s.(from := s.value);
        match a.writing
        case Accepted => Slot(to, Entered(to, OnObject), s.value, Done)
        case Transient => Slot(to, Entered(to, ConsoleOnly), s.value, Done)
        case Denied => KeptInConsole(noted, to)
        case Broken(applied) => noted.(value := if applied then to else s.value, status := Failed)
  }

  function AccessTo(env: Env, key: Key): Option<Access> {
    if key in env then Some(env[key]) else None
  }

  /** The first write of a line that finds another value than its `from`. */
  lemma {:induction false} NoteSlot(u: World, i: nat, rest: seq<Effect>) returns (n: World)
    requires i < |u.journal| && u.journal[i].what.ObjectRow?
    ensures var x := Value(u, u.journal[i].what.key);
      && |n.journal| == |u.journal| && n.journal[i] == u.journal[i].(from := x)
      && SlotAt(n, i) == SlotAt(u, i).(from := x) && n.cache == u.cache && n.objects == u.objects
      && ApplyAll(u, (if x != u.journal[i].from then [SetFrom(i, x)] else []) + rest) == ApplyAll(n, rest)
  {
    var x := Value(u, u.journal[i].what.key);
    if x != u.journal[i].from {
      n := Apply(u, SetFrom(i, x));
      ApplyAppend(u, [SetFrom(i, x)], rest);
      ApplyOne(u, SetFrom(i, x));
    } else {
      n := u;
      assert [] + rest == rest;
    }
  }

  lemma {:induction false} ConsoleSlot(n: World, i: nat)
    requires i < |n.journal| && n.journal[i].what.ObjectRow?
    ensures var m := n.journal[i];
      var s := ApplyAll(n, ConsoleEffects(n, i, m.what.key, m.to));
      && |s.journal| == |n.journal| && s.journal[i].what == m.what && SlotAt(s, i) == KeptInConsole(SlotAt(n, i), m.to)
  {
    var m := n.journal[i];
    if Cached(n, m.what.key).Some? && n.cache[m.what.key].source == OnObject {
      ApplyOne(n, Mark(i, Failed));
    } else {
      ApplyTwo(n, File(m.what.key, m.to, ConsoleOnly), Mark(i, Done));
    }
  }

  lemma {:induction false} FailedSlot(n: World, i: nat)
    requires i < |n.journal| && n.journal[i].what.ObjectRow?
    ensures var s := ApplyAll(n, [Mark(i, Failed)]);
      |s.journal| == |n.journal| && s.journal[i].what == n.journal[i].what && SlotAt(s, i) == SlotAt(n, i).(status := Failed)
  {
    ApplyOne(n, Mark(i, Failed));
  }

  lemma {:induction false} WrittenSlot(n: World, i: nat, source: Source)
    requires i < |n.journal| && n.journal[i].what.ObjectRow?
    ensures var m := n.journal[i];
      var s := ApplyAll(n, [Carry(m.what.key, m.to), File(m.what.key, m.to, source), Mark(i, Done)]);
      && |s.journal| == |n.journal| && s.journal[i].what == m.what
      && SlotAt(s, i) == Slot(m.to, Entered(m.to, source), m.from, Done)
  {
    var m := n.journal[i];
    ApplyThree(n, Carry(m.what.key, m.to), File(m.what.key, m.to, source), Mark(i, Done));
  }

  lemma {:induction false} BrokenSlot(n: World, i: nat, applied: bool)
    requires i < |n.journal| && n.journal[i].what.ObjectRow?
    ensures var m := n.journal[i];
      var s := ApplyAll(n, (if applied then [Carry(m.what.key, m.to)] else []) + [Mark(i, Failed)]);
      && |s.journal| == |n.journal| && s.journal[i].what == m.what
      && SlotAt(s, i) == SlotAt(n, i).(value := if applied then m.to else Value(n, m.what.key), status := Failed)
  {
    var m := n.journal[i];
    if applied {
      assert [Carry(m.what.key, m.to)] + [Mark(i, Failed)] == [Carry(m.what.key, m.to), Mark(i, Failed)];
      ApplyTwo(n, Carry(m.what.key, m.to), Mark(i, Failed));
    } else {
      assert [] + [Mark(i, Failed)] == [Mark(i, Failed)];
      ApplyOne(n, Mark(i, Failed));
    }
  }

  /** The write attempted on a readable object that passed the strict test: accepted. */
  lemma {:induction false} AcceptedOutcome(u: World, i: nat, env: Env, strict: bool)
    requires i < |u.journal| && u.journal[i].what.ObjectRow?
    requires var m := u.journal[i];
      && m.what.key in env && env[m.what.key].write && env[m.what.key].readable
      && (strict ==> Value(u, m.what.key) == m.from || Value(u, m.what.key) == m.to)
    requires env[u.journal[i].what.key].writing in {Accepted, Transient}
    ensures var m, s := u.journal[i], Step(u, i, Lines(env, strict));
      s.journal[i].what == m.what && SlotAt(s, i) == Outcome(SlotAt(u, i), m.to, AccessTo(env, m.what.key), strict)
  {
    var m := u.journal[i];
    var key, x := m.what.key, Value(u, m.what.key);
    var note := if x != m.from then [SetFrom(i, x)] else [];
    var source := if env[key].writing.Accepted? then OnObject else ConsoleOnly;
    var rest := [Carry(key, m.to), File(key, m.to, source), Mark(i, Done)];
    assert LineEffects(u, i, env, strict) == note + rest;
    var n := NoteSlot(u, i, rest);
    WrittenSlot(n, i, source);
  }

  /** Refused, or broken on the way. */
  lemma {:induction false} DeniedOutcome(u: World, i: nat, env: Env, strict: bool)
    requires i < |u.journal| && u.journal[i].what.ObjectRow?
    requires var m := u.journal[i];
      && m.what.key in env && env[m.what.key].write && env[m.what.key].readable
      && (strict ==> Value(u, m.what.key) == m.from || Value(u, m.what.key) == m.to)
    requires env[u.journal[i].what.key].writing.Denied?
    ensures var m, s := u.journal[i], Step(u, i, Lines(env, strict));
      s.journal[i].what == m.what && SlotAt(s, i) == Outcome(SlotAt(u, i), m.to, AccessTo(env, m.what.key), strict)
  {
    var m := u.journal[i];
    var key, x := m.what.key, Value(u, m.what.key);
    var rest := ConsoleEffects(u, i, key, m.to);
    assert LineEffects(u, i, env, strict) == (if x != m.from then [SetFrom(i, x)] else []) + rest;
    hide LineEffects, ConsoleEffects;
    var n := NoteSlot(u, i, rest);
    ConsoleSlot(n, i);
  }

  lemma {:induction false} BrokenOutcome(u: World, i: nat, env: Env, strict: bool)
    requires i < |u.journal| && u.journal[i].what.ObjectRow?
    requires var m := u.journal[i];
      && m.what.key in env && env[m.what.key].write && env[m.what.key].readable
      && (strict ==> Value(u, m.what.key) == m.from || Value(u, m.what.key) == m.to)
    requires env[u.journal[i].what.key].writing.Broken?
    ensures var m, s := u.journal[i], Step(u, i, Lines(env, strict));
      s.journal[i].what == m.what && SlotAt(s, i) == Outcome(SlotAt(u, i), m.to, AccessTo(env, m.what.key), strict)
  {
    var m := u.journal[i];
    var key, x := m.what.key, Value(u, m.what.key);
    var rest := (if env[key].writing.applied then [Carry(key, m.to)] else []) + [Mark(i, Failed)];
    assert LineEffects(u, i, env, strict) == (if x != m.from then [SetFrom(i, x)] else []) + rest;
    hide LineEffects, ConsoleEffects;
    var n := NoteSlot(u, i, rest);
    BrokenSlot(n, i, env[key].writing.applied);
  }

  lemma {:induction false} RefusedOutcome(u: World, i: nat, env: Env, strict: bool)
    requires i < |u.journal| && u.journal[i].what.ObjectRow?
    requires var m := u.journal[i];
      && m.what.key in env && env[m.what.key].write && env[m.what.key].readable
      && (strict ==> Value(u, m.what.key) == m.from || Value(u, m.what.key) == m.to)
    requires env[u.journal[i].what.key].writing !in {Accepted, Transient}
    ensures var m, s := u.journal[i], Step(u, i, Lines(env, strict));
      s.journal[i].what == m.what && SlotAt(s, i) == Outcome(SlotAt(u, i), m.to, AccessTo(env, m.what.key), strict)
  {
    hide LineEffects, Outcome;
    if env[u.journal[i].what.key].writing.Denied? {
      DeniedOutcome(u, i, env, strict);
    } else {
      BrokenOutcome(u, i, env, strict);
    }
  }

  lemma {:induction false} StepOutcome(u: World, i: nat, env: Env, strict: bool)
    requires i < |u.journal| && u.journal[i].what.ObjectRow?
    ensures var m, s := u.journal[i], Step(u, i, Lines(env, strict));
      s.journal[i].what == m.what && SlotAt(s, i) == Outcome(SlotAt(u, i), m.to, AccessTo(env, m.what.key), strict)
  {
    var m := u.journal[i];
    var key := m.what.key;
    var x := Value(u, key);
    if key !in env || (env[key].write && (!env[key].readable || (strict && x != m.from && x != m.to))) {
      FailedSlot(u, i);
    } else if !env[key].write {
      ConsoleSlot(u, i);
    } else if env[key].writing in {Accepted, Transient} {
      AcceptedOutcome(u, i, env, strict);
    } else {
      RefusedOutcome(u, i, env, strict);
    }
  }

  /** A run gives each object it holds the outcome of its own line. */
  lemma {:induction false} RunOutcome(w: World, todo: seq<nat>, i: nat, env: Env, strict: bool)
    requires Runnable(w, todo) && Distinct(todo) && DistinctKeys(w.journal)
    requires i in todo && w.journal[i].what.ObjectRow?
    ensures var m, r := w.journal[i], Run(w, todo, Lines(env, strict));
      && r.journal[i].what == m.what && r.journal[i].to == m.to
      && SlotAt(r, i) == Outcome(SlotAt(w, i), m.to, AccessTo(env, m.what.key), strict)
  {
    LinesLocal(env, strict);
    var p := IndexOf(todo, i);
    RunThroughLine(w, todo, p, Lines(env, strict));
    var u := Run(w, todo[..p], Lines(env, strict));
    StepOutcome(u, i, env, strict);
    RunKeepsLines(w, todo, Lines(env, strict));
  }

  /** A run leaves alone the objects that have no line in it. */
  lemma {:induction false} RunKeepsKey(w: World, todo: seq<nat>, key: Key, line: Script)
    requires Local(line) && Runnable(w, todo)
    requires forall i :: i in todo ==> w.journal[i].what != ObjectRow(key)
    ensures var r := Run(w, todo, line); Value(r, key) == Value(w, key) && Cached(r, key) == Cached(w, key)
    decreases |todo|
  {
    if todo == [] {
    } else {
      assert Tail(todo);
      var s := Step(w, todo[0], line);
      StepFrame(w, todo[0], line);
      assert Value(s, key) == Value(w, key) && Cached(s, key) == Cached(w, key);
      RunKeepsKey(s, todo[1..], key, line);
    }
  }
}
