/**
 * `resume` (bin/harvester-folders.py, cmd_resume): which lines it takes, what
 * it never overwrites, and when it completes an interrupted action.
 */
module FolderRecovery {
  import opened Wrappers
  import opened FolderPaths
  import opened FolderTree
  import opened FolderRuns
  import opened FolderLines
  import opened FolderSlots
  import opened FolderReplay

  // --- resume -------------------------------------------------------------------

  /** An unfinished line whose object the cache still shows at one of its two ends. */
  predicate Takes(w: World, i: nat)
    requires i < |w.journal|
  {
    var m := w.journal[i];
    && m.status in {Pending, Failed}
    && (m.what.ObjectRow? ==> CachedPath(w, m.what.key) == m.from || CachedPath(w, m.what.key) == m.to)
  }

  function ResumeTodo(w: World, n: nat): (todo: seq<nat>)
    requires n <= |w.journal|
    ensures forall i :: i in todo ==> i < n
  {
    if n == 0 then []
    else ResumeTodo(w, n - 1) + (if Takes(w, n - 1) then [n - 1] else [])
  }

  lemma {:induction false} ResumeTodoHolds(w: World, n: nat)
    requires n <= |w.journal|
    ensures forall i: nat :: i in ResumeTodo(w, n) <==> i < n && Takes(w, i)
    ensures Distinct(ResumeTodo(w, n))
  {
    if n == 0 {
    } else {
      ResumeTodoHolds(w, n - 1);
    }
  }

  ghost function Resume(w: World, env: Env): (r: World)
    ensures |r.journal| == |w.journal|
  {
    Run(w, ResumeTodo(w, |w.journal|), Lines(env, true))
  }

  // --- strict runs ----------------------------------------------------------------

  /** A strict run leaves an object that was filed elsewhere since, and says its line failed. */
  lemma {:induction false} StrictKeepsOutsideMove(w: World, todo: seq<nat>, i: nat, env: Env)
    requires Runnable(w, todo) && Distinct(todo) && DistinctKeys(w.journal)
    requires i in todo && w.journal[i].what.ObjectRow?
    requires var m := w.journal[i];
      && m.what.key in env && env[m.what.key].write && env[m.what.key].readable
      && Value(w, m.what.key) != m.from && Value(w, m.what.key) != m.to
    ensures var m, r := w.journal[i], Run(w, todo, Lines(env, true));
      && Value(r, m.what.key) == Value(w, m.what.key)
      && Cached(r, m.what.key) == Cached(w, m.what.key)
      && r.journal[i] == m.(status := Failed)
  {
    RunOutcome(w, todo, i, env, true);
    assert SlotAt(w, i).(status := Failed) == SlotAt(Run(w, todo, Lines(env, true)), i);
  }

  /** The line is done only where the target is: on the object, or kept by the console. */
  ghost predicate FiledAt(r: World, key: Key, to: Option<Path>) {
    || Value(r, key) == to
    || (if to.None? then Cached(r, key).None? else Cached(r, key) == Some(Entry(to.value, ConsoleOnly)))
  }

  /** Every line a run records done leaves its target on the object or in the console. */
  lemma {:induction false} DoneMeansFiled(w: World, todo: seq<nat>, i: nat, env: Env, strict: bool)
    requires Runnable(w, todo) && Distinct(todo) && DistinctKeys(w.journal)
    requires i in todo && w.journal[i].what.ObjectRow?
    requires Run(w, todo, Lines(env, strict)).journal[i].status == Done
    ensures FiledAt(Run(w, todo, Lines(env, strict)), w.journal[i].what.key, w.journal[i].to)
  {
    RunOutcome(w, todo, i, env, strict);
  }

  /**
   * Resume and objects filed elsewhere: whichever store shows the move, the
   * object keeps its value and its filing and the line is not done; it is
   * said failed when the run got to read the object.
   */
  lemma {:induction false} ResumeKeepsOutsideMoves(w: World, i: nat, env: Env)
    requires DistinctKeys(w.journal) && i < |w.journal| && w.journal[i].what.ObjectRow?
    requires w.journal[i].status in {Pending, Failed}
    requires var m := w.journal[i];
      && m.what.key in env && env[m.what.key].write && env[m.what.key].readable
      && Value(w, m.what.key) != m.from && Value(w, m.what.key) != m.to
    ensures var m, r := w.journal[i], Resume(w, env);
      && Value(r, m.what.key) == Value(w, m.what.key)
      && Cached(r, m.what.key) == Cached(w, m.what.key)
      && r.journal[i] == (if Takes(w, i) then m.(status := Failed) else m)
  {
    var todo := ResumeTodo(w, |w.journal|);
    ResumeTodoHolds(w, |w.journal|);
    if Takes(w, i) {
      StrictKeepsOutsideMove(w, todo, i, env);
    } else {
      LinesLocal(env, true);
      RunKeepsAt(w, todo, i, Lines(env, true));
    }
  }

  // --- interruption -----------------------------------------------------------------

  /** The action run from its posted lines to its end. */
  ghost function Complete(w: World, env: Env): (r: World)
    ensures |r.journal| == |w.journal|
  {
    Run(w, Range(0, |w.journal|), Lines(env, false))
  }

  /** Every write of the action, in order. */
  ghost function Writes(w: World, env: Env): seq<Effect> {
    RunEffects(w, Range(0, |w.journal|), Lines(env, false))
  }

  /** The same action cut after `k` of its writes. */
  ghost function Interrupted(w: World, env: Env, k: nat): (x: World)
    requires k <= |Writes(w, env)|
    ensures |x.journal| == |w.journal|
  {
    ApplyAll(w, Writes(w, env)[..k])
  }

  // --- crash recovery -----------------------------------------------------------------

  /** A folder line that changes the parent alone, the last name alone, or deletes. */
  predicate SingleChange(m: Line) {
    && m.from.Some?
    && (m.to.Some? ==> m.to.value != [] && (Parent(m.from.value) == Parent(m.to.value) || Last(m.from.value) == Last(m.to.value)))
  }

  /** Lines just posted: all pending, one per object, each starting from the cached filing. */
  ghost predicate Posted(w: World) {
    && TreeOk(w.tree) && DistinctKeys(w.journal)
    && forall i :: 0 <= i < |w.journal| ==>
         && w.journal[i].status == Pending
         && (w.journal[i].what.FolderRow? ==> SingleChange(w.journal[i]))
         && (w.journal[i].what.ObjectRow? ==> CachedPath(w, w.journal[i].what.key) == w.journal[i].from)
  }

  /** A writable object carries what the line starts from. */
  predicate AgreesAt(w: World, i: nat, env: Env)
    requires i < |w.journal|
  {
    var m := w.journal[i];
    m.what.ObjectRow? && m.what.key in env && env[m.what.key].write ==> Value(w, m.what.key) == m.from
  }

  ghost predicate Agreed(w: World, env: Env) {
    forall i :: 0 <= i < |w.journal| ==> AgreesAt(w, i, env)
  }

  /** Cutting after `k` writes and resuming ends like the run that was not cut. */
  ghost predicate Recovers(w: World, env: Env, k: nat)
    requires k <= |Writes(w, env)|
  {
    var r := Resume(Interrupted(w, env, k), env);
    AllDone(r) && SameStores(r, Complete(w, env))
  }

  /** Line `p`, cut after `j` of its writes and run again strictly, ends like the line run once. */
  ghost predicate Restarts(u: World, p: nat, j: nat, env: Env)
    requires p < |u.journal| && j < |LineEffects(u, p, env, false)|
  {
    var x := ApplyAll(u, LineEffects(u, p, env, false)[..j]);
    && Takes(x, p)
    && Alike(Step(x, p, Lines(env, true)), Step(u, p, Lines(env, false)), p)
  }

  lemma {:induction false} NotedEffects(x: World, p: nat, note: seq<Effect>, rest: seq<Effect>) returns (n: World)
    requires p < |x.journal| && (note == [] || exists v :: note == [SetFrom(p, v)])
    ensures ApplyAll(x, note + rest) == ApplyAll(n, rest)
    ensures SameStores(n, x) && |n.journal| == |x.journal|
  {
    ApplyAppend(x, note, rest);
    n := ApplyAll(x, note);
    if note != [] {
      ApplyOne(x, note[0]);
    }
  }

  lemma {:induction false} WrittenEffects(x: World, p: nat, note: seq<Effect>, key: Key, to: Option<Path>, source: Source)
    requires p < |x.journal| && (note == [] || exists v :: note == [SetFrom(p, v)])
    ensures var s := ApplyAll(x, note + [Carry(key, to), File(key, to, source), Mark(p, Done)]);
      && s.objects == Put(x.objects, key, to) && s.cache == Put(x.cache, key, Entered(to, source))
      && s.journal[p].status == Done
  {
    var n := NotedEffects(x, p, note, [Carry(key, to), File(key, to, source), Mark(p, Done)]);
    ApplyThree(n, Carry(key, to), File(key, to, source), Mark(p, Done));
  }

  /** What a written line leaves, whether or not it notes another `from` first. */
  lemma {:induction false} WrittenStep(x: World, p: nat, env: Env, strict: bool, source: Source)
    requires p < |x.journal| && x.journal[p].what.ObjectRow?
    requires var m := x.journal[p];
      && m.what.key in env && env[m.what.key].write && env[m.what.key].readable
      && env[m.what.key].writing == (if source == OnObject then Accepted else Transient)
      && (strict ==> Value(x, m.what.key) == m.from || Value(x, m.what.key) == m.to)
    ensures var m, s := x.journal[p], Step(x, p, Lines(env, strict));
      && s.objects == Put(x.objects, m.what.key, m.to)
      && s.cache == Put(x.cache, m.what.key, Entered(m.to, source))
      && s.journal[p].status == Done
  {
    var m := x.journal[p];
    var before := Value(x, m.what.key);
    var note := if before != m.from then [SetFrom(p, before)] else [];
    WrittenEffects(x, p, note, m.what.key, m.to, source);
    assert LineEffects(x, p, env, strict) == note + [Carry(m.what.key, m.to), File(m.what.key, m.to, source), Mark(p, Done)];
  }

  /** The same journals, but for where line `p` starts. */
  ghost predicate Retaken(x: World, u: World, p: nat) {
    && |x.journal| == |u.journal| && p < |u.journal|
    && (forall i :: 0 <= i < |u.journal| && i != p ==> x.journal[i] == u.journal[i])
    && x.journal[p] == u.journal[p].(from := x.journal[p].from)
  }

  lemma {:induction false} StepsAlike(x: World, u: World, p: nat, env: Env)
    requires p < |u.journal| && Retaken(x, u, p) && x.tree == u.tree
    requires u.journal[p].what.ObjectRow?
    requires Step(x, p, Lines(env, true)).objects == Step(u, p, Lines(env, false)).objects
    requires Step(x, p, Lines(env, true)).cache == Step(u, p, Lines(env, false)).cache
    requires Step(x, p, Lines(env, true)).journal[p].status == Step(u, p, Lines(env, false)).journal[p].status
    ensures Alike(Step(x, p, Lines(env, true)), Step(u, p, Lines(env, false)), p)
  {
    var y, v := Step(x, p, Lines(env, true)), Step(u, p, Lines(env, false));
    LinesLocal(env, true);
    LinesLocal(env, false);
    StepFrame(x, p, Lines(env, true));
    StepFrame(u, p, Lines(env, false));
    FramedAlike(y, x, v, u, p);
  }

  /** The worlds a cut can leave inside a written line. */
  lemma {:induction false} WrittenPrefix(u: World, p: nat, j: nat, key: Key, to: Option<Path>, source: Source)
    requires j < 3
    ensures var x := ApplyAll(u, [Carry(key, to), File(key, to, source), Mark(p, Done)][..j]);
      && x.journal == u.journal && x.tree == u.tree
      && x.objects == (if j == 0 then u.objects else Put(u.objects, key, to))
      && x.cache == (if j < 2 then u.cache else Put(u.cache, key, Entered(to, source)))
  {
    var a, b, c := Carry(key, to), File(key, to, source), Mark(p, Done);
    if j == 0 {
      assert [a, b, c][..j] == [];
    } else if j == 1 {
      assert [a, b, c][..j] == [a];
      ApplyOne(u, a);
    } else {
      assert [a, b, c][..j] == [a, b];
      ApplyTwo(u, a, b);
    }
  }

  /** Written again over its own beginning, a line ends like the line written once. */
  lemma {:induction false} RewrittenAlike(x: World, u: World, p: nat, env: Env, source: Source)
    requires p < |u.journal| && Retaken(x, u, p) && x.tree == u.tree
    requires var m := u.journal[p];
      && m.what.ObjectRow? && Value(u, m.what.key) == m.from
      && (Value(x, m.what.key) == x.journal[p].from || Value(x, m.what.key) == m.to)
      && m.what.key in env && env[m.what.key].write && env[m.what.key].readable
      && env[m.what.key].writing == (if source == OnObject then Accepted else Transient)
      && (x.objects == u.objects || x.objects == Put(u.objects, m.what.key, m.to))
      && (x.cache == u.cache || x.cache == Put(u.cache, m.what.key, Entered(m.to, source)))
    ensures Alike(Step(x, p, Lines(env, true)), Step(u, p, Lines(env, false)), p)
  {
    WrittenStep(u, p, env, false, source);
    WrittenStep(x, p, env, true, source);
    StepsAlike(x, u, p, env);
  }

  /** The line that a cut can leave half written: carried, then filed, then marked. */
  lemma {:induction false} RestartWritten(u: World, p: nat, j: nat, env: Env, source: Source)
    requires p < |u.journal| && j < |LineEffects(u, p, env, false)|
    requires var m := u.journal[p];
      && m.what.ObjectRow? && m.status == Pending && CachedPath(u, m.what.key) == m.from && Value(u, m.what.key) == m.from
      && m.what.key in env && env[m.what.key].write && env[m.what.key].readable
      && env[m.what.key].writing == (if source == OnObject then Accepted else Transient)
    ensures Restarts(u, p, j, env)
  {
    hide Alike, Lines;
    var m := u.journal[p];
    var es := LineEffects(u, p, env, false);
    var plain := [Carry(m.what.key, m.to), File(m.what.key, m.to, source), Mark(p, Done)];
    assert [] + plain == plain;
    assert es == plain;
    WrittenPrefix(u, p, j, m.what.key, m.to, source);
    RewrittenAlike(ApplyAll(u, es[..j]), u, p, env, source);
  }

  /** What a line filed in the console leaves. */
  lemma {:induction false} ConsoleStep(x: World, p: nat, env: Env, strict: bool)
    requires p < |x.journal| && x.journal[p].what.ObjectRow?
    requires var m := x.journal[p];
      && !(Cached(x, m.what.key).Some? && x.cache[m.what.key].source == OnObject)
      && m.what.key in env
      && (env[m.what.key].write ==> env[m.what.key].readable && env[m.what.key].writing.Denied? && Value(x, m.what.key) == m.from)
    ensures var m, s := x.journal[p], Step(x, p, Lines(env, strict));
      && LineEffects(x, p, env, strict) == [File(m.what.key, m.to, ConsoleOnly), Mark(p, Done)]
      && s.objects == x.objects
      && s.cache == Put(x.cache, m.what.key, Entered(m.to, ConsoleOnly))
      && s.journal[p].status == Done
  {
    var m := x.journal[p];
    var b, c := File(m.what.key, m.to, ConsoleOnly), Mark(p, Done);
    assert [] + [b, c] == [b, c];
    ApplyTwo(x, b, c);
  }

  /** A line filed in the console only: filed, then marked. */
  lemma {:induction false} RestartConsole(u: World, p: nat, j: nat, env: Env)
    requires p < |u.journal| && j < |LineEffects(u, p, env, false)|
    requires var m := u.journal[p];
      && m.what.ObjectRow? && m.status == Pending && CachedPath(u, m.what.key) == m.from
      && !(Cached(u, m.what.key).Some? && u.cache[m.what.key].source == OnObject)
      && m.what.key in env
      && (env[m.what.key].write ==> env[m.what.key].readable && env[m.what.key].writing.Denied? && Value(u, m.what.key) == m.from)
    ensures Restarts(u, p, j, env)
  {
    var m := u.journal[p];
    ConsoleStep(u, p, env, false);
    var es := LineEffects(u, p, env, false);
    if j == 0 {
      assert es[..j] == [];
    } else {
      assert es[..j] == [File(m.what.key, m.to, ConsoleOnly)];
      ApplyOne(u, es[0]);
    }
    var x := ApplyAll(u, es[..j]);
    ConsoleStep(x, p, env, true);
    StepsAlike(x, u, p, env);
  }

  lemma {:induction false} RestartObject(u: World, p: nat, j: nat, env: Env)
    requires p < |u.journal| && j < |LineEffects(u, p, env, false)|
    requires u.journal[p].what.ObjectRow? && u.journal[p].status == Pending && AgreesAt(u, p, env)
    requires CachedPath(u, u.journal[p].what.key) == u.journal[p].from
    requires Step(u, p, Lines(env, false)).journal[p].status == Done
    ensures Restarts(u, p, j, env)
  {
    var key := u.journal[p].what.key;
    StepOutcome(u, p, env, false);
    if env[key].write && env[key].writing.Accepted? {
      RestartWritten(u, p, j, env, OnObject);
    } else if env[key].write && env[key].writing.Transient? {
      RestartWritten(u, p, j, env, ConsoleOnly);
    } else {
      RestartConsole(u, p, j, env);
    }
  }

  /** Cut before its first write, a folder line simply runs. */
  lemma {:induction false} RestartUncut(u: World, p: nat, env: Env)
    requires p < |u.journal| && u.journal[p].what.FolderRow? && u.journal[p].status == Pending
    ensures LineEffects(u, p, env, false) != [] && Restarts(u, p, 0, env)
  {
    assert LineEffects(u, p, env, false)[..0] == [];
    assert LineEffects(u, p, env, true) == LineEffects(u, p, env, false);
  }

  /** What a folder line that ends done commits: its mark, after one tree at most. */
  lemma {:induction false} DoneFolderEffects(u: World, p: nat, env: Env) returns (trees: seq<Tree>)
    requires TreeOk(u.tree) && p < |u.journal| && u.journal[p].what.FolderRow? && SingleChange(u.journal[p])
    requires Step(u, p, Lines(env, false)).journal[p].status == Done
    ensures var m := u.journal[p]; ReplayFolder(u.tree, Filed(u), m.what.id, m.from, m.to) == (trees, Done)
    ensures LineEffects(u, p, env, false) == (if trees == [] then [Mark(p, Done)] else [Retree(trees[0]), Mark(p, Done)])
  {
    var m := u.journal[p];
    var (ts, status) := ReplayFolder(u.tree, Filed(u), m.what.id, m.from, m.to);
    trees := ts;
    SingleChangeIsAtomic(u.tree, Filed(u), m.what.id, m.from.value, m.to);
    if trees == [] {
      assert Retrees(trees) + [Mark(p, status)] == [Mark(p, status)];
      ApplyOne(u, Mark(p, status));
    } else {
      assert Retrees(trees) + [Mark(p, status)] == [Retree(trees[0]), Mark(p, status)];
      ApplyTwo(u, Retree(trees[0]), Mark(p, status));
    }
  }

  lemma {:induction false} RestartFolder(u: World, p: nat, j: nat, env: Env)
    requires TreeOk(u.tree) && p < |u.journal| && j < |LineEffects(u, p, env, false)|
    requires u.journal[p].what.FolderRow? && u.journal[p].status == Pending && SingleChange(u.journal[p])
    requires Step(u, p, Lines(env, false)).journal[p].status == Done
    ensures Restarts(u, p, j, env)
  {
    if j == 0 {
      RestartUncut(u, p, env);
    } else {
      var m := u.journal[p];
      var trees := DoneFolderEffects(u, p, env);
      ReplayDone(u.tree, Filed(u), m.what.id, m.from, m.to);
      RestartMovedFolder(u, p, env, trees[0]);
    }
  }

  /** Cut between the tree and the mark: the folder is found in place. */
  lemma {:induction false} RestartMovedFolder(u: World, p: nat, env: Env, t: Tree)
    requires p < |u.journal| && u.journal[p].what.FolderRow? && u.journal[p].status == Pending
    requires LineEffects(u, p, env, false) == [Retree(t), Mark(p, Done)]
    requires var m := u.journal[p]; forall again :: ReplayFolder(t, again, m.what.id, m.from, m.to) == ([], Done)
    ensures LineEffects(u, p, env, false)[..1] == [Retree(t)]
    ensures Restarts(u, p, 1, env)
  {
    ApplyOne(u, Retree(t));
    ApplyTwo(u, Retree(t), Mark(p, Done));
    var x := Apply(u, Retree(t));
    assert LineEffects(x, p, env, true) == [Mark(p, Done)];
    ApplyOne(x, Mark(p, Done));
  }

  /** The lines a resume takes when all before `c` are done and the others are not started. */
  lemma {:induction false} ResumeTodoIsTail(x: World, c: nat, n: nat)
    requires c <= n <= |x.journal|
    requires forall i :: 0 <= i < c ==> x.journal[i].status == Done
    requires forall i :: c <= i < n ==> Takes(x, i)
    ensures ResumeTodo(x, n) == Range(c, n)
    decreases n
  {
    if n == c {
      NothingToResume(x, n);
    } else {
      ResumeTodoIsTail(x, c, n - 1);
      RangeSplit(c, n - 1, n);
      assert Range(n - 1, n) == [n - 1];
    }
  }

  lemma {:induction false} NothingToResume(x: World, n: nat)
    requires n <= |x.journal| && forall i :: 0 <= i < n ==> x.journal[i].status == Done
    ensures ResumeTodo(x, n) == []
  {
    if n == 0 {
    } else {
      NothingToResume(x, n - 1);
    }
  }

  // --- the theorem ------------------------------------------------------------------------

  lemma {:induction false} AgreementIsStable(env: Env)
    ensures Stable((w: World, i: nat) => i < |w.journal| && AgreesAt(w, i, env))
  {
  }

  /** On objects that agree, a strict run writes what the first run writes. */
  lemma {:induction false} StrictMimics(env: Env)
    ensures Mimics(Lines(env, true), Lines(env, false), (w: World, i: nat) => i < |w.journal| && AgreesAt(w, i, env))
  {
    forall y: World, v: World, c: nat, i: nat | Alike(y, v, c) && c < i < |v.journal| && AgreesAt(v, i, env)
      ensures Lines(env, true)(y, i) == Lines(env, false)(v, i)
    {
      StrictMimicsAt(y, v, c, i, env);
    }
  }

  lemma {:induction false} StrictMimicsAt(y: World, v: World, c: nat, i: nat, env: Env)
    requires Alike(y, v, c) && c < i < |v.journal| && AgreesAt(v, i, env)
    ensures LineEffects(y, i, env, true) == LineEffects(v, i, env, false)
  {
  }

  /** A line after the cut is still to be taken. */
  lemma {:induction false} LaterLineTaken(w: World, u: World, x: World, p: nat, i: nat)
    requires Posted(w) && DistinctKeys(u.journal)
    requires p < i < |w.journal| && SameAt(u, w, i) && Framed(x, u, p)
    ensures SameAt(x, w, i) && Takes(x, i)
  {
    if u.journal[i].what.ObjectRow? {
      var key := u.journal[i].what.key;
      assert u.journal[p].what != u.journal[i].what;
      assert Cached(x, key) == Cached(u, key) == Cached(w, key) && Value(x, key) == Value(u, key);
    }
  }

  lemma {:induction false} CutLineRestarts(w: World, u: World, env: Env, p: nat, j: nat)
    requires Posted(w) && Agreed(w, env) && TreeOk(u.tree) && SameAt(u, w, p)
    requires j < |LineEffects(u, p, env, false)|
    requires Step(u, p, Lines(env, false)).journal[p].status == Done
    ensures Restarts(u, p, j, env)
  {
    assert AgreesAt(w, p, env);
    if w.journal[p].what.ObjectRow? {
      RestartObject(u, p, j, env);
    } else {
      RestartFolder(u, p, j, env);
    }
  }

  /** Run again strictly from line `p`, an action that agrees stays like its first run as far as it goes, if line `p` does. */
  lemma {:induction false} AlikeUpTo(w: World, env: Env, p: nat, hi: nat, u: World, x: World)
    requires Posted(w) && Agreed(w, env) && AllDone(Complete(w, env)) && p < hi <= |w.journal| == |x.journal|
    requires u == Run(w, Range(0, p), Lines(env, false))
    requires Alike(Step(x, p, Lines(env, true)), Step(u, p, Lines(env, false)), p)
    ensures Alike(Run(x, Range(p, hi), Lines(env, true)), Run(w, Range(0, hi), Lines(env, false)), p)
  {
    var line, ready := Lines(env, false), (w: World, i: nat) => i < |w.journal| && AgreesAt(w, i, env);
    LinesLocal(env, false);
    HalfWay(w, line, p);
    forall i | p < i < |w.journal|
      ensures ready(u, i)
    {
      assert AgreesAt(w, i, env) && SameAt(u, w, i);
    }
    AgreementIsStable(env);
    StrictMimics(env);
    RunSuffixAlike(w, u, x, p, hi, Lines(env, true), line, ready);
  }

  /** From line `p` on, the resume ends like the whole run as soon as line `p` does. */
  lemma {:induction false} RecoverAt(w: World, env: Env, p: nat, u: World, x: World)
    requires Posted(w) && Agreed(w, env) && AllDone(Complete(w, env)) && p < |w.journal| == |x.journal|
    requires u == Run(w, Range(0, p), Lines(env, false))
    requires (forall i :: 0 <= i < p ==> x.journal[i].status == Done) && forall i :: p <= i < |x.journal| ==> Takes(x, i)
    requires Alike(Step(x, p, Lines(env, true)), Step(u, p, Lines(env, false)), p)
    ensures ResumeTodo(x, |x.journal|) == Range(p, |x.journal|)
    ensures AllDone(Resume(x, env)) && SameStores(Resume(x, env), Complete(w, env))
  {
    ResumeTodoIsTail(x, p, |x.journal|);
    AlikeUpTo(w, env, p, |w.journal|, u, x);
  }

  /** Cut inside line `p` of an action, nothing after it is touched. */
  lemma {:induction false} CutKeepsRest(w: World, env: Env, p: nat, u: World, x: World)
    requires Posted(w) && AllDone(Complete(w, env)) && p < |w.journal|
    requires u == Run(w, Range(0, p), Lines(env, false)) && Framed(x, u, p)
    ensures |x.journal| == |w.journal| && DistinctKeys(x.journal)
    ensures (forall i :: 0 <= i < p ==> x.journal[i].status == Done) && forall i :: p < i < |w.journal| ==> SameAt(x, w, i) && Takes(x, i)
  {
    LinesLocal(env, false);
    HalfWay(w, Lines(env, false), p);
    forall i | p < i < |w.journal|
      ensures SameAt(x, w, i) && Takes(x, i)
    {
      LaterLineTaken(w, u, x, p, i);
    }
  }

  /** Where a cut fell: at the end, or inside line `p`, after `j` of its writes, from the world `u` before that line. */
  ghost predicate CutIn(w: World, env: Env, x: World, p: nat, j: nat, u: World) {
    && p < |w.journal| && u == Run(w, Range(0, p), Lines(env, false)) && |u.journal| == |w.journal|
    && j < |LineEffects(u, p, env, false)| && x == ApplyAll(u, LineEffects(u, p, env, false)[..j])
    && SameAt(u, w, p) && TreeOk(u.tree) && DistinctKeys(u.journal)
    && Step(u, p, Lines(env, false)).journal[p].status == Done && Framed(x, u, p)
  }

  lemma {:induction false} FindCut(w: World, env: Env, k: nat) returns (p: nat, j: nat, u: World)
    requires Posted(w) && AllDone(Complete(w, env)) && k <= |Writes(w, env)|
    ensures p <= |w.journal|
    ensures var x := Interrupted(w, env, k);
      if p == |w.journal| then x == Complete(w, env) else CutIn(w, env, x, p, j, u)
  {
    var n, line := |w.journal|, Lines(env, false);
    p, j := CutInsideALine(w, Range(0, n), line, k);
    u := w;
    if p < n {
      hide Posted, AllDone, RunEffects, Complete;
      RangeSplit(0, p, n);
      u := Run(w, Range(0, p), line);
      CutWorldIs(w, Range(0, n), line, p, j);
      CutHolds(w, env, p, j, u);
    }
  }

  lemma {:induction false} CutHolds(w: World, env: Env, p: nat, j: nat, u: World)
    requires Posted(w) && AllDone(Complete(w, env)) && p < |w.journal| && u == Run(w, Range(0, p), Lines(env, false))
    requires j < |LineEffects(u, p, env, false)|
    ensures CutIn(w, env, ApplyAll(u, LineEffects(u, p, env, false)[..j]), p, j, u)
  {
    assert TreeOk(w.tree) && DistinctKeys(w.journal);
    hide Posted, AllDone, LineEffects, TreeOk, DistinctKeys;
    LinesLocal(env, false);
    HalfWay(w, Lines(env, false), p);
    RunKeepsTree(w, Range(0, p), env, false);
    CutFramed(u, p, j, env);
  }

  lemma {:induction false} CutFramed(u: World, p: nat, j: nat, env: Env)
    requires p < |u.journal| && j <= |LineEffects(u, p, env, false)|
    ensures Framed(ApplyAll(u, LineEffects(u, p, env, false)[..j]), u, p)
  {
    var es := LineEffects(u, p, env, false);
    LineConcerns(u, p, env, false);
    assert forall e :: e in es[..j] ==> e in es;
    ApplyAllFrame(u, es[..j], p);
  }

  lemma {:induction false} RecoversWhenAgreed(w: World, env: Env, k: nat)
    requires Posted(w) && AllDone(Complete(w, env)) && Agreed(w, env) && k <= |Writes(w, env)|
    ensures Recovers(w, env, k)
  {
    var p, j, u := FindCut(w, env, k);
    if p == |w.journal| {
      NothingToResume(Complete(w, env), p);
    } else {
      hide Posted, Agreed, AllDone, Framed, Takes;
      var x := Interrupted(w, env, k);
      CutLineRestarts(w, u, env, p, j);
      CutKeepsRest(w, env, p, u, x);
      RecoverAt(w, env, p, u, x);
    }
  }

  /**
   * Crash recovery, exactly: for an action whose uninterrupted run would end
   * with every line done, cutting it after any number of writes and resuming
   * gives the same objects, cache and tree with every line done, if and only
   * if every writable object carries what its line starts from.
   */
  lemma {:induction false} CrashRecoveryIff(w: World, env: Env)
    requires Posted(w) && AllDone(Complete(w, env))
    ensures Agreed(w, env) <==> forall k :: 0 <= k <= |Writes(w, env)| ==> Recovers(w, env, k)
  {
    if Agreed(w, env) {
      forall k | 0 <= k <= |Writes(w, env)|
        ensures Recovers(w, env, k)
      {
        RecoversWhenAgreed(w, env, k);
      }
    } else {
      var i :| 0 <= i < |w.journal| && !AgreesAt(w, i, env);
      var k := DisagreementStrands(w, env, i);
      assert !Recovers(w, env, k);
    }
  }

  /** A line that ends done and whose object carries something else first notes that value. */
  lemma {:induction false} NotesFirst(u: World, i: nat, env: Env)
    requires i < |u.journal| && u.journal[i].what.ObjectRow?
    requires var key := u.journal[i].what.key; key in env && env[key].write && Value(u, key) != u.journal[i].from
    requires Step(u, i, Lines(env, false)).journal[i].status == Done
    ensures env[u.journal[i].what.key].readable
    ensures LineEffects(u, i, env, false) != []
    ensures LineEffects(u, i, env, false)[0] == SetFrom(i, Value(u, u.journal[i].what.key))
  {
    if !env[u.journal[i].what.key].readable {
      ApplyOne(u, Mark(i, Failed));
    }
  }

  lemma {:induction false} LeftByResume(x: World, env: Env, i: nat)
    requires DistinctKeys(x.journal) && i < |x.journal| && !Takes(x, i)
    ensures Resume(x, env).journal[i] == x.journal[i]
  {
    ResumeTodoHolds(x, |x.journal|);
    LinesLocal(env, true);
    RunKeepsAt(x, ResumeTodo(x, |x.journal|), i, Lines(env, true));
  }

  lemma {:induction false} NotedLineIsLeft(u: World, x: World, i: nat)
    requires i < |u.journal| && DistinctKeys(u.journal) && u.journal[i].what.ObjectRow? && u.journal[i].status == Pending
    requires CachedPath(u, u.journal[i].what.key) != u.journal[i].to
    requires x == Apply(u, SetFrom(i, u.journal[i].to))
    ensures DistinctKeys(x.journal) && !Takes(x, i) && x.journal[i].status == Pending
  {
    forall a, b | 0 <= a < b < |x.journal| && x.journal[a].what.ObjectRow?
      ensures x.journal[a].what != x.journal[b].what
    {
      assert x.journal[a].what == u.journal[a].what && x.journal[b].what == u.journal[b].what;
    }
  }

  /** The value was already the target: cut just after it was noted, the line is never taken again. */
  lemma {:induction false} NotedTargetStrands(w: World, u: World, env: Env, i: nat) returns (k: nat)
    requires i < |w.journal| == |u.journal| && u == Run(w, Range(0, i), Lines(env, false))
    requires DistinctKeys(u.journal) && u.journal[i].what.ObjectRow? && u.journal[i].status == Pending
    requires var m := u.journal[i];
      && CachedPath(u, m.what.key) == m.from != m.to
      && LineEffects(u, i, env, false) != [] && LineEffects(u, i, env, false)[0] == SetFrom(i, m.to)
    ensures k <= |Writes(w, env)|
    ensures Resume(Interrupted(w, env, k), env).journal[i].status != Done
  {
    var n, line := |w.journal|, Lines(env, false);
    var es := LineEffects(u, i, env, false);
    assert es[..1] == [es[0]];
    RangeSplit(0, i, n);
    CutWorldIs(w, Range(0, n), line, i, 1);
    k := CutIsReached(w, Range(0, n), line, i, 1);
    ApplyOne(u, es[0]);
    var x := Interrupted(w, env, k);
    assert x == Apply(u, es[0]);
    NotedLineIsLeft(u, x, i);
    LeftByResume(x, env, i);
  }

  /** An object that does not carry its line's start: some cut leaves its line undone for good. */
  lemma {:induction false} DisagreementStrands(w: World, env: Env, i: nat) returns (k: nat)
    requires Posted(w) && AllDone(Complete(w, env)) && i < |w.journal| && !AgreesAt(w, i, env)
    ensures k <= |Writes(w, env)|
    ensures Resume(Interrupted(w, env, k), env).journal[i].status != Done
  {
    LinesLocal(env, false);
    HalfWay(w, Lines(env, false), i);
    var u := Run(w, Range(0, i), Lines(env, false));
    assert SameAt(u, w, i);
    NotesFirst(u, i, env);
    if Value(w, w.journal[i].what.key) != w.journal[i].to {
      k := 0;
      assert Writes(w, env)[..0] == [];
      ResumeKeepsOutsideMoves(w, i, env);
    } else {
      k := NotedTargetStrands(w, u, env, i);
    }
  }

  /**
   * Two cuts are one too many. An object that carries the target while the
   * cache still shows the start is taken by resume, which first notes that
   * value; cut there, no later resume ever takes the line again.
   */
  lemma {:induction false} SecondCutStrands(u: World, env: Env, i: nat, again: Env)
    requires DistinctKeys(u.journal) && i < |u.journal| && u.journal[i].what.ObjectRow? && u.journal[i].status == Pending
    requires var m := u.journal[i];
      && CachedPath(u, m.what.key) == m.from != m.to && Value(u, m.what.key) == m.to
      && m.what.key in env && env[m.what.key].write && env[m.what.key].readable
    ensures Takes(u, i) && LineEffects(u, i, env, true) != []
    ensures LineEffects(u, i, env, true)[0] == SetFrom(i, u.journal[i].to)
    ensures var x := Apply(u, LineEffects(u, i, env, true)[0]); Resume(x, again).journal[i] == x.journal[i] && x.journal[i].status == Pending
  {
    var x := Apply(u, SetFrom(i, u.journal[i].to));
    NotedLineIsLeft(u, x, i);
    LeftByResume(x, again, i);
  }
}
