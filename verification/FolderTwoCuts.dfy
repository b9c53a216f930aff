/**
 * An interrupted action whose resume is interrupted too (bin/harvester-folders.py,
 * cmd_resume after cmd_resume): when the next resume still completes it.
 */
module FolderTwoCuts {
  import opened Wrappers
  import opened FolderPaths
  import opened FolderTree
  import opened FolderRuns
  import opened FolderLines
  import opened FolderReplay
  import opened FolderSlots
  import opened FolderRecovery

  /** An object that already carries the target of its unfinished line. */
  predicate ShowsTarget(x: World, env: Env, i: nat)
    requires i < |x.journal|
  {
    var m := x.journal[i];
    && m.what.ObjectRow? && m.status == Pending && m.from != m.to
    && m.what.key in env && env[m.what.key].write && Value(x, m.what.key) == m.to
  }

  /** The same, its filing still at the start: cut between the object and the cache. */
  predicate HalfFiled(x: World, env: Env, i: nat)
    requires i < |x.journal|
  {
    ShowsTarget(x, env, i) && CachedPath(x, x.journal[i].what.key) == x.journal[i].from
  }

  /** Every write of the resume, in order. */
  ghost function ResumeWrites(x: World, env: Env): seq<Effect> {
    RunEffects(x, ResumeTodo(x, |x.journal|), Lines(env, true))
  }

  /** The resume cut after `l` of its writes, and resumed again. */
  ghost function ResumedTwice(x: World, env: Env, l: nat): World
    requires l <= |ResumeWrites(x, env)|
  {
    Resume(ApplyAll(x, ResumeWrites(x, env)[..l]), env)
  }

  /** It ends like the run that was never cut. */
  ghost predicate RecoversAgain(w: World, env: Env, k: nat, l: nat)
    requires k <= |Writes(w, env)| && l <= |ResumeWrites(Interrupted(w, env, k), env)|
  {
    var r := ResumedTwice(Interrupted(w, env, k), env, l);
    AllDone(r) && SameStores(r, Complete(w, env))
  }

  /** Line `p` can be taken up again in `y`, and then ends like the line run once from `u`. */
  ghost predicate TakesUp(y: World, u: World, p: nat, env: Env) {
    && p < |u.journal| && Framed(y, u, p) && Takes(y, p)
    && Alike(Step(y, p, Lines(env, true)), Step(u, p, Lines(env, false)), p)
  }

  // --- cut twice inside the same line ---------------------------------------------------------

  lemma {:induction false} PrefixTakesUp(w: World, u: World, env: Env, p: nat, j: nat)
    requires Posted(w) && Agreed(w, env) && TreeOk(u.tree) && SameAt(u, w, p)
    requires j < |LineEffects(u, p, env, false)|
    requires Step(u, p, Lines(env, false)).journal[p].status == Done
    ensures TakesUp(ApplyAll(u, LineEffects(u, p, env, false)[..j]), u, p, env)
  {
    CutLineRestarts(w, u, env, p, j);
    CutFramed(u, p, j, env);
  }

  /** A folder line cut again is a folder line cut once. */
  lemma {:induction false} FolderTakenUp(w: World, u: World, x: World, env: Env, p: nat, j: nat, again: nat)
    requires Posted(w) && Agreed(w, env) && CutIn(w, env, x, p, j, u) && w.journal[p].what.FolderRow?
    requires again < |LineEffects(x, p, env, true)|
    ensures TakesUp(ApplyAll(x, LineEffects(x, p, env, true)[..again]), u, p, env)
  {
    var es := LineEffects(u, p, env, false);
    if j == 0 {
      assert es[..0] == [] && x == u;
      assert LineEffects(x, p, env, true) == es;
      PrefixTakesUp(w, u, env, p, again);
    } else {
      var m := u.journal[p];
      var trees := DoneFolderEffects(u, p, env);
      ReplayDone(u.tree, Filed(u), m.what.id, m.from, m.to);
      assert es[..1] == [Retree(trees[0])];
      ApplyOne(u, Retree(trees[0]));
      assert LineEffects(x, p, env, true) == [Mark(p, Done)];
      assert LineEffects(x, p, env, true)[..0] == [];
      PrefixTakesUp(w, u, env, p, j);
    }
  }

  /** A line kept in the console. */
  ghost predicate ConsoleFrom(u: World, p: nat, env: Env) {
    && p < |u.journal|
    && var m := u.journal[p];
      && m.what.ObjectRow? && m.what.key in env
      && (env[m.what.key].write ==> env[m.what.key].readable && env[m.what.key].writing.Denied? && Value(u, m.what.key) == m.from)
      && !(Cached(u, m.what.key).Some? && u.cache[m.what.key].source == OnObject)
  }

  lemma {:induction false} ConsoleEffects(u: World, p: nat, env: Env, strict: bool)
    requires ConsoleFrom(u, p, env)
    ensures var m := u.journal[p];
      LineEffects(u, p, env, strict) == [File(m.what.key, m.to, ConsoleOnly), Mark(p, Done)]
  {
    ConsoleStep(u, p, env, strict);
  }

  lemma {:induction false} ConsoleFiled(u: World, x: World, p: nat, env: Env)
    requires ConsoleFrom(u, p, env)
    requires var m := u.journal[p]; x == u || x == Apply(u, File(m.what.key, m.to, ConsoleOnly))
    ensures var m := u.journal[p];
      && ConsoleFrom(x, p, env) && x.journal == u.journal
      && Apply(x, File(m.what.key, m.to, ConsoleOnly)) == Apply(u, File(m.what.key, m.to, ConsoleOnly))
  {
  }

  lemma {:induction false} ConsolePrefix(u: World, x: World, env: Env, p: nat, j: nat, again: nat) returns (j2: nat)
    requires ConsoleFrom(u, p, env) && j < |LineEffects(u, p, env, false)| && x == ApplyAll(u, LineEffects(u, p, env, false)[..j])
    requires again < |LineEffects(x, p, env, true)|
    ensures j2 < |LineEffects(u, p, env, false)|
    ensures ApplyAll(x, LineEffects(x, p, env, true)[..again]) == ApplyAll(u, LineEffects(u, p, env, false)[..j2])
  {
    var m := u.journal[p];
    var file, mark := File(m.what.key, m.to, ConsoleOnly), Mark(p, Done);
    ConsoleEffects(u, p, env, false);
    assert [file, mark][..0] == [] && [file, mark][..1] == [file];
    ApplyOne(u, file);
    assert ApplyAll(u, []) == u;
    ConsoleFiled(u, x, p, env);
    hide LineEffects, ConsoleFrom, Apply;
    ConsoleEffects(x, p, env, true);
    ApplyOne(x, file);
    j2 := if again == 0 then j else 1;
  }

  /** So is a line filed in the console. */
  lemma {:induction false} ConsoleTakenUp(w: World, u: World, x: World, env: Env, p: nat, j: nat, again: nat)
    requires Posted(w) && Agreed(w, env) && CutIn(w, env, x, p, j, u) && again < |LineEffects(x, p, env, true)|
    requires ConsoleFrom(u, p, env)
    ensures TakesUp(ApplyAll(x, LineEffects(x, p, env, true)[..again]), u, p, env)
  {
    hide TakesUp, Posted, Agreed, ConsoleFrom, LineEffects, Framed;
    var j2 := ConsolePrefix(u, x, env, p, j, again);
    PrefixTakesUp(w, u, env, p, j2);
  }

  /** What a written line cut again has changed, from the world before that line. */
  ghost predicate PartWritten(y: World, u: World, p: nat, source: Source)
    requires p < |u.journal| && u.journal[p].what.ObjectRow?
  {
    var m := u.journal[p];
    && Retaken(y, u, p) && y.tree == u.tree
    && (y.journal[p].from == m.from || (y.journal[p].from == m.to && y.objects == Put(u.objects, m.what.key, m.to)))
    && (y.objects == u.objects || y.objects == Put(u.objects, m.what.key, m.to))
    && (y.cache == u.cache || y.cache == Put(u.cache, m.what.key, Entered(m.to, source)))
    && (y.journal[p].from != m.from ==> y.cache != u.cache)
  }

  lemma {:induction false} RewrittenPrefix(u: World, x: World, p: nat, k: nat, source: Source)
    requires p < |u.journal| && u.journal[p].what.ObjectRow? && PartWritten(x, u, p, source) && k < 3
    ensures var m := u.journal[p];
      PartWritten(ApplyAll(x, [Carry(m.what.key, m.to), File(m.what.key, m.to, source), Mark(p, Done)][..k]), u, p, source)
  {
    var m := u.journal[p];
    WrittenPrefix(x, p, k, m.what.key, m.to, source);
  }

  /** The first write of a line whose object already carries the target, and is filed there. */
  lemma {:induction false} NotedPrefix(u: World, x: World, p: nat, k: nat, source: Source)
    requires p < |u.journal| && u.journal[p].what.ObjectRow? && PartWritten(x, u, p, source) && k < 4
    requires var m := u.journal[p];
      x.cache == Put(u.cache, m.what.key, Entered(m.to, source)) != u.cache && x.objects == Put(u.objects, m.what.key, m.to)
    ensures var m := u.journal[p];
      var es := [SetFrom(p, m.to)] + [Carry(m.what.key, m.to), File(m.what.key, m.to, source), Mark(p, Done)];
      PartWritten(ApplyAll(x, es[..k]), u, p, source)
  {
    var m := u.journal[p];
    var plain := [Carry(m.what.key, m.to), File(m.what.key, m.to, source), Mark(p, Done)];
    var es := [SetFrom(p, m.to)] + plain;
    if k == 0 {
      assert es[..0] == [];
    } else {
      var n := Apply(x, SetFrom(p, m.to));
      assert es[..k] == [SetFrom(p, m.to)] + plain[..k - 1];
      ApplyAppend(x, [SetFrom(p, m.to)], plain[..k - 1]);
      ApplyOne(x, SetFrom(p, m.to));
      RewrittenPrefix(u, n, p, k - 1, source);
    }
  }

  /** A line that would be written whole from `u`, and is written from there. */
  ghost predicate WrittenFrom(u: World, p: nat, env: Env, source: Source) {
    && p < |u.journal|
    && var m := u.journal[p];
      && m.what.ObjectRow? && m.status == Pending && CachedPath(u, m.what.key) == m.from && Value(u, m.what.key) == m.from
      && m.what.key in env && env[m.what.key].write && env[m.what.key].readable
      && env[m.what.key].writing == (if source == OnObject then Accepted else Transient)
  }

  lemma {:induction false} PartWrittenTaken(y: World, u: World, p: nat, env: Env, source: Source)
    requires WrittenFrom(u, p, env, source) && PartWritten(y, u, p, source)
    ensures Takes(y, p) && Alike(Step(y, p, Lines(env, true)), Step(u, p, Lines(env, false)), p)
  {
    hide LineEffects, Alike;
    RewrittenAlike(y, u, p, env, source);
  }

  /** A written line cut again. */
  lemma {:induction false} WrittenTakenUp(u: World, x: World, env: Env, p: nat, j: nat, again: nat, source: Source)
    requires WrittenFrom(u, p, env, source) && j < 3
    requires var m := u.journal[p];
      x == ApplyAll(u, [Carry(m.what.key, m.to), File(m.what.key, m.to, source), Mark(p, Done)][..j])
    requires again < |LineEffects(x, p, env, true)| && !HalfFiled(x, env, p)
    ensures var y := ApplyAll(x, LineEffects(x, p, env, true)[..again]);
      Takes(y, p) && Alike(Step(y, p, Lines(env, true)), Step(u, p, Lines(env, false)), p)
  {
    var m := u.journal[p];
    var plain := [Carry(m.what.key, m.to), File(m.what.key, m.to, source), Mark(p, Done)];
    WrittenPrefix(u, p, j, m.what.key, m.to, source);
    var es := LineEffects(x, p, env, true);
    if Value(x, m.what.key) == m.from {
      assert [] + plain == plain && es == plain;
      RewrittenPrefix(u, x, p, again, source);
    } else {
      assert es == [SetFrom(p, m.to)] + plain;
      NotedPrefix(u, x, p, again, source);
    }
    hide LineEffects, Alike, PartWritten;
    PartWrittenTaken(ApplyAll(x, es[..again]), u, p, env, source);
  }

  lemma {:induction false} EffectsFramed(x: World, p: nat, env: Env, u: World, again: nat)
    requires p < |u.journal| && Framed(x, u, p) && again <= |LineEffects(x, p, env, true)|
    ensures Framed(ApplyAll(x, LineEffects(x, p, env, true)[..again]), u, p)
  {
    var es := LineEffects(x, p, env, true);
    LineConcerns(x, p, env, true);
    assert forall e :: e in es[..again] ==> e in es;
    ApplyAllFrame(x, es[..again], p);
    var y := ApplyAll(x, es[..again]);
    assert Framed(y, x, p);
  }

  lemma {:induction false} ObjectTakenUp(w: World, u: World, x: World, env: Env, p: nat, j: nat, again: nat)
    requires Posted(w) && Agreed(w, env) && CutIn(w, env, x, p, j, u) && w.journal[p].what.ObjectRow?
    requires again < |LineEffects(x, p, env, true)| && !HalfFiled(x, env, p)
    ensures TakesUp(ApplyAll(x, LineEffects(x, p, env, true)[..again]), u, p, env)
  {
    var m := u.journal[p];
    assert AgreesAt(w, p, env) && w.journal[p].status == Pending && CachedPath(w, m.what.key) == w.journal[p].from;
    StepOutcome(u, p, env, false);
    var key := m.what.key;
    if env[key].write && env[key].writing in {Accepted, Transient} {
      var source := if env[key].writing.Accepted? then OnObject else ConsoleOnly;
      var plain := [Carry(key, m.to), File(key, m.to, source), Mark(p, Done)];
      assert [] + plain == plain && LineEffects(u, p, env, false) == plain;
      hide LineEffects, Framed;
      WrittenTakenUp(u, x, env, p, j, again, source);
      EffectsFramed(x, p, env, u, again);
    } else {
      assert ConsoleFrom(u, p, env);
      hide LineEffects, Framed, ConsoleFrom;
      ConsoleTakenUp(w, u, x, env, p, j, again);
    }
  }

  lemma {:induction false} SameLineAgain(w: World, u: World, x: World, env: Env, p: nat, j: nat, again: nat)
    requires Posted(w) && Agreed(w, env) && AllDone(Complete(w, env)) && CutIn(w, env, x, p, j, u)
    requires again < |LineEffects(x, p, env, true)| && !HalfFiled(x, env, p)
    ensures var r := Resume(ApplyAll(x, LineEffects(x, p, env, true)[..again]), env); AllDone(r) && SameStores(r, Complete(w, env))
  {
    if w.journal[p].what.FolderRow? {
      FolderTakenUp(w, u, x, env, p, j, again);
    } else {
      ObjectTakenUp(w, u, x, env, p, j, again);
    }
    hide Posted, Agreed, LineEffects, Framed, Alike, AllDone, Takes, HalfFiled;
    var y := ApplyAll(x, LineEffects(x, p, env, true)[..again]);
    CutKeepsRest(w, env, p, u, y);
    RecoverAt(w, env, p, u, y);
  }

  // --- cut again in a later line --------------------------------------------------------------------

  /** In two worlds alike, a line that agrees writes the same again. */
  lemma {:induction false} SameEffects(y: World, y0: World, p: nat, q: nat, env: Env)
    requires Alike(y, y0, p) && p < q < |y0.journal|
    ensures LineEffects(y, q, env, true) == LineEffects(y0, q, env, true)
    ensures Alike(Step(y, q, Lines(env, true)), Step(y0, q, Lines(env, true)), p)
  {
    LineConcerns(y0, q, env, true);
    ApplyAllAlike(y, y0, LineEffects(y0, q, env, true), p, q, y0.journal[q].what);
  }

  lemma {:induction false} AlikeTakes(y: World, y0: World, p: nat)
    requires Alike(y, y0, p)
    ensures |y.journal| == |y0.journal| && forall i :: p < i < |y0.journal| ==> Takes(y, i) == Takes(y0, i)
  {
  }

  /** The resume, cut inside a later line, is alike to the first run cut there. */
  lemma {:induction false} LaterLineAgain(w: World, u: World, x: World, env: Env, p: nat, q: nat, again: nat)
    requires Posted(w) && Agreed(w, env) && AllDone(Complete(w, env)) && p < q < |w.journal| == |x.journal|
    requires u == Run(w, Range(0, p), Lines(env, false))
    requires Alike(Step(x, p, Lines(env, true)), Step(u, p, Lines(env, false)), p)
    requires var v := Run(x, Range(p, q), Lines(env, true)); again < |LineEffects(v, q, env, true)|
    ensures var v := Run(x, Range(p, q), Lines(env, true));
      var r := Resume(ApplyAll(v, LineEffects(v, q, env, true)[..again]), env);
      AllDone(r) && SameStores(r, Complete(w, env))
  {
    hide LineEffects, TreeOk, SingleChange;
    var v, t := Run(x, Range(p, q), Lines(env, true)), Run(w, Range(0, q), Lines(env, false));
    AlikeUpTo(w, env, p, q, u, x);
    LinesLocal(env, false);
    HalfWay(w, Lines(env, false), q);
    assert AgreesAt(w, q, env) && SameAt(t, w, q);
    StrictMimicsAt(v, t, p, q, env);
    var es := LineEffects(t, q, env, false);
    var y, y0 := ApplyAll(v, es[..again]), ApplyAll(t, es[..again]);
    LineConcerns(t, q, env, false);
    assert forall e :: e in es[..again] ==> e in es;
    ApplyAllAlike(v, t, es[..again], p, q, t.journal[q].what);
    LaterLineRecovers(w, t, y, y0, env, p, q, again);
  }

  lemma {:induction false} LaterLineRecovers(w: World, t: World, y: World, y0: World, env: Env, p: nat, q: nat, again: nat)
    requires Posted(w) && Agreed(w, env) && AllDone(Complete(w, env)) && p < q < |w.journal|
    requires t == Run(w, Range(0, q), Lines(env, false)) && again < |LineEffects(t, q, env, false)|
    requires y0 == ApplyAll(t, LineEffects(t, q, env, false)[..again]) && Alike(y, y0, p)
    ensures var r := Resume(y, env); AllDone(r) && SameStores(r, Complete(w, env))
  {
    CutHolds(w, env, q, again, t);
    CutLineRestarts(w, t, env, q, again);
    CutKeepsRest(w, env, q, t, y0);
    hide LineEffects, Posted, Agreed, AllDone, CutIn;
    SameEffects(y, y0, p, q, env);
    AlikeTakes(y, y0, p);
    AlikeTrans(Step(y, q, Lines(env, true)), Step(y0, q, Lines(env, true)), Step(t, q, Lines(env, false)), p, q);
    hide Takes;
    RecoverAt(w, env, q, t, y);
  }

  // --- the theorem --------------------------------------------------------------------------------------

  /** A resume that is not cut leaves nothing to resume. */
  lemma {:induction false} AfterResume(w: World, env: Env, p: nat, u: World, x: World)
    requires AllDone(Resume(x, env)) && SameStores(Resume(x, env), Complete(w, env))
    ensures var r := Resume(Resume(x, env), env); AllDone(r) && SameStores(r, Complete(w, env))
  {
    NothingToResume(Resume(x, env), |x.journal|);
  }

  /** What the cut leaves is resumed from its own line on. */
  lemma {:induction false} CutRecovers(w: World, env: Env, p: nat, j: nat, u: World, x: World)
    requires Posted(w) && Agreed(w, env) && AllDone(Complete(w, env)) && CutIn(w, env, x, p, j, u)
    ensures |x.journal| == |w.journal| && ResumeTodo(x, |x.journal|) == Range(p, |x.journal|)
    ensures Alike(Step(x, p, Lines(env, true)), Step(u, p, Lines(env, false)), p)
    ensures AllDone(Resume(x, env)) && SameStores(Resume(x, env), Complete(w, env))
  {
    hide Posted, Agreed, AllDone, Framed, Takes;
    CutLineRestarts(w, u, env, p, j);
    CutKeepsRest(w, env, p, u, x);
    RecoverAt(w, env, p, u, x);
  }

  lemma {:induction false} AgainFromCut(w: World, env: Env, p: nat, j: nat, u: World, x: World, l: nat)
    requires Posted(w) && Agreed(w, env) && AllDone(Complete(w, env)) && CutIn(w, env, x, p, j, u) && !HalfFiled(x, env, p)
    requires |x.journal| == |w.journal| && l <= |RunEffects(x, Range(p, |w.journal|), Lines(env, true))|
    requires Alike(Step(x, p, Lines(env, true)), Step(u, p, Lines(env, false)), p)
    requires Run(x, Range(p, |w.journal|), Lines(env, true)) == Resume(x, env)
    requires AllDone(Resume(x, env)) && SameStores(Resume(x, env), Complete(w, env))
    ensures var r := Resume(ApplyAll(x, RunEffects(x, Range(p, |w.journal|), Lines(env, true))[..l]), env);
      AllDone(r) && SameStores(r, Complete(w, env))
  {
    hide Posted, Agreed, AllDone, HalfFiled, SameStores, Takes, LineEffects, RunEffects, CutIn, Complete, Resume, Alike, Run;
    var n := |w.journal|;
    CutStart(w, env, p, j, u, x);
    var q, again := CutLater(x, p, n, Lines(env, true), l);
    if q == n {
      AfterResume(w, env, p, u, x);
    } else if q == p {
      FirstOfRange(x, p, n, Lines(env, true));
      SameLineAgain(w, u, x, env, p, j, again);
    } else {
      LaterLineAgain(w, u, x, env, p, q, again);
    }
  }

  /** Where a run over the lines from `p` was cut. */
  lemma {:induction false} CutLater(x: World, p: nat, n: nat, line: Script, l: nat) returns (q: nat, again: nat)
    requires p < n <= |x.journal| && l <= |RunEffects(x, Range(p, n), line)|
    ensures p <= q <= n
    ensures var y := ApplyAll(x, RunEffects(x, Range(p, n), line)[..l]);
      if q == n then y == Run(x, Range(p, n), line)
      else var v := Run(x, Range(p, q), line); again < |line(v, q)| && y == ApplyAll(v, line(v, q)[..again])
  {
    hide Run, RunEffects, CutWorld, Distinct;
    var k;
    k, again := CutInsideALine(x, Range(p, n), line, l);
    q := p + k;
    if q < n {
      LaterOfRange(x, p, k, n, line);
      CutWorldIs(x, Range(p, n), line, k, again);
    }
  }

  lemma {:induction false} LaterOfRange(x: World, p: nat, q: nat, n: nat, line: Script)
    requires p + q < n <= |x.journal|
    ensures Range(p, n)[..q] == Range(p, p + q) && Range(p, n)[q] == p + q
  {
    RangeSplit(p, p + q, n);
  }

  lemma {:induction false} CutStart(w: World, env: Env, p: nat, j: nat, u: World, x: World)
    requires CutIn(w, env, x, p, j, u)
    ensures p < |w.journal| && u == Run(w, Range(0, p), Lines(env, false))
  {
  }

  lemma {:induction false} FirstOfRange(x: World, p: nat, n: nat, line: Script)
    requires p < n <= |x.journal|
    ensures Run(x, Range(p, p), line) == x
  {
  }

  lemma {:induction false} AgainWhenNotHalf(w: World, env: Env, k: nat, l: nat)
    requires Posted(w) && AllDone(Complete(w, env)) && Agreed(w, env) && k <= |Writes(w, env)|
    requires var x := Interrupted(w, env, k);
      l <= |ResumeWrites(x, env)| && forall i :: 0 <= i < |x.journal| ==> !HalfFiled(x, env, i)
    ensures RecoversAgain(w, env, k, l)
  {
    var n := |w.journal|;
    var x := Interrupted(w, env, k);
    var p, j, u := FindCut(w, env, k);
    if p == n {
      NothingToResume(x, n);
      assert ResumeWrites(x, env)[..l] == [];
    } else {
      hide Posted, Agreed, AllDone, HalfFiled, SameStores, Takes, LineEffects, RunEffects, Alike, Framed;
      CutRecovers(w, env, p, j, u, x);
      AgainFromCut(w, env, p, j, u, x, l);
    }
  }

  /**
   * Where the cut fell, seen in what it leaves: an object shows its target
   * when its own line was cut after writing it, and its filing the start when
   * that was the last write made.
   */
  lemma {:induction false} CutPosition(w: World, env: Env, p: nat, j: nat, u: World, x: World, i: nat)
    requires Posted(w) && Agreed(w, env) && AllDone(Complete(w, env)) && CutIn(w, env, x, p, j, u) && i < |x.journal|
    ensures var m, es := w.journal[p], LineEffects(u, p, env, false);
      && (ShowsTarget(x, env, i) <==> i == p && m.what.ObjectRow? && m.from != m.to && j > 0 && es[0].Carry?)
      && (HalfFiled(x, env, i) <==> i == p && m.what.ObjectRow? && m.from != m.to && j > 0 && es[j - 1].Carry?)
  {
    CutKeepsRest(w, env, p, u, x);
    forall q | p < q < |w.journal|
      ensures !ShowsTarget(x, env, q)
    {
      assert AgreesAt(w, q, env) && SameAt(x, w, q);
    }
    if w.journal[p].what.ObjectRow? {
      ObjectPosition(w, u, x, env, p, j);
    }
  }

  lemma {:induction false} ObjectPosition(w: World, u: World, x: World, env: Env, p: nat, j: nat)
    requires Posted(w) && Agreed(w, env) && CutIn(w, env, x, p, j, u) && w.journal[p].what.ObjectRow?
    ensures var m, es := w.journal[p], LineEffects(u, p, env, false);
      && (ShowsTarget(x, env, p) <==> m.from != m.to && j > 0 && es[0].Carry?)
      && (HalfFiled(x, env, p) <==> m.from != m.to && j > 0 && es[j - 1].Carry?)
  {
    var m := u.journal[p];
    var key := m.what.key;
    assert AgreesAt(w, p, env) && w.journal[p].status == Pending && CachedPath(w, key) == w.journal[p].from;
    hide Posted, Agreed, Framed;
    StepOutcome(u, p, env, false);
    if env[key].write && env[key].writing in {Accepted, Transient} {
      var source := if env[key].writing.Accepted? then OnObject else ConsoleOnly;
      var plain := [Carry(key, m.to), File(key, m.to, source), Mark(p, Done)];
      assert [] + plain == plain && LineEffects(u, p, env, false) == plain;
      hide LineEffects;
      WrittenPrefix(u, p, j, key, m.to, source);
    } else {
      ConsoleStep(u, p, env, false);
      hide LineEffects;
      var file, mark := File(key, m.to, ConsoleOnly), Mark(p, Done);
      assert [file, mark][..0] == [] && [file, mark][..1] == [file];
      ApplyOne(u, file);
    }
  }

  /** Only the line that was cut can show its object at the target. */
  lemma {:induction false} CarriedIsCut(w: World, env: Env, p: nat, j: nat, u: World, x: World, i: nat)
    requires Posted(w) && Agreed(w, env) && AllDone(Complete(w, env)) && CutIn(w, env, x, p, j, u)
    requires i < |x.journal| && ShowsTarget(x, env, i)
    ensures i == p && env[x.journal[i].what.key].readable && DistinctKeys(x.journal)
  {
    CutKeepsRest(w, env, p, u, x);
    forall q | p < q < |w.journal|
      ensures !ShowsTarget(x, env, q)
    {
      assert AgreesAt(w, q, env) && SameAt(x, w, q);
    }
    StepOutcome(u, p, env, false);
  }

  lemma {:induction false} HalfStrands(w: World, env: Env, k: nat, i: nat) returns (l: nat)
    requires Posted(w) && AllDone(Complete(w, env)) && Agreed(w, env) && k <= |Writes(w, env)|
    requires var x := Interrupted(w, env, k); i < |x.journal| && HalfFiled(x, env, i)
    ensures l <= |ResumeWrites(Interrupted(w, env, k), env)| && !RecoversAgain(w, env, k, l)
  {
    var n, strict := |w.journal|, Lines(env, true);
    var x := Interrupted(w, env, k);
    var p, j, u := FindCut(w, env, k);
    assert p < n;
    CutRecovers(w, env, p, j, u, x);
    CarriedIsCut(w, env, p, j, u, x, i);
    SecondCutStrands(x, env, p, env);
    hide Posted, Agreed, CutIn, LineEffects, Takes;
    l := CutIsReached(x, Range(p, n), strict, 0, 1);
    CutWorldIs(x, Range(p, n), strict, 0, 1);
    assert Range(p, n)[..0] == [] && LineEffects(x, p, env, true)[..1] == [LineEffects(x, p, env, true)[0]];
    ApplyOne(x, LineEffects(x, p, env, true)[0]);
    assert ResumedTwice(x, env, l).journal[p].status == Pending;
  }

  /**
   * Interrupted twice, exactly: an action whose objects agree survives every
   * interruption of its resume if and only if its own interruption did not
   * leave an object at its target with the cache still at the start, that is,
   * did not fall between the two writes of a line that moves it.
   */
  lemma {:induction false} SecondCutIff(w: World, env: Env, k: nat)
    requires Posted(w) && AllDone(Complete(w, env)) && Agreed(w, env) && k <= |Writes(w, env)|
    ensures var x := Interrupted(w, env, k);
      (forall l :: 0 <= l <= |ResumeWrites(x, env)| ==> RecoversAgain(w, env, k, l))
      <==> forall i :: 0 <= i < |x.journal| ==> !HalfFiled(x, env, i)
  {
    var x := Interrupted(w, env, k);
    if i :| 0 <= i < |x.journal| && HalfFiled(x, env, i) {
      var l := HalfStrands(w, env, k, i);
      assert !RecoversAgain(w, env, k, l);
    } else {
      forall l | 0 <= l <= |ResumeWrites(x, env)|
        ensures RecoversAgain(w, env, k, l)
      {
        AgainWhenNotHalf(w, env, k, l);
      }
    }
  }
}
