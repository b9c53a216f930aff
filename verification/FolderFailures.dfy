/**
 * An interrupted action some of whose lines fail, objects that cannot be written
 * or a folder that one of them stays in: resuming takes those lines again, and
 * still ends like the run that was not interrupted.
 */
module FolderFailures {
  import opened Wrappers
  import opened FolderPaths
  import opened FolderTree
  import opened FolderRuns
  import opened FolderLines
  import opened FolderReplay
  import opened FolderSlots
  import opened FolderRecovery
  import opened FolderTwoCuts

  /** Of the first `n` lines, those of folders end done in the uninterrupted run; object lines may fail. */
  ghost predicate FoldersDone(w: World, env: Env, n: int) {
    forall i :: 0 <= i < |w.journal| && i < n && w.journal[i].what.FolderRow? ==> Complete(w, env).journal[i].status == Done
  }

  /** The answer was lost, but the object was written. */
  predicate LostAnswer(key: Key, env: Env) {
    key in env && env[key].write && env[key].readable && env[key].writing == Broken(true)
  }

  /** A line that fails from `u`, its object as the line says or already written. */
  ghost predicate Fails(x: World, u: World, p: nat, env: Env) {
    && p < |u.journal| && u.journal[p].what.ObjectRow? && AgreesAt(u, p, env) && u.journal[p].status == Pending
    && Step(u, p, Lines(env, false)).journal[p].status == Failed
    && |x.journal| == |u.journal| && x.tree == u.tree && x.cache == u.cache
    && (forall i :: 0 <= i < |u.journal| && i != p ==> x.journal[i] == u.journal[i])
    && x.journal[p].(status := Pending) == u.journal[p] && x.journal[p].status in {Pending, Failed}
    && (x.objects == u.objects
        || (LostAnswer(u.journal[p].what.key, env) && x.objects == Put(u.objects, u.journal[p].what.key, u.journal[p].to)))
  }

  lemma {:induction false} FailedEffects(u: World, p: nat, env: Env)
    requires Fails(u, u, p, env)
    ensures var m := u.journal[p];
      LineEffects(u, p, env, false)
      == (if LostAnswer(m.what.key, env) then [Carry(m.what.key, m.to)] else []) + [Mark(p, Failed)]
  {
    var m := u.journal[p];
    StepOutcome(u, p, env, false);
    assert [] + [Mark(p, Failed)] == [Mark(p, Failed)];
    assert [] + ([Carry(m.what.key, m.to)] + [Mark(p, Failed)]) == [Carry(m.what.key, m.to)] + [Mark(p, Failed)];
    assert [] + ([] + [Mark(p, Failed)]) == [Mark(p, Failed)];
  }

  lemma {:induction false} FailedStores(n: World, p: nat, key: Key, to: Option<Path>, applied: bool)
    requires p < |n.journal|
    ensures var s := ApplyAll(n, (if applied then [Carry(key, to)] else []) + [Mark(p, Failed)]);
      && s.tree == n.tree && s.cache == n.cache && s.objects == (if applied then Put(n.objects, key, to) else n.objects)
      && s.journal == n.journal[p := n.journal[p].(status := Failed)]
  {
    if applied {
      assert [Carry(key, to)] + [Mark(p, Failed)] == [Carry(key, to), Mark(p, Failed)];
      ApplyTwo(n, Carry(key, to), Mark(p, Failed));
    } else {
      assert [] + [Mark(p, Failed)] == [Mark(p, Failed)];
      ApplyOne(n, Mark(p, Failed));
    }
  }

  lemma {:induction false} FailsFromStart(x: World, u: World, p: nat, env: Env)
    requires Fails(x, u, p, env)
    ensures Fails(u, u, p, env)
  {
  }

  /** A failed line's own writes, after a note or none. */
  lemma {:induction false} NotedFailure(x: World, p: nat, key: Key, to: Option<Path>, applied: bool, note: seq<Effect>) returns (s: World)
    requires p < |x.journal| && (note == [] || exists v :: note == [SetFrom(p, v)])
    ensures s == ApplyAll(x, note + ((if applied then [Carry(key, to)] else []) + [Mark(p, Failed)]))
    ensures s.tree == x.tree && s.cache == x.cache && s.objects == (if applied then Put(x.objects, key, to) else x.objects)
    ensures |s.journal| == |x.journal| && s.journal[p].status == Failed && forall i :: 0 <= i < |x.journal| && i != p ==> s.journal[i] == x.journal[i]
  {
    var rest := (if applied then [Carry(key, to)] else []) + [Mark(p, Failed)];
    ApplyAppend(x, note, rest);
    var n := ApplyAll(x, note);
    if note != [] {
      ApplyOne(x, note[0]);
    }
    FailedStores(n, p, key, to, applied);
    s := ApplyAll(n, rest);
  }

  /** Taken again strictly, such a line fails again and leaves what it left. */
  lemma {:induction false} FailsAgain(x: World, u: World, p: nat, env: Env)
    requires Fails(x, u, p, env)
    ensures Alike(Step(x, p, Lines(env, true)), Step(u, p, Lines(env, false)), p)
  {
    var m := u.journal[p];
    var key := m.what.key;
    var applied := LostAnswer(key, env);
    FailsFromStart(x, u, p, env);
    FailedEffects(u, p, env);
    var note := if applied && Value(x, key) != m.from then [SetFrom(p, Value(x, key))] else [];
    StrictFailure(x, u, p, env, note);
    hide LineEffects, AgreesAt, Apply, ApplyAll;
    FailedStores(u, p, key, m.to, applied);
    var s := NotedFailure(x, p, key, m.to, applied, note);
  }

  lemma {:induction false} StrictFailure(x: World, u: World, p: nat, env: Env, note: seq<Effect>)
    requires Fails(x, u, p, env)
    requires var m := u.journal[p];
      note == if LostAnswer(m.what.key, env) && Value(x, m.what.key) != m.from then [SetFrom(p, Value(x, m.what.key))] else []
    ensures var m := u.journal[p];
      LineEffects(x, p, env, true) == note + ((if LostAnswer(m.what.key, env) then [Carry(m.what.key, m.to)] else []) + [Mark(p, Failed)])
  {
    var m := u.journal[p];
    StepOutcome(u, p, env, false);
    assert [] + [Mark(p, Failed)] == [Mark(p, Failed)];
    assert [] + ([] + [Mark(p, Failed)]) == [Mark(p, Failed)];
  }

  /** Cut inside a line that fails: what the cut leaves. */
  lemma {:induction false} CutFails(u: World, p: nat, j: nat, env: Env)
    requires Fails(u, u, p, env) && j < |LineEffects(u, p, env, false)|
    ensures Fails(ApplyAll(u, LineEffects(u, p, env, false)[..j]), u, p, env)
  {
    var m := u.journal[p];
    FailedEffects(u, p, env);
    var es := LineEffects(u, p, env, false);
    assert es[..0] == [];
    if j == 1 {
      assert es[..1] == [Carry(m.what.key, m.to)];
      ApplyOne(u, Carry(m.what.key, m.to));
    }
  }

  // --- the lines before the cut that failed --------------------------------------------------------

  /** A failed line of the run so far: as it was posted but for its status, its object written or not. */
  ghost predicate LeftFailed(x: World, w: World, i: nat, env: Env) {
    && i < |w.journal| == |x.journal| && w.journal[i].what.ObjectRow? && AgreesAt(w, i, env)
    && x.journal[i] == w.journal[i].(status := Failed)
    && var m := w.journal[i];
      && Cached(x, m.what.key) == Cached(w, m.what.key)
      && Value(x, m.what.key) == (if LostAnswer(m.what.key, env) then m.to else Value(w, m.what.key))
      && Outcome(SlotAt(w, i), m.to, AccessTo(env, m.what.key), false).status == Failed
  }

  /** Taken again, it leaves every store as it is. */
  lemma {:induction false} LeftFailedAgain(x: World, w: World, i: nat, env: Env)
    requires LeftFailed(x, w, i, env) && w.journal[i].status == Pending && CachedPath(w, w.journal[i].what.key) == w.journal[i].from
    ensures Takes(x, i) && Alike(Step(x, i, Lines(env, true)), x, i)
  {
    var m := w.journal[i];
    var key := m.what.key;
    var applied := LostAnswer(key, env);
    var note := if applied && Value(x, key) != m.from then [SetFrom(i, Value(x, key))] else [];
    assert [] + [Mark(i, Failed)] == [Mark(i, Failed)];
    assert [] + ([] + [Mark(i, Failed)]) == [Mark(i, Failed)];
    assert LineEffects(x, i, env, true) == note + ((if applied then [Carry(key, m.to)] else []) + [Mark(i, Failed)]);
    hide LineEffects, AgreesAt, Apply, ApplyAll, Outcome;
    var s := NotedFailure(x, i, key, m.to, applied, note);
    if applied {
      assert Put(x.objects, key, m.to) == x.objects;
    }
  }

  lemma {:induction false} AlikeWiden(y: World, v: World, c: nat, d: nat)
    requires Alike(y, v, c) && c <= d < |v.journal|
    ensures Alike(y, v, d)
  {
  }

  /** The same elsewhere, it is still so. */
  lemma {:induction false} LeftFailedStays(s: World, x: World, w: World, i: nat, env: Env)
    requires LeftFailed(x, w, i, env) && SameAt(s, x, i)
    ensures LeftFailed(s, w, i, env)
  {
  }

  /** Whatever failed before the cut is taken again, and fails again. */
  lemma {:induction false} FailedTakenAgain(x: World, w: World, todo: seq<nat>, p: nat, env: Env)
    requires Posted(w) && DistinctKeys(x.journal) && |x.journal| == |w.journal| && 0 < p <= |w.journal|
    requires Distinct(todo) && forall i :: i in todo ==> i < p && LeftFailed(x, w, i, env)
    ensures Runnable(x, todo) && Alike(Run(x, todo, Lines(env, true)), x, p - 1)
    decreases |todo|
  {
    if todo == [] {
    } else {
      assert Tail(todo);
      var i := todo[0];
      var s := Step(x, i, Lines(env, true));
      LeftFailedAgain(x, w, i, env);
      AlikeWiden(s, x, i, p - 1);
      LinesLocal(env, true);
      forall j | j in todo[1..]
        ensures LeftFailed(s, w, j, env)
      {
        StepKeepsAt(x, i, j, Lines(env, true));
        LeftFailedStays(s, x, w, j, env);
      }
      RunKeepsLines(x, [i], Lines(env, true));
      assert Run(x, [i], Lines(env, true)) == s;
      hide LeftFailed, Alike, Posted;
      FailedTakenAgain(s, w, todo[1..], p, env);
      AlikeTrans(Run(s, todo[1..], Lines(env, true)), s, x, p - 1, p - 1);
    }
  }

  // --- the cut --------------------------------------------------------------------------------------

  /** Where a cut fell, whether or not the line ends done. */
  ghost predicate CutAt(w: World, env: Env, x: World, p: nat, j: nat, u: World) {
    && p < |w.journal| && u == Run(w, Range(0, p), Lines(env, false)) && |u.journal| == |w.journal|
    && j < |LineEffects(u, p, env, false)| && x == ApplyAll(u, LineEffects(u, p, env, false)[..j])
    && DistinctKeys(u.journal) && (forall i :: p <= i < |w.journal| ==> SameAt(u, w, i))
    && Step(u, p, Lines(env, false)).journal[p].status == Complete(w, env).journal[p].status
    && Framed(x, u, p)
  }

  lemma {:induction false} LocateCut(w: World, env: Env, k: nat) returns (p: nat, j: nat, u: World)
    requires DistinctKeys(w.journal) && k <= |Writes(w, env)|
    ensures p <= |w.journal|
    ensures var x := Interrupted(w, env, k);
      if p == |w.journal| then x == Complete(w, env) else CutAt(w, env, x, p, j, u)
  {
    var n, line := |w.journal|, Lines(env, false);
    p, j := CutInsideALine(w, Range(0, n), line, k);
    u := w;
    if p < n {
      hide RunEffects, Complete;
      RangeSplit(0, p, n);
      u := Run(w, Range(0, p), line);
      CutWorldIs(w, Range(0, n), line, p, j);
      CutAtHolds(w, env, p, j, u);
    }
  }

  lemma {:induction false} CutAtHolds(w: World, env: Env, p: nat, j: nat, u: World)
    requires DistinctKeys(w.journal) && p < |w.journal| && u == Run(w, Range(0, p), Lines(env, false))
    requires j < |LineEffects(u, p, env, false)|
    ensures CutAt(w, env, ApplyAll(u, LineEffects(u, p, env, false)[..j]), p, j, u)
  {
    hide LineEffects, Framed, DistinctKeys, SameAt;
    BeforeLine(w, env, p);
    CutFramed(u, p, j, env);
  }

  /** Before line `p`: it and the later ones are as posted, and it will end as it does in the whole run. */
  lemma {:induction false} BeforeLine(w: World, env: Env, p: nat)
    requires DistinctKeys(w.journal) && p < |w.journal|
    ensures var u := Run(w, Range(0, p), Lines(env, false));
      && DistinctKeys(u.journal) && (forall i :: p <= i < |w.journal| ==> SameAt(u, w, i))
      && Step(u, p, Lines(env, false)).journal[p].status == Complete(w, env).journal[p].status
  {
    var n, line := |w.journal|, Lines(env, false);
    LinesLocal(env, false);
    RunKeepsLines(w, Range(0, p), line);
    RangeSplit(0, p, n);
    RunThroughLine(w, Range(0, n), p, line);
    forall i | p <= i < n
      ensures SameAt(Run(w, Range(0, p), line), w, i)
    {
      RunKeepsAt(w, Range(0, p), i, line);
    }
    hide LineEffects, DistinctKeys, Run, Local;
  }

  lemma {:induction false} EarlierStatus(w: World, env: Env, p: nat, i: nat)
    requires DistinctKeys(w.journal) && i < p <= |w.journal|
    ensures Run(w, Range(0, p), Lines(env, false)).journal[i].status == Complete(w, env).journal[i].status
  {
    var n, line := |w.journal|, Lines(env, false);
    LinesLocal(env, false);
    RangeSplit(0, p, n);
    RunAppend(w, Range(0, p), Range(p, n), line);
    RunKeepsLines(w, Range(0, p), line);
    RunKeepsAt(Run(w, Range(0, p), line), Range(p, n), i, line);
  }

  lemma {:induction false} OutcomeLeaves(u: World, w: World, env: Env, i: nat)
    requires i < |w.journal| == |u.journal| && w.journal[i].what.ObjectRow? && w.journal[i].status == Pending && AgreesAt(w, i, env)
    requires u.journal[i].what == w.journal[i].what && u.journal[i].to == w.journal[i].to
    requires SlotAt(u, i) == Outcome(SlotAt(w, i), w.journal[i].to, AccessTo(env, w.journal[i].what.key), false)
    ensures u.journal[i].status == Done || LeftFailed(u, w, i, env)
  {
  }

  lemma {:induction false} EarlierOutcome(w: World, env: Env, p: nat, i: nat)
    requires DistinctKeys(w.journal) && i < p <= |w.journal| && w.journal[i].what.ObjectRow? && w.journal[i].status == Pending
    requires AgreesAt(w, i, env)
    ensures var u := Run(w, Range(0, p), Lines(env, false));
      u.journal[i].status == Done || LeftFailed(u, w, i, env)
  {
    hide Run, LineEffects, LeftFailed, Outcome, DistinctKeys;
    RunOutcome(w, Range(0, p), i, env, false);
    LinesLocal(env, false);
    RunKeepsLines(w, Range(0, p), Lines(env, false));
    OutcomeLeaves(Run(w, Range(0, p), Lines(env, false)), w, env, i);
  }

  /** A line before the cut that is not done has failed. */
  lemma {:induction false} EarlierFailed(w: World, env: Env, p: nat, u: World, i: nat)
    requires Posted(w) && Agreed(w, env) && FoldersDone(w, env, p) && i < p <= |w.journal| && u == Run(w, Range(0, p), Lines(env, false))
    ensures u.journal[i].status == Complete(w, env).journal[i].status
    ensures u.journal[i].status != Done ==> LeftFailed(u, w, i, env)
  {
    assert AgreesAt(w, i, env);
    EarlierStatus(w, env, p, i);
    if w.journal[i].what.ObjectRow? {
      EarlierOutcome(w, env, p, i);
    }
  }

  lemma {:induction false} TodoSplit(x: World, p: nat, n: nat)
    requires p <= n <= |x.journal| && forall i :: p <= i < n ==> Takes(x, i)
    ensures ResumeTodo(x, n) == ResumeTodo(x, p) + Range(p, n)
    decreases n
  {
    if n == p {
      assert ResumeTodo(x, p) + [] == ResumeTodo(x, p);
    } else {
      TodoSplit(x, p, n - 1);
      RangeSplit(p, n - 1, n);
      assert Range(n - 1, n) == [n - 1];
    }
  }

  /** A folder line that fails only marks its row. */
  lemma {:induction false} FailedFolderEffects(u: World, p: nat, env: Env)
    requires TreeOk(u.tree) && p < |u.journal| && u.journal[p].what.FolderRow? && SingleChange(u.journal[p])
    requires Step(u, p, Lines(env, false)).journal[p].status != Done
    ensures var m := u.journal[p]; ReplayFolder(u.tree, Filed(u), m.what.id, m.from, m.to) == ([], Failed)
  {
    var m := u.journal[p];
    var (trees, status) := ReplayFolder(u.tree, Filed(u), m.what.id, m.from, m.to);
    SingleChangeIsAtomic(u.tree, Filed(u), m.what.id, m.from.value, m.to);
    hide ReplayFolder, TreeOk, SingleChange;
    if trees != [] {
      assert Retrees(trees) + [Mark(p, status)] == [Retree(trees[0]), Mark(p, status)];
      ApplyTwo(u, Retree(trees[0]), Mark(p, status));
    } else {
      assert Retrees(trees) + [Mark(p, status)] == [Mark(p, status)];
      ApplyOne(u, Mark(p, status));
    }
  }

  lemma {:induction false} OnlyMarks(u: World, p: nat, env: Env, strict: bool)
    requires p < |u.journal| && u.journal[p].what.FolderRow?
    requires var m := u.journal[p]; ReplayFolder(u.tree, Filed(u), m.what.id, m.from, m.to) == ([], Failed)
    ensures LineEffects(u, p, env, strict) == [Mark(p, Failed)]
    ensures Step(u, p, Lines(env, strict)) == u.(journal := u.journal[p := u.journal[p].(status := Failed)])
  {
    hide ReplayFolder;
    assert [] + [Mark(p, Failed)] == [Mark(p, Failed)];
    ApplyOne(u, Mark(p, Failed));
  }

  /** It fails again on the stores it leaves. */
  lemma {:induction false} FailedFolder(u: World, p: nat, env: Env)
    requires TreeOk(u.tree) && p < |u.journal| && u.journal[p].what.FolderRow? && SingleChange(u.journal[p])
    requires Step(u, p, Lines(env, false)).journal[p].status != Done
    ensures LineEffects(u, p, env, false) == LineEffects(u, p, env, true) == [Mark(p, Failed)]
    ensures var x := Step(u, p, Lines(env, false));
      && SameStores(x, u) && x.journal == u.journal[p := u.journal[p].(status := Failed)]
      && LineEffects(x, p, env, true) == [Mark(p, Failed)] && Step(x, p, Lines(env, true)) == x
  {
    FailedFolderEffects(u, p, env);
    hide ReplayFolder, TreeOk, SingleChange, LineEffects;
    OnlyMarks(u, p, env, false);
    OnlyMarks(u, p, env, true);
    var x := Step(u, p, Lines(env, false));
    OnlyMarks(x, p, env, true);
    assert x.journal[p := x.journal[p].(status := Failed)] == x.journal;
  }

  lemma {:induction false} AlikeItself(y: World, p: nat)
    requires p < |y.journal|
    ensures Alike(y, y, p)
  {
  }

  /** Taken up again, the cut line ends like the line run once, done or failed. */
  lemma {:induction false} CutLineAgain(w: World, env: Env, x: World, p: nat, j: nat, u: World)
    requires Posted(w) && Agreed(w, env) && CutAt(w, env, x, p, j, u)
    ensures Takes(x, p) && Alike(Step(x, p, Lines(env, true)), Step(u, p, Lines(env, false)), p)
  {
    RunKeepsTree(w, Range(0, p), env, false);
    assert AgreesAt(w, p, env) && SameAt(u, w, p);
    if Step(u, p, Lines(env, false)).journal[p].status == Done {
      hide LineEffects, Framed;
      CutLineRestarts(w, u, env, p, j);
    } else if w.journal[p].what.FolderRow? {
      FailedFolder(u, p, env);
      hide LineEffects, Framed;
      assert LineEffects(u, p, env, false)[..0] == [];
      AlikeItself(Step(u, p, Lines(env, false)), p);
    } else {
      StepOutcome(u, p, env, false);
      assert Fails(u, u, p, env);
      hide LineEffects, Framed;
      CutFails(u, p, j, env);
      FailsAgain(x, u, p, env);
    }
  }

  lemma {:induction false} LaterTaken(w: World, u: World, x: World, env: Env, p: nat, j: nat)
    requires Posted(w) && CutAt(w, env, x, p, j, u)
    ensures |x.journal| == |w.journal| && DistinctKeys(x.journal)
    ensures forall i :: p < i < |w.journal| ==> Takes(x, i)
    ensures forall i :: 0 <= i < p ==> x.journal[i] == u.journal[i]
    ensures forall i :: 0 <= i < p && u.journal[i].what.ObjectRow? ==> SameAt(x, u, i)
  {
    hide LineEffects;
    forall i | p < i < |w.journal|
      ensures Takes(x, i)
    {
      LaterLineTaken(w, u, x, p, i);
    }
    forall a, b | 0 <= a < b < |x.journal| && x.journal[a].what.ObjectRow?
      ensures x.journal[a].what != x.journal[b].what
    {
      assert u.journal[a].what != u.journal[b].what;
    }
    forall i | 0 <= i < p && u.journal[i].what.ObjectRow?
      ensures SameAt(x, u, i)
    {
      assert u.journal[i].what != u.journal[p].what;
    }
  }

  // --- the theorem ----------------------------------------------------------------------------------

  /** The same stores, and every line with the same status. */
  ghost predicate EndsLike(r: World, v: World) {
    SameStores(r, v) && |r.journal| == |v.journal| && forall i :: 0 <= i < |v.journal| ==> r.journal[i].status == v.journal[i].status
  }

  lemma {:induction false} AlikeEndsLike(y: World, v: World, c: nat)
    requires Alike(y, v, c)
    ensures EndsLike(y, v)
  {
  }

  /** What the resume takes again before line `p` is what failed there, and changes nothing. */
  lemma {:induction false} EarlierAgain(w: World, env: Env, p: nat, u: World, x: World)
    requires Posted(w) && Agreed(w, env) && FoldersDone(w, env, p) && 0 < p <= |w.journal| == |x.journal|
    requires u == Run(w, Range(0, p), Lines(env, false)) && DistinctKeys(x.journal)
    requires forall i :: 0 <= i < p ==> x.journal[i] == u.journal[i] && (u.journal[i].what.ObjectRow? ==> SameAt(x, u, i))
    ensures var todo := ResumeTodo(x, p);
      Runnable(x, todo) && Alike(Run(x, todo, Lines(env, true)), x, p - 1)
  {
    var todo := ResumeTodo(x, p);
    ResumeTodoHolds(x, p);
    forall i | i in todo
      ensures i < p && LeftFailed(x, w, i, env)
    {
      EarlierFailed(w, env, p, u, i);
      hide LeftFailed;
      assert Takes(x, i) && u.journal[i].status != Done && LeftFailed(u, w, i, env);
      FailedIsObject(u, w, i, env);
      LeftFailedStays(x, u, w, i, env);
    }
    hide LeftFailed, Posted, Agreed, FoldersDone, Takes, ResumeTodo;
    FailedTakenAgain(x, w, todo, p, env);
  }

  lemma {:induction false} FailedIsObject(u: World, w: World, i: nat, env: Env)
    requires LeftFailed(u, w, i, env)
    ensures |u.journal| == |w.journal| && i < |u.journal| && u.journal[i].what.ObjectRow?
  {
  }

  /** Once line `p` ends like the line of the first run, so do all that follow. */
  lemma {:induction false} RestAlike(w: World, env: Env, p: nat, u: World, v: World)
    requires DistinctKeys(w.journal) && Agreed(w, env) && p < |w.journal| == |v.journal| && |u.journal| == |w.journal|
    requires u == Run(w, Range(0, p), Lines(env, false)) && DistinctKeys(u.journal)
    requires forall i :: p <= i < |w.journal| ==> SameAt(u, w, i)
    requires Alike(Step(v, p, Lines(env, true)), Step(u, p, Lines(env, false)), p)
    ensures Alike(Run(v, Range(p, |w.journal|), Lines(env, true)), Complete(w, env), p)
  {
    var line, ready := Lines(env, false), (w: World, i: nat) => i < |w.journal| && AgreesAt(w, i, env);
    LinesLocal(env, false);
    forall i | p < i < |w.journal|
      ensures ready(u, i)
    {
      assert AgreesAt(w, i, env) && SameAt(u, w, i);
    }
    AgreementIsStable(env);
    StrictMimics(env);
    RunSuffixAlike(w, u, v, p, |w.journal|, Lines(env, true), line, ready);
  }

  /** Resumed from inside line `p`. */
  lemma {:induction false} ResumeFromCut(w: World, env: Env, x: World, p: nat, j: nat, u: World)
    requires Posted(w) && Agreed(w, env) && FoldersDone(w, env, p) && CutAt(w, env, x, p, j, u)
    ensures EndsLike(Resume(x, env), Complete(w, env))
  {
    var n := |w.journal|;
    LaterTaken(w, u, x, env, p, j);
    CutLineAgain(w, env, x, p, j, u);
    TodoSplit(x, p, n);
    var todo, strict := ResumeTodo(x, p), Lines(env, true);
    assert u == Run(w, Range(0, p), Lines(env, false)) && DistinctKeys(w.journal) && forall i :: p <= i < n ==> SameAt(u, w, i);
    assert Framed(x, u, p);
    if p == 0 {
      assert todo + Range(p, n) == Range(p, n);
      hide CutAt, Posted, Agreed, Alike, Takes, LineEffects;
      RestAlike(w, env, p, u, x);
      AlikeEndsLike(Run(x, Range(p, n), strict), Complete(w, env), p);
    } else {
      EarlierAgain(w, env, p, u, x);
      hide CutAt, Posted, Agreed, Alike, Takes, LineEffects;
      AfterEarlier(w, env, p, u, x, todo);
    }
  }

  lemma {:induction false} AfterEarlier(w: World, env: Env, p: nat, u: World, x: World, todo: seq<nat>)
    requires DistinctKeys(w.journal) && Agreed(w, env) && 0 < p < |w.journal| == |x.journal| && |u.journal| == |w.journal|
    requires u == Run(w, Range(0, p), Lines(env, false)) && DistinctKeys(u.journal)
    requires forall i :: p <= i < |w.journal| ==> SameAt(u, w, i)
    requires Runnable(x, todo) && Alike(Run(x, todo, Lines(env, true)), x, p - 1)
    requires Alike(Step(x, p, Lines(env, true)), Step(u, p, Lines(env, false)), p)
    ensures Runnable(x, todo + Range(p, |w.journal|))
    ensures EndsLike(Run(x, todo + Range(p, |w.journal|), Lines(env, true)), Complete(w, env))
  {
    var n, strict := |w.journal|, Lines(env, true);
    var v := Run(x, todo, strict);
    hide Agreed, Alike, LineEffects, SameAt;
    SameEffects(v, x, p - 1, p, env);
    AlikeTrans(Step(v, p, strict), Step(x, p, strict), Step(u, p, Lines(env, false)), p - 1, p);
    RunAppend(x, todo, Range(p, n), strict);
    RestAlike(w, env, p, u, v);
    AlikeEndsLike(Run(v, Range(p, n), strict), Complete(w, env), p);
  }

  lemma {:induction false} LastStep(w: World, env: Env, last: nat)
    requires last + 1 == |w.journal|
    ensures var u := Run(w, Range(0, last), Lines(env, false));
      |u.journal| == |w.journal| && Complete(w, env) == Step(u, last, Lines(env, false))
  {
    LinesLocal(env, false);
    RunKeepsLines(w, Range(0, last), Lines(env, false));
    RunOneMore(w, Lines(env, false), last);
  }

  lemma {:induction false} FailedFolderRest(x: World, u: World, last: nat)
    requires last < |u.journal| && u.journal[last].what.FolderRow? && DistinctKeys(u.journal)
    requires SameStores(x, u) && x.journal == u.journal[last := u.journal[last].(status := Failed)]
    ensures DistinctKeys(x.journal) && Takes(x, last)
    ensures forall i :: 0 <= i < last ==> x.journal[i] == u.journal[i] && (u.journal[i].what.ObjectRow? ==> SameAt(x, u, i))
  {
  }

  /** An action whose last line is a folder's and failed: what is left to be resumed. */
  lemma {:induction false} LastFailed(w: World, env: Env, last: nat, x: World) returns (u: World)
    requires Posted(w) && last + 1 == |w.journal| && w.journal[last].what.FolderRow? && x == Complete(w, env)
    requires |x.journal| == |w.journal| ==> x.journal[last].status != Done
    ensures u == Run(w, Range(0, last), Lines(env, false)) && |x.journal| == |u.journal| == |w.journal|
    ensures Step(x, last, Lines(env, true)) == x && DistinctKeys(x.journal)
    ensures forall i :: 0 <= i < last ==> x.journal[i] == u.journal[i] && (u.journal[i].what.ObjectRow? ==> SameAt(x, u, i))
    ensures ResumeTodo(x, last + 1) == ResumeTodo(x, last) + [last]
  {
    u := Run(w, Range(0, last), Lines(env, false));
    LastStep(w, env, last);
    RunKeepsTree(w, Range(0, last), env, false);
    BeforeLine(w, env, last);
    assert SingleChange(w.journal[last]) && SameAt(u, w, last);
    hide LineEffects, SingleChange, Posted, DistinctKeys, SameAt, Framed, Run;
    SameLine(u, w, last);
    FailedFolder(u, last, env);
    FailedFolderRest(x, u, last);
  }

  lemma {:induction false} SameLine(u: World, w: World, i: nat)
    requires SameAt(u, w, i)
    ensures |u.journal| == |w.journal| && i < |w.journal| && u.journal[i] == w.journal[i]
  {
  }

  /** Resumed once it is over, such an action stays as it is. */
  lemma {:induction false} ResumeLastFailed(w: World, env: Env, last: nat, x: World)
    requires Posted(w) && Agreed(w, env) && last + 1 == |w.journal| && FoldersDone(w, env, last) && x == Complete(w, env)
    requires w.journal[last].what.FolderRow? && (|x.journal| == |w.journal| ==> x.journal[last].status != Done)
    ensures EndsLike(Resume(x, env), x)
  {
    var strict := Lines(env, true);
    var u := LastFailed(w, env, last, x);
    var todo := ResumeTodo(x, last);
    assert [last][1..] == [] && ResumeTodo(x, 0) == [];
    hide Posted, Agreed, Takes, LineEffects, FoldersDone, Complete, Alike, ResumeTodo;
    if last == 0 {
      assert [] + [0] == [0];
      assert Run(x, [0], strict) == Step(x, 0, strict);
      AlikeItself(x, 0);
      AlikeEndsLike(x, x, 0);
    } else {
      EarlierAgain(w, env, last, u, x);
      var v := Run(x, todo, strict);
      SameEffects(v, x, last - 1, last, env);
      RunThenStep(x, todo, last, strict);
      AlikeEndsLike(Step(v, last, strict), x, last - 1);
    }
  }

  /**
   * Crash recovery with lines that fail: whatever lines of objects end failed
   * in the uninterrupted run (refused, unreadable, answers lost after or before
   * the write), and the last line with them (the deletion of a folder that an
   * object stays in), cutting the action anywhere and resuming gives the same
   * objects, cache and tree, and the same status to every line, as long as
   * every writable object carries what its line starts from.
   */
  lemma {:induction false} FailuresRecover(w: World, env: Env, k: nat)
    requires Posted(w) && Agreed(w, env) && FoldersDone(w, env, |w.journal| - 1) && k <= |Writes(w, env)|
    ensures EndsLike(Resume(Interrupted(w, env, k), env), Complete(w, env))
  {
    var n := |w.journal|;
    var x := Interrupted(w, env, k);
    var p, j, u := LocateCut(w, env, k);
    if p < n {
      ResumeFromCut(w, env, x, p, j, u);
    } else if n == 0 {
      assert ResumeTodo(x, 0) == [];
    } else if w.journal[n - 1].what.FolderRow? && Complete(w, env).journal[n - 1].status != Done {
      ResumeLastFailed(w, env, n - 1, x);
    } else {
      LinesLocal(env, false);
      RunKeepsLines(w, Range(0, n), Lines(env, false));
      hide Posted, Agreed, FoldersDone, Takes;
      forall i | 0 <= i < n && x.journal[i].what.ObjectRow?
        ensures SameAt(x, x, i)
      {
      }
      EarlierAgain(w, env, n, x, x);
      AlikeEndsLike(Resume(x, env), x, n - 1);
    }
  }
}
