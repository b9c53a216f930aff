/** When an empty-into always reaches its end, so that the round trip holds outright. */
module FolderCompletes {
  import opened Wrappers
  import opened FolderPaths
  import opened FolderTree
  import opened FolderHub
  import opened FolderRuns
  import opened FolderLines
  import opened FolderReplay
  import opened FolderSlots
  import opened FolderRecovery
  import opened FolderActions
  import opened FolderUndo
  import opened FolderUndoInverse
  import opened FolderRoundTrip

  /** Every filing is in a folder that exists. */
  ghost predicate Housed(w: World) {
    forall k :: k in w.cache ==> IdOf(w.tree, w.cache[k].path).Some?
  }

  /** The object is in the request, readable, and writing it is not refused. */
  predicate CanWrite(env: Env, k: Key) {
    k in env && env[k].write && env[k].readable && env[k].writing in {Accepted, Transient}
  }

  /** So is every object filed in the folder or below. */
  ghost predicate Writable(w: World, env: Env, p: Path) {
    forall k :: k in w.cache && p <= w.cache[k].path ==> CanWrite(env, k)
  }

  // --- every object inside has a line -----------------------------------------------------------

  ghost predicate HasLine(ls: seq<Line>, key: Key) {
    exists i :: 0 <= i < |ls| && ls[i].what == ObjectRow(key)
  }

  lemma {:induction false} HasLineIn(a: seq<Line>, b: seq<Line>, key: Key)
    requires HasLine(a, key) || HasLine(b, key)
    ensures HasLine(a + b, key)
  {
    if HasLine(a, key) {
      var i :| 0 <= i < |a| && a[i].what == ObjectRow(key);
      assert (a + b)[i] == a[i];
    } else {
      var i :| 0 <= i < |b| && b[i].what == ObjectRow(key);
      assert (a + b)[i + |a|] == b[i];
    }
  }

  lemma {:induction false} RewriteHas(w: World, keys: seq<Key>, old_: Path, new_: Path, key: Key)
    requires key in keys && key in w.cache && old_ <= w.cache[key].path
    ensures HasLine(RewriteLines(w, keys, old_, new_), key)
  {
    var first := if CachedPath(w, keys[0]).Some? && old_ <= CachedPath(w, keys[0]).value
      then [Pend(ObjectRow(keys[0]), CachedPath(w, keys[0]), Some(new_ + CachedPath(w, keys[0]).value[|old_|..]))] else [];
    if keys[0] == key {
      assert first[0].what == ObjectRow(key);
    } else {
      RewriteHas(w, keys[1..], old_, new_, key);
    }
    HasLineIn(first, RewriteLines(w, keys[1..], old_, new_), key);
  }

  lemma {:induction false} DirectHas(w: World, keys: seq<Key>, p: Path, to: Option<Path>, key: Key)
    requires key in keys && key in w.cache && w.cache[key].path == p
    ensures HasLine(DirectLines(w, keys, p, to), key)
  {
    var first := if CachedPath(w, keys[0]) == Some(p) then [Pend(ObjectRow(keys[0]), Some(p), to)] else [];
    if keys[0] == key {
      assert first[0].what == ObjectRow(key);
    } else {
      DirectHas(w, keys[1..], p, to, key);
    }
    HasLineIn(first, DirectLines(w, keys[1..], p, to), key);
  }

  lemma {:induction false} KidObjectHas(w: World, keys: seq<Key>, kids: seq<Id>, target: Option<Id>, key: Key, kid: Id)
    requires kid in kids && key in keys && key in w.cache && At(Paths(w.tree), kid) <= w.cache[key].path
    ensures HasLine(KidObjectLines(w, keys, kids, target), key)
  {
    var first := RewriteLines(w, keys, At(Paths(w.tree), kids[0]), NewPlace(w.tree, kids[0], target));
    if kids[0] == kid {
      RewriteHas(w, keys, At(Paths(w.tree), kid), NewPlace(w.tree, kid, target), key);
    } else {
      KidObjectHas(w, keys, kids[1..], target, key, kid);
    }
    HasLineIn(first, KidObjectLines(w, keys, kids[1..], target), key);
  }

  /** Whatever is filed in the folder or below has its line. */
  lemma {:induction false} InsideHasLine(w: World, keys: seq<Key>, fid: Id, kids: seq<Id>, target: Option<Id>, key: Key)
    requires Request(w, keys, fid, kids, target) && Housed(w) && TreeOk(w.tree) && fid in w.tree
    requires key in keys && key in w.cache && Paths(w.tree)[fid] <= w.cache[key].path
    ensures HasLine(EmptyObjects(w, keys, fid, kids, target), key)
  {
    hide CanEmpty;
    var v, p := Paths(w.tree), w.cache[key].path;
    var to := if target.None? then None else Some(At(v, target.value));
    if p == v[fid] {
      DirectHas(w, keys, v[fid], to, key);
    } else {
      var x := IdOf(w.tree, p).value;
      PathOfOk(w.tree, x);
      BelowIsCarried(w.tree, fid, x);
      var k := CarriedBelow(w.tree, fid, Kids(w.tree, fid), x);
      KidObjectHas(w, keys, kids, target, key, k);
    }
    HasLineIn(KidObjectLines(w, keys, kids, target), DirectLines(w, keys, At(v, fid), to), key);
  }

  // --- no line ends inside the folder ------------------------------------------------------------

  /** A path at or below the new place of a child is not in the folder. */
  lemma {:induction false} NewPlaceOutside(t: Tree, fid: Id, target: Option<Id>, k: Id, y: Path)
    requires CanEmpty(t, fid, target) && k in Kids(t, fid) && NewPlace(t, k, target) <= y
    ensures !(Paths(t)[fid] <= y)
  {
    var v := Paths(t);
    var above := ParentPath(v, target);
    assert y[..|above| + 1] == above + [t[k].name];
    PlaceIsFree(t, fid, target, k, fid);
    assert Row(t, v, fid);
    var p := v[fid];
    assert !(p <= above);
    if p <= y {
      PrefixSplit(p, above, y);
    }
  }

  ghost predicate InAndOut(t: Tree, fid: Id, m: Line)
    requires fid in Paths(t)
  {
    m.from.Some? && Paths(t)[fid] <= m.from.value && (m.to.Some? ==> !(Paths(t)[fid] <= m.to.value))
  }

  lemma {:induction false} RewriteLeaves(w: World, keys: seq<Key>, fid: Id, target: Option<Id>, k: Id, m: Line)
    requires CanEmpty(w.tree, fid, target) && k in Kids(w.tree, fid) && fid in Paths(w.tree) && k in Paths(w.tree)
    requires Paths(w.tree)[fid] <= Paths(w.tree)[k]
    requires m in RewriteLines(w, keys, Paths(w.tree)[k], NewPlace(w.tree, k, target))
    ensures InAndOut(w.tree, fid, m)
  {
    var old_, new_ := Paths(w.tree)[k], NewPlace(w.tree, k, target);
    var p := CachedPath(w, keys[0]);
    if m in RewriteLines(w, keys[1..], old_, new_) {
      RewriteLeaves(w, keys[1..], fid, target, k, m);
    } else {
      NewPlaceOutside(w.tree, fid, target, k, new_ + p.value[|old_|..]);
    }
  }

  lemma {:induction false} KidObjectsLeave(w: World, keys: seq<Key>, fid: Id, kids: seq<Id>, target: Option<Id>, m: Line)
    requires CanEmpty(w.tree, fid, target) && KidsOf(w.tree, fid, kids) && fid in Paths(w.tree)
    requires m in KidObjectLines(w, keys, kids, target)
    ensures InAndOut(w.tree, fid, m)
    decreases |kids|
  {
    assert kids[0] in kids && forall k :: k in kids[1..] ==> k in kids;
    var k := kids[0];
    if m in KidObjectLines(w, keys, kids[1..], target) {
      KidObjectsLeave(w, keys, fid, kids[1..], target, m);
    } else {
      KidPath(w.tree, fid, k);
      RewriteLeaves(w, keys, fid, target, k, m);
    }
  }

  lemma {:induction false} DirectLeaves(w: World, keys: seq<Key>, p: Path, to: Option<Path>, m: Line)
    requires m in DirectLines(w, keys, p, to)
    ensures m.from == Some(p) && m.to == to
  {
    if m in DirectLines(w, keys[1..], p, to) {
      DirectLeaves(w, keys[1..], p, to, m);
    }
  }

  lemma {:induction false} ObjectsLeave(w: World, keys: seq<Key>, fid: Id, kids: seq<Id>, target: Option<Id>, m: Line)
    requires CanEmpty(w.tree, fid, target) && KidsOf(w.tree, fid, kids) && fid in Paths(w.tree)
    requires m in EmptyObjects(w, keys, fid, kids, target)
    ensures InAndOut(w.tree, fid, m)
  {
    if m in KidObjectLines(w, keys, kids, target) {
      KidObjectsLeave(w, keys, fid, kids, target, m);
    } else {
      var to := if target.None? then None else Some(At(Paths(w.tree), target.value));
      DirectLeaves(w, keys, At(Paths(w.tree), fid), to, m);
    }
  }

  // --- the run ---------------------------------------------------------------------------------------

  /** Object lines whose objects are filed in the folder, and whose targets are outside. */
  ghost predicate ObjectsMoveOut(w: World, fid: Id, lo: nat, hi: nat)
    requires fid in Paths(w.tree) && lo <= hi <= |w.journal|
  {
    forall i :: lo <= i < hi ==> w.journal[i].what.ObjectRow? && InAndOut(w.tree, fid, w.journal[i])
  }

  lemma {:induction false} ObjectLineDone(w: World, env: Env, fid: Id, i: nat, n: nat)
    requires Posted(w) && fid in Paths(w.tree) && Writable(w, env, Paths(w.tree)[fid])
    requires i < n <= |w.journal| && w.journal[i].what.ObjectRow? && InAndOut(w.tree, fid, w.journal[i])
    ensures var m, u := w.journal[i], Run(w, Range(0, n), Lines(env, false));
      u.journal[i].status == Done && CachedPath(u, m.what.key) == m.to
  {
    var m := w.journal[i];
    RunOutcome(w, Range(0, n), i, env, false);
    assert CachedPath(w, m.what.key) == m.from;
    DoneSlot(SlotAt(w, i), m.to, AccessTo(env, m.what.key), false);
  }

  /** Before the deletion, nothing is filed in the folder any more. */
  lemma {:induction false} NothingFiledInside(w: World, env: Env, fid: Id, lo: nat, n: nat)
    requires Posted(w) && fid in Paths(w.tree) && Writable(w, env, Paths(w.tree)[fid]) && lo <= n <= |w.journal|
    requires ObjectsMoveOut(w, fid, lo, n) && forall i :: 0 <= i < lo ==> w.journal[i].what.FolderRow?
    requires forall k :: k in w.cache && Paths(w.tree)[fid] <= w.cache[k].path ==> HasLine(w.journal[..n], k)
    ensures forall q :: q in Filed(Run(w, Range(0, n), Lines(env, false))) ==> !(Paths(w.tree)[fid] <= q)
  {
    var u, p := Run(w, Range(0, n), Lines(env, false)), Paths(w.tree)[fid];
    LinesLocal(env, false);
    forall k | k in u.cache
      ensures !(p <= u.cache[k].path)
    {
      if HasLine(w.journal[..n], k) {
        var i :| 0 <= i < n && w.journal[..n][i].what == ObjectRow(k);
        ObjectLineDone(w, env, fid, i, n);
      } else {
        forall i | 0 <= i < n
          ensures w.journal[i].what != ObjectRow(k)
        {
          assert w.journal[..n][i] == w.journal[i];
        }
        RunKeepsKey(w, Range(0, n), k, Lines(env, false));
      }
    }
  }

  /** The deletion of a folder with nothing in it or below. */
  lemma {:induction false} DeletionDone(t: Tree, filed: set<Path>, fid: Id, p: Path)
    requires TreeOk(t) && fid in t && Paths(t)[fid] == p
    requires (forall x :: x in t && x != fid ==> !(p <= Paths(t)[x])) && forall q :: q in filed ==> !(p <= q)
    ensures ReplayFolder(t, filed, fid, Some(p), None) == ([t - {fid}], Done)
  {
    PathOfOk(t, fid);
    assert DeleteEmpty(t, filed, fid) == Ok(t - {fid});
  }

  lemma {:induction false} EmptiedHub(t: Tree, fid: Id, target: Option<Id>)
    requires CanEmpty(t, fid, target)
    ensures var h := Hub(t, fid, fid, Kids(t, fid), target);
      && TreeOk(h) && fid in h && Paths(h)[fid] == Paths(t)[fid]
      && forall x :: x in h && x != fid ==> !(Paths(t)[fid] <= Paths(h)[x])
  {
    var h := Hub(t, fid, fid, Kids(t, fid), target);
    HubOk(t, fid, fid, Kids(t, fid), target);
    forall x | x in h && x != fid
      ensures !(Paths(t)[fid] <= Paths(h)[x])
    {
      NothingLeftBelow(t, fid, target, x);
    }
  }

  lemma {:induction false} KidLineDone(w: World, env: Env, fid: Id, kids: seq<Id>, target: Option<Id>, i: nat)
    requires CanEmpty(w.tree, fid, target) && KidsOf(w.tree, fid, kids) && fid in w.tree
    requires EmptyShape(w.tree, fid, kids, target, w.journal) && i < |kids|
    ensures Complete(w, env).journal[i].status == Done
  {
    hide CanEmpty, Hub;
    var n, line := |w.journal|, Lines(env, false);
    LinesLocal(env, false);
    RunThroughLine(w, Range(0, n), i, line);
    RangeSplit(0, i, n);
    KidsLeave(w, env, fid, kids, target, i);
    KidLeaves(Run(w, Range(0, i), line), w.tree, env, fid, kids, target, i);
  }

  lemma {:induction false} DeletionStep(u: World, n: nat, env: Env, t: Tree, fid: Id, target: Option<Id>)
    requires CanEmpty(t, fid, target) && fid in t && fid in Paths(t)
    requires n < |u.journal| && u.journal[n] == DeleteLine(t, fid) && u.tree == Hub(t, fid, fid, Kids(t, fid), target)
    requires forall q :: q in Filed(u) ==> !(Paths(t)[fid] <= q)
    ensures Step(u, n, Lines(env, false)).journal[n].status == Done
  {
    hide CanEmpty, Hub, TreeOk;
    EmptiedHub(t, fid, target);
    DeletionDone(u.tree, Filed(u), fid, Paths(t)[fid]);
    FolderStep(u, n, env, false, [u.tree - {fid}], Done);
  }

  lemma {:induction false} LastLineDone(w: World, env: Env, fid: Id, kids: seq<Id>, target: Option<Id>)
    requires Posted(w) && CanEmpty(w.tree, fid, target) && KidsOf(w.tree, fid, kids) && fid in w.tree && fid in Paths(w.tree)
    requires forall k :: k in Kids(w.tree, fid) ==> k in kids
    requires EmptyShape(w.tree, fid, kids, target, w.journal) && Writable(w, env, Paths(w.tree)[fid])
    requires ObjectsMoveOut(w, fid, |kids|, |w.journal| - 1)
    requires forall k :: k in w.cache && Paths(w.tree)[fid] <= w.cache[k].path ==> HasLine(w.journal[..|w.journal| - 1], k)
    ensures Complete(w, env).journal[|w.journal| - 1].status == Done
  {
    hide CanEmpty, Hub, Posted, TreeOk, HasLine, Writable, ObjectsMoveOut;
    var n, line := |w.journal| - 1, Lines(env, false);
    LinesLocal(env, false);
    BeforeDeletion(w, env, fid, kids, target);
    NothingFiledInside(w, env, fid, |kids|, n);
    RunKeepsAt(w, Range(0, n), n, line);
    RunOneMore(w, line, n);
    hide Run, KidsOf;
    DeletionStep(Run(w, Range(0, n), line), n, env, w.tree, fid, target);
  }

  /** Before the deletion every child is away. */
  lemma {:induction false} BeforeDeletion(w: World, env: Env, fid: Id, kids: seq<Id>, target: Option<Id>)
    requires CanEmpty(w.tree, fid, target) && KidsOf(w.tree, fid, kids) && fid in w.tree
    requires forall k :: k in Kids(w.tree, fid) ==> k in kids
    requires EmptyShape(w.tree, fid, kids, target, w.journal)
    ensures Run(w, Range(0, |w.journal| - 1), Lines(env, false)).tree == Hub(w.tree, fid, fid, Kids(w.tree, fid), target)
  {
    hide CanEmpty, Hub;
    var n, line := |w.journal| - 1, Lines(env, false);
    LinesLocal(env, false);
    KidsLeave(w, env, fid, kids, target, |kids|);
    KidSetAll(w.tree, fid, kids);
    RangeSplit(0, |kids|, n);
    RunAppend(w, Range(0, |kids|), Range(|kids|, n), line);
    RunKeepsLines(w, Range(0, |kids|), line);
    ObjectsKeepTree(Run(w, Range(0, |kids|), line), Range(|kids|, n), line);
  }

  /**
   * An accepted empty-into reaches its end with every line done, the folder
   * deleted, whenever all that is filed in it or below can be written.
   */
  lemma {:induction false} EmptyIntoCompletes(w: World, env: Env, keys: seq<Key>, fid: Id, kids: seq<Id>, target: Option<Id>)
    requires Request(w, keys, fid, kids, target) && Housed(w) && forall k :: k in w.cache ==> k in keys
    requires fid in Paths(w.tree) && Writable(w, env, Paths(w.tree)[fid])
    ensures AllDone(Emptied(w, env, keys, fid, kids, target))
  {
    hide CanEmpty, Hub, EmptyLines, Posted, HasLine, InAndOut, KidsOf, Housed;
    var w0 := Post(w, EmptyLines(w, keys, fid, kids, target));
    var n := |w0.journal| - 1;
    RequestHolds(w, keys, fid, kids, target);
    EmptyInsides(w, keys, fid, kids, target);
    LastLineDone(w0, env, fid, kids, target);
    forall i | 0 <= i <= n
      ensures Complete(w0, env).journal[i].status == Done
    {
      if i < |kids| {
        KidLineDone(w0, env, fid, kids, target, i);
      } else if i < n {
        ObjectLineDone(w0, env, fid, i, n + 1);
      }
    }
  }

  /** The lines posted are the children's, the objects', then the deletion. */
  lemma {:induction false} MiddleLines(w: World, keys: seq<Key>, fid: Id, kids: seq<Id>, target: Option<Id>)
    ensures var ls, b := EmptyLines(w, keys, fid, kids, target), EmptyObjects(w, keys, fid, kids, target);
      && |ls| == |kids| + |b| + 1 && ls[..|ls| - 1] == KidLines(w.tree, kids, target) + b
      && forall i :: |kids| <= i < |ls| - 1 ==> ls[i] == b[i - |kids|] && ls[i] in b
  {
    EmptyLinesParts(w, keys, fid, kids, target);
    var a, b := KidLines(w.tree, kids, target), EmptyObjects(w, keys, fid, kids, target);
    var ls := EmptyLines(w, keys, fid, kids, target);
    assert ls[..|ls| - 1] == a + b;
  }

  lemma {:induction false} EmptyInsides(w: World, keys: seq<Key>, fid: Id, kids: seq<Id>, target: Option<Id>)
    requires Request(w, keys, fid, kids, target) && Housed(w) && forall k :: k in w.cache ==> k in keys
    requires fid in Paths(w.tree)
    ensures var w0 := Post(w, EmptyLines(w, keys, fid, kids, target));
      && |kids| < |w0.journal| && ObjectsMoveOut(w0, fid, |kids|, |w0.journal| - 1)
      && forall k :: k in w.cache && Paths(w.tree)[fid] <= w.cache[k].path ==> HasLine(w0.journal[..|w0.journal| - 1], k)
  {
    hide CanEmpty, EmptyLines, EmptyObjects, Posted, Hub, KidLines, KidsOf, EmptyShape, Housed;
    var ls := EmptyLines(w, keys, fid, kids, target);
    RequestHolds(w, keys, fid, kids, target);
    MiddleLines(w, keys, fid, kids, target);
    forall i | |kids| <= i < |ls| - 1
      ensures ls[i].what.ObjectRow? && InAndOut(w.tree, fid, ls[i])
    {
      ObjectsLeave(w, keys, fid, kids, target, ls[i]);
    }
    forall k | k in w.cache && Paths(w.tree)[fid] <= w.cache[k].path
      ensures HasLine(ls[..|ls| - 1], k)
    {
      InsideHasLine(w, keys, fid, kids, target, k);
      HasLineIn(KidLines(w.tree, kids, target), EmptyObjects(w, keys, fid, kids, target), k);
    }
  }

  /** So emptying a writable folder and undoing it leaves every value as it was, and every path but for the folder's id. */
  lemma {:induction false} WritableRoundTrip(w: World, env: Env, keys: seq<Key>, fid: Id, kids: seq<Id>, target: Option<Id>, order: seq<Key>)
    requires Request(w, keys, fid, kids, target) && Housed(w) && forall k :: k in w.cache ==> k in keys
    requires fid in Paths(w.tree) && Writable(w, env, Paths(w.tree)[fid])
    requires OrderOf(Emptied(w, env, keys, fid, kids, target).journal, order)
    ensures var w1 := Emptied(w, env, keys, fid, kids, target);
      var r := Undo(w1, w1.journal, order, env);
      && fid !in w1.tree && AllDone(r) && (forall key :: Value(r, key) == Value(w, key))
      && Paths(r.tree) == (Paths(w.tree) - {fid})[w.nextId := Paths(w.tree)[fid]]
  {
    hide CanEmpty, Hub, EmptyLines, Posted, Undo;
    EmptyIntoCompletes(w, env, keys, fid, kids, target);
    UndoRestoresAll(w, env, keys, fid, kids, target, order);
    RequestHolds(w, keys, fid, kids, target);
    EmptiedJournal(Post(w, EmptyLines(w, keys, fid, kids, target)), env, fid, kids, target);
  }
}
