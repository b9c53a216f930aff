/**
 * Objects follow their folder: after a renaming, a move or an empty-into each
 * object is filed in the folder it was filed in, at its new path; those of an
 * emptied folder are filed in the target, or nowhere.
 */
module FolderFollows {
  import opened Wrappers
  import opened FolderPaths
  import opened FolderTree
  import opened FolderHub
  import opened FolderRuns
  import opened FolderLines
  import opened FolderReplay
  import opened FolderSlots
  import opened FolderRecovery
  import opened FolderActions
  import opened FolderUndoInverse
  import opened FolderRoundTrip
  import opened FolderChangeBack
  import opened FolderCompletes

  // --- where the lines lead ----------------------------------------------------------------

  /** Every line is about an object filed at or below `old_`, and keeps its place below. */
  lemma {:induction false} RewriteLine(w: World, keys: seq<Key>, old_: Path, new_: Path, m: Line)
    requires m in RewriteLines(w, keys, old_, new_)
    ensures m.what.ObjectRow? && m.what.key in keys && m.what.key in w.cache && old_ <= w.cache[m.what.key].path
    ensures m == Pend(m.what, Some(w.cache[m.what.key].path), Some(new_ + w.cache[m.what.key].path[|old_|..]))
  {
    if m in RewriteLines(w, keys[1..], old_, new_) {
      RewriteLine(w, keys[1..], old_, new_, m);
    }
  }

  /** A line for each object filed at or below `old_`, and for no other. */
  lemma {:induction false} RewriteHasIff(w: World, keys: seq<Key>, old_: Path, new_: Path, key: Key)
    ensures HasLine(RewriteLines(w, keys, old_, new_), key) <==> key in keys && key in w.cache && old_ <= w.cache[key].path
  {
    var ls := RewriteLines(w, keys, old_, new_);
    if HasLine(ls, key) {
      var i :| 0 <= i < |ls| && ls[i].what == ObjectRow(key);
      RewriteLine(w, keys, old_, new_, ls[i]);
    }
    if key in keys && key in w.cache && old_ <= w.cache[key].path {
      RewriteHas(w, keys, old_, new_, key);
    }
  }

  /**
   * The lines of a folder that is now elsewhere: each object filed in a folder
   * of its subtree has one, that ends where that folder is now; no other
   * object has one.
   */
  lemma {:induction false} ChangeLinesFollow(w: World, t1: Tree, keys: seq<Key>, id: Id, old_: Path, new_: Path)
    requires Paths(t1) == Moved(Paths(w.tree), old_, new_)
    ensures var ls := FolderChangeLines(w, keys, id, old_, new_);
      && (forall k :: HasLine(ls, k) <==> k in keys && k in w.cache && old_ <= w.cache[k].path)
      && forall m, x :: m in ls && m.what.ObjectRow? && x in Paths(w.tree) && m.from == Some(Paths(w.tree)[x]) ==>
           m.to == Some(Paths(t1)[x])
  {
    var first, objects := [Pend(FolderRow(id), Some(old_), Some(new_))], RewriteLines(w, keys, old_, new_);
    hide Paths, RewriteLines;
    forall k
      ensures HasLine(first + objects, k) <==> k in keys && k in w.cache && old_ <= w.cache[k].path
    {
      RewriteHasIff(w, keys, old_, new_, k);
      if HasLine(objects, k) {
        HasLineIn(first, objects, k);
      }
      if HasLine(first + objects, k) {
        var i :| 0 <= i < |first + objects| && (first + objects)[i].what == ObjectRow(k);
        assert (first + objects)[i] == objects[i - 1];
      }
    }
    forall m, x | m in first + objects && m.what.ObjectRow? && x in Paths(w.tree) && m.from == Some(Paths(w.tree)[x])
      ensures m.to == Some(Paths(t1)[x])
    {
      assert m in objects;
      RewriteLine(w, keys, old_, new_, m);
    }
  }

  // --- the run -------------------------------------------------------------------------------

  /** A line whose object can be written ends with the object at its target, filed there. */
  lemma {:induction false} WrittenLine(w: World, env: Env, m: Line)
    requires Posted(w) && m in w.journal && m.what.ObjectRow? && CanWrite(env, m.what.key)
    ensures Value(Complete(w, env), m.what.key) == m.to && CachedPath(Complete(w, env), m.what.key) == m.to
  {
    var i :| 0 <= i < |w.journal| && w.journal[i] == m;
    RunOutcome(w, Range(0, |w.journal|), i, env, false);
    DoneSlot(SlotAt(w, i), m.to, AccessTo(env, m.what.key), false);
  }

  lemma {:induction false} UntouchedKey(w: World, env: Env, k: Key)
    requires !HasLine(w.journal, k)
    ensures Value(Complete(w, env), k) == Value(w, k) && Cached(Complete(w, env), k) == Cached(w, k)
  {
    LinesLocal(env, false);
    RunKeepsKey(w, Range(0, |w.journal|), k, Lines(env, false));
  }

  /** A folder now at `new_`, its lines posted: what was filed in a folder is filed in that folder. */
  lemma {:induction false} ObjectFollows(w: World, t1: Tree, env: Env, keys: seq<Key>, id: Id, old_: Path, new_: Path, k: Key, x: Id)
    requires KeyOrder(keys) && Posted(AfterChange(w, t1, keys, id, old_, new_)) && Paths(t1) == Moved(Paths(w.tree), old_, new_)
    requires k in keys && k in w.cache && x in Paths(w.tree) && w.cache[k].path == Paths(w.tree)[x]
    requires old_ <= Paths(w.tree)[x] ==> CanWrite(env, k)
    ensures var r := Complete(AfterChange(w, t1, keys, id, old_, new_), env);
      && CachedPath(r, k) == Some(Paths(t1)[x])
      && (if old_ <= Paths(w.tree)[x] then Value(r, k) == Some(Paths(t1)[x]) else Value(r, k) == Value(w, k))
  {
    var w0, ls := AfterChange(w, t1, keys, id, old_, new_), FolderChangeLines(w, keys, id, old_, new_);
    ChangeLinesFollow(w, t1, keys, id, old_, new_);
    hide Paths, FolderChangeLines, Complete, CanWrite;
    if HasLine(ls, k) {
      var i :| 0 <= i < |ls| && ls[i].what == ObjectRow(k);
      LineStart(w0, i);
      WrittenLine(w0, env, ls[i]);
    } else {
      UntouchedKey(w0, env, k);
    }
  }

  lemma {:induction false} LineStart(w: World, i: nat)
    requires Posted(w) && i < |w.journal| && w.journal[i].what.ObjectRow?
    ensures w.journal[i].from == CachedPath(w, w.journal[i].what.key)
  {
  }

  /** Every object was filed in the folder where it is filed now, both before and after. */
  ghost predicate Follows(r: World, w: World) {
    forall k, x :: k in w.cache && x in Paths(w.tree) && w.cache[k].path == Paths(w.tree)[x] ==>
      x in Paths(r.tree) && CachedPath(r, k) == Some(Paths(r.tree)[x])
  }

  /** Nothing is filed that was not, and what was filed in a folder follows it: then all is in folders still. */
  lemma {:induction false} HousedStays(r: World, w: World)
    requires TreeOk(w.tree) && TreeOk(r.tree) && Housed(w) && Follows(r, w) && r.cache.Keys <= w.cache.Keys
    ensures Housed(r)
  {
    forall k | k in r.cache
      ensures IdOf(r.tree, r.cache[k].path).Some?
    {
      var x := HousedIn(w, k);
      FoundThere(r.tree, x);
    }
  }

  lemma {:induction false} ChangeFollows(w: World, t1: Tree, env: Env, keys: seq<Key>, id: Id, old_: Path, new_: Path)
    requires KeyOrder(keys) && (forall k :: k in w.cache ==> k in keys) && TreeOk(w.tree) && TreeOk(t1)
    requires Paths(t1) == Moved(Paths(w.tree), old_, new_) && PathOf(t1, id) == Some(new_) && new_ != []
    requires Parent(old_) == Parent(new_) || Last(old_) == Last(new_)
    requires Writable(w, env, old_)
    ensures var r := Complete(AfterChange(w, t1, keys, id, old_, new_), env);
      r.tree == t1 && Follows(r, w) && (Housed(w) ==> Housed(r))
  {
    hide Paths, TreeOk, Complete, FolderChangeLines, CanWrite, Housed, PathOf;
    var w0 := AfterChange(w, t1, keys, id, old_, new_);
    var r := Complete(w0, env);
    ChangeIsPosted(w, w.(tree := t1), keys, id, old_, new_);
    ChangeLinesShape(w, keys, id, old_, new_);
    ChangeKeepsTree(w0, env, id, old_, new_);
    forall k, x | k in w.cache && x in Paths(w.tree) && w.cache[k].path == Paths(w.tree)[x]
      ensures CachedPath(r, k) == Some(Paths(t1)[x])
    {
      ObjectFollows(w, t1, env, keys, id, old_, new_, k, x);
    }
    if Housed(w) {
      NothingNew(w, t1, env, keys, id, old_, new_);
      HousedStays(r, w);
    }
  }

  lemma {:induction false} NothingNew(w: World, t1: Tree, env: Env, keys: seq<Key>, id: Id, old_: Path, new_: Path)
    requires Paths(t1) == Moved(Paths(w.tree), old_, new_)
    ensures Complete(AfterChange(w, t1, keys, id, old_, new_), env).cache.Keys <= w.cache.Keys
  {
    var w0 := AfterChange(w, t1, keys, id, old_, new_);
    ChangeLinesFollow(w, t1, keys, id, old_, new_);
    hide Paths, FolderChangeLines, Complete;
    forall k | k !in w.cache
      ensures k !in Complete(w0, env).cache
    {
      UntouchedKey(w0, env, k);
    }
  }

  /** After an accepted renaming. */
  lemma {:induction false} RenameFollows(w: World, env: Env, keys: seq<Key>, id: Id, name: string)
    requires TreeOk(w.tree) && KeyOrder(keys) && (forall k :: k in w.cache ==> k in keys) && Rename(w.tree, id, name).Ok?
    ensures id in Paths(w.tree)
    ensures var t1, p := Rename(w.tree, id, name).value, Paths(w.tree)[id];
      var r := Complete(AfterChange(w, t1, keys, id, p, Parent(p) + [name]), env);
      Writable(w, env, p) ==> r.tree == t1 && Follows(r, w) && (Housed(w) ==> Housed(r))
  {
    RenameKeeps(w.tree, id, name);
    var t1, p := Rename(w.tree, id, name).value, Paths(w.tree)[id];
    hide Paths, TreeOk, Rename, Moved, PathOf, Housed, Follows, Complete, Writable;
    if Writable(w, env, p) {
      ChangeFollows(w, t1, env, keys, id, p, Parent(p) + [name]);
    }
  }

  /** After an accepted move. */
  lemma {:induction false} MoveFollows(w: World, env: Env, keys: seq<Key>, id: Id, parent: Option<Id>)
    requires TreeOk(w.tree) && KeyOrder(keys) && (forall k :: k in w.cache ==> k in keys) && Move(w.tree, id, parent).Ok?
    ensures id in Paths(w.tree)
    ensures var t1, p := Move(w.tree, id, parent).value, Paths(w.tree)[id];
      var r := Complete(AfterChange(w, t1, keys, id, p, ParentPath(Paths(w.tree), parent) + [w.tree[id].name]), env);
      Writable(w, env, p) ==> r.tree == t1 && Follows(r, w) && (Housed(w) ==> Housed(r))
  {
    MoveKeeps(w.tree, id, parent);
    OldName(w.tree, id);
    var t1, p := Move(w.tree, id, parent).value, Paths(w.tree)[id];
    hide Paths, TreeOk, Move, Moved, PathOf, Housed, Follows, Complete, Writable, ValidName;
    if Writable(w, env, p) {
      ChangeFollows(w, t1, env, keys, id, p, ParentPath(Paths(w.tree), parent) + [w.tree[id].name]);
    }
  }

  // --- an emptied folder ------------------------------------------------------------------------

  /** Where what is filed in folder `x` goes: the target for the folder itself, else where `x` goes. */
  ghost function Home(t: Tree, fid: Id, target: Option<Id>, x: Id): Option<Path>
    requires CanEmpty(t, fid, target) && x in t
    requires fid in t && (target.Some? ==> target.value in Paths(t)) && x in Paths(t) && t.Keys == Paths(t).Keys
  {
    if x == fid then if target.None? then None else Some(Paths(t)[target.value])
    else Some(HubView(t, fid, fid, Kids(t, fid), target)[x])
  }

  lemma {:induction false} KidObjectLine(w: World, keys: seq<Key>, kids: seq<Id>, target: Option<Id>, m: Line) returns (kid: Id)
    requires m in KidObjectLines(w, keys, kids, target)
    ensures kid in kids && m in RewriteLines(w, keys, At(Paths(w.tree), kid), NewPlace(w.tree, kid, target))
    decreases |kids|
  {
    if m in KidObjectLines(w, keys, kids[1..], target) {
      kid := KidObjectLine(w, keys, kids[1..], target, m);
    } else {
      kid := kids[0];
    }
  }

  /** The place below a child's new place is the place that its folder takes. */
  lemma {:induction false} KidTakesAlong(t: Tree, fid: Id, target: Option<Id>, kid: Id, x: Id)
    requires CanEmpty(t, fid, target) && kid in Kids(t, fid) && x in t && kid in Paths(t) && x in Paths(t) && fid in Paths(t)
    requires Paths(t)[kid] <= Paths(t)[x] && t.Keys == Paths(t).Keys
    ensures x != fid && NewPlace(t, kid, target) + Paths(t)[x][|Paths(t)[kid]|..] == HubView(t, fid, fid, Kids(t, fid), target)[x]
  {
    var v := Paths(t);
    KidPath(t, fid, kid);
    assert Carried(v, Kids(t, fid), x);
    assert v[x][|v[fid]|..] == [t[kid].name] + v[x][|v[kid]|..];
    assert ParentPath(v, target) + [t[kid].name] + v[x][|v[kid]|..] == ParentPath(v, target) + ([t[kid].name] + v[x][|v[kid]|..]);
  }

  /** Each line of an object filed in some folder leads where that folder goes. */
  lemma {:induction false} EmptyLineFollows(w: World, keys: seq<Key>, fid: Id, kids: seq<Id>, target: Option<Id>, m: Line, x: Id)
    requires Request(w, keys, fid, kids, target) && m in EmptyObjects(w, keys, fid, kids, target)
    requires fid in w.tree && x in w.tree && w.tree.Keys == Paths(w.tree).Keys && (target.Some? ==> target.value in Paths(w.tree))
    requires m.from == Some(Paths(w.tree)[x])
    ensures m.to == Home(w.tree, fid, target, x)
  {
    var t, v := w.tree, Paths(w.tree);
    if m in KidObjectLines(w, keys, kids, target) {
      var kid := KidObjectLine(w, keys, kids, target, m);
      assert kid in Kids(t, fid);
      RewriteLine(w, keys, At(v, kid), NewPlace(t, kid, target), m);
      KidTakesAlong(t, fid, target, kid, x);
    } else {
      DirectLeaves(w, keys, v[fid], if target.None? then None else Some(At(v, target.value)), m);
      SamePlace(t, x, fid);
    }
  }

  lemma {:induction false} SamePlace(t: Tree, a: Id, b: Id)
    requires TreeOk(t) && a in t && b in t && Paths(t)[a] == Paths(t)[b]
    ensures a == b
  {
    IdOfView(t, a);
    IdOfView(t, b);
  }

  /** What is filed in the folder or below has a line, and nothing else has. */
  lemma {:induction false} EmptyLineIff(w: World, keys: seq<Key>, fid: Id, kids: seq<Id>, target: Option<Id>, k: Key)
    requires Request(w, keys, fid, kids, target) && Housed(w) && TreeOk(w.tree) && fid in w.tree && fid in Paths(w.tree)
    ensures HasLine(EmptyObjects(w, keys, fid, kids, target), k)
       <==> k in keys && k in w.cache && Paths(w.tree)[fid] <= w.cache[k].path
  {
    var ls := EmptyObjects(w, keys, fid, kids, target);
    hide CanEmpty, EmptyObjects, TreeOk, Paths, Housed;
    if HasLine(ls, k) {
      EmptyObjectsClean(w, keys, fid, kids, target);
      var i :| 0 <= i < |ls| && ls[i].what == ObjectRow(k);
      ObjectsLeave(w, keys, fid, kids, target, ls[i]);
    }
    if k in keys && k in w.cache && Paths(w.tree)[fid] <= w.cache[k].path {
      InsideHasLine(w, keys, fid, kids, target, k);
    }
  }

  /** An object of folder `x`: filed in the target, or nowhere, for the emptied folder itself; else where `x` now is. */
  ghost predicate ObjectHome(r: World, w: World, fid: Id, target: Option<Id>, k: Key, x: Id)
    requires target.Some? ==> target.value in Paths(w.tree)
  {
    if x == fid then CachedPath(r, k) == if target.None? then None else Some(Paths(w.tree)[target.value])
    else x in Paths(r.tree) && CachedPath(r, k) == Some(Paths(r.tree)[x])
  }

  ghost predicate EmptiedFollows(r: World, w: World, fid: Id, target: Option<Id>)
    requires target.Some? ==> target.value in Paths(w.tree)
  {
    forall k, x :: k in w.cache && x in Paths(w.tree) && w.cache[k].path == Paths(w.tree)[x] ==> ObjectHome(r, w, fid, target, k, x)
  }

  /** A folder that is not below the emptied one stays. */
  lemma {:induction false} OutsideStays(t: Tree, fid: Id, target: Option<Id>, x: Id)
    requires CanEmpty(t, fid, target) && x in t && fid in Paths(t) && x in Paths(t) && t.Keys == Paths(t).Keys
    requires !(Paths(t)[fid] <= Paths(t)[x])
    ensures x != fid && HubView(t, fid, fid, Kids(t, fid), target)[x] == Paths(t)[x]
  {
    NotCarried(t, fid, Kids(t, fid), x);
  }

  lemma {:induction false} InsideFollows(w: World, env: Env, keys: seq<Key>, fid: Id, kids: seq<Id>, target: Option<Id>, k: Key, x: Id)
    requires Request(w, keys, fid, kids, target) && Housed(w) && TreeOk(w.tree) && fid in w.tree && w.tree.Keys == Paths(w.tree).Keys
    requires target.Some? ==> target.value in Paths(w.tree)
    requires k in keys && k in w.cache && x in w.tree && w.cache[k].path == Paths(w.tree)[x]
    requires Paths(w.tree)[fid] <= Paths(w.tree)[x] && CanWrite(env, k)
    ensures CachedPath(Emptied(w, env, keys, fid, kids, target), k) == Home(w.tree, fid, target, x)
    ensures Value(Emptied(w, env, keys, fid, kids, target), k) == Home(w.tree, fid, target, x)
  {
    var ls, b := EmptyLines(w, keys, fid, kids, target), EmptyObjects(w, keys, fid, kids, target);
    var w0 := Post(w, ls);
    EmptyLineIff(w, keys, fid, kids, target, k);
    RequestHolds(w, keys, fid, kids, target);
    MiddleLines(w, keys, fid, kids, target);
    hide CanEmpty, EmptyLines, EmptyObjects, Posted, Complete, Home, Paths, TreeOk, Housed, KidLines, CanWrite, EmptyShape, HubView;
    var i :| 0 <= i < |b| && b[i].what == ObjectRow(k);
    assert ls[i + |kids|] == b[i];
    LineStart(w0, i + |kids|);
    EmptyLineFollows(w, keys, fid, kids, target, b[i], x);
    WrittenLine(w0, env, b[i]);
  }

  lemma {:induction false} OutsiderStays(w: World, env: Env, keys: seq<Key>, fid: Id, kids: seq<Id>, target: Option<Id>, k: Key, x: Id)
    requires Request(w, keys, fid, kids, target) && Housed(w) && TreeOk(w.tree) && fid in w.tree && w.tree.Keys == Paths(w.tree).Keys
    requires target.Some? ==> target.value in Paths(w.tree)
    requires k in keys && k in w.cache && x in w.tree && w.cache[k].path == Paths(w.tree)[x]
    requires !(Paths(w.tree)[fid] <= Paths(w.tree)[x])
    ensures CachedPath(Emptied(w, env, keys, fid, kids, target), k) == Home(w.tree, fid, target, x)
  {
    var w0 := Post(w, EmptyLines(w, keys, fid, kids, target));
    EmptyLineIff(w, keys, fid, kids, target, k);
    RequestHolds(w, keys, fid, kids, target);
    NoLine(w, keys, fid, kids, target, k);
    hide CanEmpty, EmptyLines, EmptyObjects, Posted, Complete, Home, Paths, TreeOk, Housed, KidLines, CanWrite, EmptyShape, HubView;
    UntouchedKey(w0, env, k);
    HomeOutside(w.tree, fid, target, x);
  }

  lemma {:induction false} EmptyObjectFollows(w: World, env: Env, keys: seq<Key>, fid: Id, kids: seq<Id>, target: Option<Id>, k: Key, x: Id)
    requires Request(w, keys, fid, kids, target) && Housed(w) && TreeOk(w.tree) && fid in w.tree && w.tree.Keys == Paths(w.tree).Keys
    requires target.Some? ==> target.value in Paths(w.tree)
    requires k in keys && k in w.cache && x in w.tree && w.cache[k].path == Paths(w.tree)[x]
    requires Paths(w.tree)[fid] <= Paths(w.tree)[x] ==> CanWrite(env, k)
    ensures CachedPath(Emptied(w, env, keys, fid, kids, target), k) == Home(w.tree, fid, target, x)
    ensures Paths(w.tree)[fid] <= Paths(w.tree)[x] ==>
      Value(Emptied(w, env, keys, fid, kids, target), k) == Home(w.tree, fid, target, x)
  {
    hide Request, Emptied, Home, Housed, TreeOk, CanWrite;
    if Paths(w.tree)[fid] <= Paths(w.tree)[x] {
      InsideFollows(w, env, keys, fid, kids, target, k, x);
    } else {
      OutsiderStays(w, env, keys, fid, kids, target, k, x);
    }
  }

  lemma {:induction false} HomeOutside(t: Tree, fid: Id, target: Option<Id>, x: Id)
    requires CanEmpty(t, fid, target) && x in t && fid in t && t.Keys == Paths(t).Keys && (target.Some? ==> target.value in Paths(t))
    requires !(Paths(t)[fid] <= Paths(t)[x])
    ensures Home(t, fid, target, x) == Some(Paths(t)[x])
  {
    OutsideStays(t, fid, target, x);
  }

  lemma {:induction false} NoLine(w: World, keys: seq<Key>, fid: Id, kids: seq<Id>, target: Option<Id>, k: Key)
    requires !HasLine(EmptyObjects(w, keys, fid, kids, target), k)
    ensures !HasLine(EmptyLines(w, keys, fid, kids, target), k)
  {
    MiddleLines(w, keys, fid, kids, target);
    EmptyLinesParts(w, keys, fid, kids, target);
    var ls, b := EmptyLines(w, keys, fid, kids, target), EmptyObjects(w, keys, fid, kids, target);
    forall i | 0 <= i < |ls|
      ensures ls[i].what != ObjectRow(k)
    {
      assert |kids| <= i < |ls| - 1 ==> b[i - |kids|] == ls[i];
    }
  }

  /** The tree that a finished empty-into leaves. */
  lemma {:induction false} EmptiedLeaves(w: World, env: Env, keys: seq<Key>, fid: Id, kids: seq<Id>, target: Option<Id>)
    requires Request(w, keys, fid, kids, target) && Housed(w) && (forall k :: k in w.cache ==> k in keys)
    requires fid in Paths(w.tree) && Writable(w, env, Paths(w.tree)[fid])
    ensures fid in w.tree && TreeOk(w.tree) && w.tree.Keys == Paths(w.tree).Keys && (target.Some? ==> target.value in w.tree && target.value != fid)
    ensures var t := Emptied(w, env, keys, fid, kids, target).tree;
      && t == Hub(w.tree, fid, fid, Kids(w.tree, fid), target) - {fid}
      && TreeOk(t) && Paths(t) == HubView(w.tree, fid, fid, Kids(w.tree, fid), target) - {fid}
  {
    EmptyIntoCompletes(w, env, keys, fid, kids, target);
    RequestHolds(w, keys, fid, kids, target);
    hide Complete, EmptyLines, EmptyShape, Posted, Hub, HubView, TreeOk, Housed, Writable;
    EmptiedJournal(Post(w, EmptyLines(w, keys, fid, kids, target)), env, fid, kids, target);
    KidSetAll(w.tree, fid, kids);
    HubWithoutHub(w.tree, fid, target);
  }

  lemma {:induction false} EmptyMakesNothing(w: World, env: Env, keys: seq<Key>, fid: Id, kids: seq<Id>, target: Option<Id>)
    requires Request(w, keys, fid, kids, target) && Housed(w) && TreeOk(w.tree) && fid in w.tree && fid in Paths(w.tree)
    ensures Emptied(w, env, keys, fid, kids, target).cache.Keys <= w.cache.Keys
  {
    hide CanEmpty, EmptyLines, EmptyObjects, Complete, Paths, TreeOk, Housed;
    forall k | k !in w.cache
      ensures k !in Emptied(w, env, keys, fid, kids, target).cache
    {
      EmptyLineIff(w, keys, fid, kids, target, k);
      NoLine(w, keys, fid, kids, target, k);
      UntouchedKey(Post(w, EmptyLines(w, keys, fid, kids, target)), env, k);
    }
  }

  lemma {:induction false} TargetStays(t: Tree, fid: Id, target: Id)
    requires CanEmpty(t, fid, Some(target)) && fid in t && t.Keys == Paths(t).Keys && target in t
    ensures target != fid && HubView(t, fid, fid, Kids(t, fid), Some(target))[target] == Paths(t)[target]
  {
    OutsideStays(t, fid, Some(target), target);
  }

  lemma {:induction false} EmptiedHoused(r: World, w: World, fid: Id, target: Option<Id>)
    requires TreeOk(w.tree) && TreeOk(r.tree) && w.tree.Keys == Paths(w.tree).Keys && r.cache.Keys <= w.cache.Keys && Housed(w)
    requires target.Some? ==> target.value in w.tree && target.value in Paths(r.tree) && Paths(r.tree)[target.value] == Paths(w.tree)[target.value]
    requires EmptiedFollows(r, w, fid, target)
    ensures Housed(r)
  {
    forall k | k in r.cache
      ensures IdOf(r.tree, r.cache[k].path).Some?
    {
      var x := HousedIn(w, k);
      hide IdOf, TreeOk, Paths;
      assert ObjectHome(r, w, fid, target, k, x);
      var y := if x == fid then target.value else x;
      FoundThere(r.tree, y);
    }
  }

  lemma {:induction false} HousedIn(w: World, k: Key) returns (x: Id)
    requires TreeOk(w.tree) && Housed(w) && k in w.cache
    ensures x in Paths(w.tree) && Paths(w.tree)[x] == w.cache[k].path
  {
    x := IdOf(w.tree, w.cache[k].path).value;
    PathOfOk(w.tree, x);
  }

  lemma {:induction false} FoundThere(t: Tree, x: Id)
    requires TreeOk(t) && x in Paths(t)
    ensures IdOf(t, Paths(t)[x]).Some?
  {
    IdOfView(t, x);
  }

  /**
   * After an accepted empty-into whose contents can be written: the folder is
   * gone, what was filed in it is filed in the target (or nowhere), and every
   * other object is filed where its folder now is.
   */
  lemma {:induction false} EmptyFollows(w: World, env: Env, keys: seq<Key>, fid: Id, kids: seq<Id>, target: Option<Id>)
    requires Request(w, keys, fid, kids, target) && Housed(w) && forall k :: k in w.cache ==> k in keys
    requires fid in Paths(w.tree) && Writable(w, env, Paths(w.tree)[fid]) && (target.Some? ==> target.value in Paths(w.tree))
    ensures var r := Emptied(w, env, keys, fid, kids, target);
      fid !in r.tree && EmptiedFollows(r, w, fid, target) && Housed(r)
  {
    hide CanEmpty, Emptied, TreeOk, Paths, Housed, CanWrite, KidsOf, Writable, ObjectHome, Hub, HubView, Kids;
    EmptiedLeaves(w, env, keys, fid, kids, target);
    var r := Emptied(w, env, keys, fid, kids, target);
    forall k, x | k in w.cache && x in Paths(w.tree) && w.cache[k].path == Paths(w.tree)[x]
      ensures ObjectHome(r, w, fid, target, k, x)
    {
      EmptyHome(w, env, keys, fid, kids, target, k, x);
    }
    if target.Some? {
      TargetStays(w.tree, fid, target.value);
    }
    HubKeys(w.tree, fid, target);
    EmptyMakesNothing(w, env, keys, fid, kids, target);
    EmptiedHoused(r, w, fid, target);
  }

  lemma {:induction false} EmptyHome(w: World, env: Env, keys: seq<Key>, fid: Id, kids: seq<Id>, target: Option<Id>, k: Key, x: Id)
    requires Request(w, keys, fid, kids, target) && Housed(w) && k in keys && k in w.cache
    requires fid in Paths(w.tree) && Writable(w, env, Paths(w.tree)[fid]) && (target.Some? ==> target.value in Paths(w.tree))
    requires x in Paths(w.tree) && w.cache[k].path == Paths(w.tree)[x] && forall k :: k in w.cache ==> k in keys
    ensures ObjectHome(Emptied(w, env, keys, fid, kids, target), w, fid, target, k, x)
  {
    hide CanEmpty, Emptied, TreeOk, Housed, CanWrite, KidsOf, Hub;
    EmptiedLeaves(w, env, keys, fid, kids, target);
    EmptyObjectFollows(w, env, keys, fid, kids, target, k, x);
  }

  lemma {:induction false} HubKeys(t: Tree, fid: Id, target: Option<Id>)
    requires fid in t && t.Keys == Paths(t).Keys
    ensures HubView(t, fid, fid, Kids(t, fid), target).Keys == t.Keys
  {
  }

  // --- a request filed ----------------------------------------------------------------------------

  /** Every object of the request that can be written carries the folder and is filed there; the others are as they were. */
  lemma {:induction false} AssignFiles(w: World, env: Env, keys: seq<Key>, to: Option<Path>, k: Key)
    requires TreeOk(w.tree) && KeyOrder(keys)
    ensures var r := Complete(Post(w, AssignLines(w, keys, to)), env);
      && (k in keys && CanWrite(env, k) ==> Value(r, k) == CachedPath(r, k) == to)
      && (k !in keys ==> Value(r, k) == Value(w, k) && Cached(r, k) == Cached(w, k))
  {
    var w0 := Post(w, AssignLines(w, keys, to));
    AssignIsPosted(w, keys, to);
    hide Posted, Complete, TreeOk;
    if k in keys && CanWrite(env, k) {
      var i :| 0 <= i < |keys| && keys[i] == k;
      assert w0.journal[i] in w0.journal;
      WrittenLine(w0, env, w0.journal[i]);
    } else if k !in keys {
      UntouchedKey(w0, env, k);
    }
  }
}
