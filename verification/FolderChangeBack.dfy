/** Undoing a renaming, or the move of a folder: the tree and the objects, there and back. */
module FolderChangeBack {
  import opened Wrappers
  import opened FolderPaths
  import opened FolderTree
  import opened FolderRuns
  import opened FolderLines
  import opened FolderReplay
  import opened FolderSlots
  import opened FolderRecovery
  import opened FolderActions
  import opened FolderUndo
  import opened FolderUndoInverse
  import opened FolderRoundTrip

  // --- the folder -----------------------------------------------------------------------------

  lemma {:induction false} SuffixBack(v: View, x: Id, old_: Path, new_: Path)
    requires x in v && (new_ <= Moved(v, old_, new_)[x] <==> old_ <= v[x])
    ensures new_ <= Moved(v, old_, new_)[x] ==> old_ + Moved(v, old_, new_)[x][|new_|..] == v[x]
  {
    if old_ <= v[x] {
      assert (new_ + v[x][|old_|..])[|new_|..] == v[x][|old_|..];
    }
  }

  /** Its subtree is within bounds at its old place, which it left. */
  lemma {:induction false} BackInBounds(t: Tree, v1: View, id: Id, new_: Path)
    requires TreeOk(t) && id in t && v1 == Moved(Paths(t), Paths(t)[id], new_)
    requires forall x :: x in t && new_ <= Paths(t)[x] ==> Paths(t)[id] <= Paths(t)[x]
    ensures forall x :: x in t && new_ <= v1[x] ==> ValidPath(Paths(t)[id] + v1[x][|new_|..])
    ensures forall x :: x in t && !(Paths(t)[id] <= Paths(t)[x]) ==> v1[x] == Paths(t)[x] && !(new_ <= v1[x])
  {
    hide ValidPath;
    forall x | x in t
      ensures new_ <= v1[x] ==> Paths(t)[id] + v1[x][|new_|..] == Paths(t)[x]
    {
      SuffixBack(Paths(t), x, Paths(t)[id], new_);
    }
  }

  /** No other folder has taken the place it left. */
  lemma {:induction false} BackIsFree(t: Tree, id: Id, x: Id)
    requires TreeOk(t) && id in t && x in t && x != id
    ensures !(t[x].parent == t[id].parent && t[x].name == t[id].name)
  {
    assert Row(t, Paths(t), x) && Row(t, Paths(t), id);
  }

  lemma {:induction false} AboveIsParent(t: Tree, id: Id)
    requires TreeOk(t) && id in t
    ensures t[id].parent.Some? ==> t[id].parent.value in t && !(Paths(t)[id] <= Paths(t)[t[id].parent.value])
    ensures ParentPath(Paths(t), t[id].parent) == Parent(Paths(t)[id]) && Paths(t)[id] == Parent(Paths(t)[id]) + [t[id].name]
  {
    assert Row(t, Paths(t), id);
  }

  lemma {:induction false} RelinkAccepted(t1: Tree, v1: View, t: Tree, id: Id, old_: Path, new_: Path)
    requires id in t && id in t1 && t1.Keys == t.Keys == v1.Keys && Paths(t1) == v1 && v1[id] == new_
    requires ParentPath(v1, t[id].parent) + [t[id].name] == old_
    requires forall x :: x in t && new_ <= v1[x] ==> ValidPath(old_ + v1[x][|new_|..])
    requires forall x :: x in t && x != id ==> t1[x] == t[x] && !(t1[x].parent == t[id].parent && t1[x].name == t[id].name)
    ensures Relink(t1, id, t[id].parent, t[id].name) == Ok(t)
  {
    hide ValidPath, Paths;
    assert t1[id := Folder(t[id].parent, t[id].name)] == t;
  }

  lemma {:induction false} RelinkIs(t: Tree, id: Id, parent: Option<Id>, name: string)
    requires Relink(t, id, parent, name).Ok?
    ensures Relink(t, id, parent, name).value == t[id := Folder(parent, name)]
  {
  }

  /** What a change leaves: the tree well formed, its keys and paths. */
  lemma {:induction false} RelinkLeaves(t: Tree, id: Id, parent: Option<Id>, name: string)
    requires TreeOk(t) && id in t && (parent.Some? ==> parent.value in t && !(Paths(t)[id] <= Paths(t)[parent.value]))
    requires Relink(t, id, parent, name).Ok?
    ensures var t1 := Relink(t, id, parent, name).value;
      var new_ := ParentPath(Paths(t), parent) + [name];
      && TreeOk(t1) && Paths(t).Keys == t.Keys == t1.Keys == Paths(t1).Keys && Paths(t1)[id] == new_
      && (forall x :: x in t && new_ <= Paths(t1)[x] ==> ValidPath(Paths(t)[id] + Paths(t1)[x][|new_|..]))
      && (forall x :: x in t && !(Paths(t)[id] <= Paths(t)[x]) ==> Paths(t1)[x] == Paths(t)[x] && !(new_ <= Paths(t1)[x]))
  {
    RelinkIs(t, id, parent, name);
    RelinkRewritesPaths(t, id, parent, name);
    NewPathIsFree(t, id, parent, name);
    hide Relink, ValidPath, Moved;
    var t1 := Relink(t, id, parent, name).value;
    BackInBounds(t, Paths(t1), id, ParentPath(Paths(t), parent) + [name]);
    MovedPath(t, id, t1, ParentPath(Paths(t), parent) + [name]);
    IdOfView(t1, id);
  }

  /** A folder given another parent or name can be given back the ones it had, and then the tree is what it was. */
  lemma {:induction false} RelinkBack(t: Tree, id: Id, parent: Option<Id>, name: string)
    requires TreeOk(t) && id in t && (parent.Some? ==> parent.value in t && !(Paths(t)[id] <= Paths(t)[parent.value]))
    requires Relink(t, id, parent, name).Ok?
    ensures var t1 := Relink(t, id, parent, name).value;
      && TreeOk(t1) && t1.Keys == t.Keys && (t[id].parent.Some? ==> t[id].parent.value in t)
      && ParentPath(Paths(t1), t[id].parent) == Parent(Paths(t)[id])
      && Paths(t1).Keys == t1.Keys && !(t[id].parent.Some? && Paths(t1)[id] <= Paths(t1)[t[id].parent.value])
      && Relink(t1, id, t[id].parent, t[id].name) == Ok(t)
  {
    hide Relink, TreeOk, Paths, ValidPath;
    var t1, old_ := Relink(t, id, parent, name).value, At(Paths(t), id);
    RelinkIs(t, id, parent, name);
    RelinkLeaves(t, id, parent, name);
    AboveIsParent(t, id);
    forall x | x in t && x != id
      ensures !(t1[x].parent == t[id].parent && t1[x].name == t[id].name)
    {
      BackIsFree(t, id, x);
    }
    RelinkAccepted(t1, Paths(t1), t, id, old_, ParentPath(Paths(t), parent) + [name]);
  }

  /** A folder moved or renamed from `old_` to `new_`, with the lines that say so. */
  ghost predicate Changed(t: Tree, t1: Tree, id: Id, old_: Path, new_: Path) {
    && TreeOk(t) && id in t && Paths(t)[id] == old_ && TreeOk(t1) && PathOf(t1, id) == Some(new_)
    && old_ != [] && new_ != [] && (Parent(old_) == Parent(new_) || Last(old_) == Last(new_))
    && Relocate(t1, id, new_, old_).1 == Done && LastTree(t1, Relocate(t1, id, new_, old_).0) == t
  }

  /** Back under the former parent, or back to the former name, whichever changed. */
  lemma {:induction false} RelocatesBack(t: Tree, t1: Tree, id: Id, old_: Path, new_: Path, above: Option<Id>)
    requires if above.None? then Parent(old_) == [] else Parent(old_) != [] && IdOf(t1, Parent(old_)) == above
    requires
      || (Parent(new_) == Parent(old_) && Rename(t1, id, Last(old_)) == Ok(t) && (Last(new_) == Last(old_) ==> t1 == t))
      || (Last(new_) == Last(old_) && Move(t1, id, above) == Ok(t) && (Parent(new_) == Parent(old_) ==> t1 == t))
    ensures Relocate(t1, id, new_, old_).1 == Done && LastTree(t1, Relocate(t1, id, new_, old_).0) == t
  {
    hide Move, Rename, IdOf, Parent, Last;
  }

  lemma {:induction false} RenameIs(t: Tree, id: Id, name: string)
    requires Rename(t, id, name).Ok?
    ensures id in t && ValidName(name) && Rename(t, id, name) == Relink(t, id, t[id].parent, name)
  {
  }

  lemma {:induction false} OldName(t: Tree, id: Id)
    requires TreeOk(t) && id in t
    ensures Paths(t).Keys == t.Keys && Paths(t)[id] != [] && Last(Paths(t)[id]) == t[id].name && ValidName(t[id].name)
  {
    AboveIsParent(t, id);
    assert ValidPath(Paths(t)[id]) && t[id].name in Paths(t)[id];
  }

  lemma {:induction false} RenameChanges(t: Tree, id: Id, name: string)
    requires TreeOk(t) && Rename(t, id, name).Ok?
    ensures id in t && Changed(t, Rename(t, id, name).value, id, Paths(t)[id], Parent(Paths(t)[id]) + [name])
  {
    hide Moved, TreeOk, Paths, ValidPath, PathOf, Relocate, IdOf, Relink, ValidName;
    RenameIs(t, id, name);
    RenameKeeps(t, id, name);
    RelinkIs(t, id, t[id].parent, name);
    OldName(t, id);
    AboveIsParent(t, id);
    RelinkBack(t, id, t[id].parent, name);
    var t1, old_ := Rename(t, id, name).value, Paths(t)[id];
    assert Rename(t1, id, t[id].name) == Ok(t);
    hide Rename;
    BackUnder(t, t1, id);
    assert name == t[id].name ==> t1 == t;
    RelocatesBack(t, t1, id, old_, Parent(old_) + [name], t[id].parent);
  }

  lemma {:induction false} BackUnder(t: Tree, t1: Tree, id: Id)
    requires TreeOk(t) && TreeOk(t1) && id in t && t1.Keys == t.Keys
    requires (t[id].parent.Some? ==> t[id].parent.value in t) && ParentPath(Paths(t1), t[id].parent) == Parent(Paths(t)[id])
    ensures if t[id].parent.None? then Parent(Paths(t)[id]) == []
      else Parent(Paths(t)[id]) != [] && IdOf(t1, Parent(Paths(t)[id])) == t[id].parent
  {
    if t[id].parent.Some? {
      IdOfView(t1, t[id].parent.value);
      assert ValidPath(Paths(t1)[t[id].parent.value]);
    }
  }

  lemma {:induction false} MoveIs(t: Tree, id: Id, parent: Option<Id>)
    requires TreeOk(t) && Move(t, id, parent).Ok?
    ensures id in t && (parent.Some? ==> parent.value in t && !(Paths(t)[id] <= Paths(t)[parent.value]))
    ensures Move(t, id, parent) == Relink(t, id, parent, t[id].name)
  {
  }

  lemma {:induction false} MoveChanges(t: Tree, id: Id, parent: Option<Id>)
    requires TreeOk(t) && Move(t, id, parent).Ok?
    ensures id in t && Changed(t, Move(t, id, parent).value, id, Paths(t)[id], ParentPath(Paths(t), parent) + [t[id].name])
  {
    hide Moved, TreeOk, Paths, ValidPath, PathOf, Relocate, IdOf, Relink, ValidName, Move;
    MoveIs(t, id, parent);
    MoveKeeps(t, id, parent);
    RelinkIs(t, id, parent, t[id].name);
    OldName(t, id);
    AboveIsParent(t, id);
    SameAbove(t, id, parent);
    RelinkBack(t, id, parent, t[id].name);
    var t1, old_ := Move(t, id, parent).value, Paths(t)[id];
    MovedBack(t, t1, id);
    BackUnder(t, t1, id);
    assert ParentPath(Paths(t), parent) == Parent(old_) ==> t1 == t;
    RelocatesBack(t, t1, id, old_, ParentPath(Paths(t), parent) + [t[id].name], t[id].parent);
  }

  lemma {:induction false} SameAbove(t: Tree, id: Id, parent: Option<Id>)
    requires TreeOk(t) && id in t && (parent.Some? ==> parent.value in t)
    ensures ParentPath(Paths(t), parent) == Parent(Paths(t)[id]) ==> parent == t[id].parent
  {
    AboveIsParent(t, id);
    if ParentPath(Paths(t), parent) == Parent(Paths(t)[id]) {
      SameParent(t, Paths(t), parent, t[id].parent);
    }
  }

  lemma {:induction false} MovedBack(t: Tree, t1: Tree, id: Id)
    requires id in t && id in t1 && t1.Keys == t.Keys && (t[id].parent.Some? ==> t[id].parent.value in t)
    requires Paths(t1).Keys == t1.Keys && !(t[id].parent.Some? && Paths(t1)[id] <= Paths(t1)[t[id].parent.value])
    requires t1[id].name == t[id].name && Relink(t1, id, t[id].parent, t[id].name) == Ok(t)
    ensures Move(t1, id, t[id].parent) == Ok(t)
  {
    hide Relink, Paths;
  }

  // --- the action and its undo ----------------------------------------------------------------------

  /** The journal of such a change: the folder's line, then objects. */
  ghost predicate ChangeShape(id: Id, old_: Path, new_: Path, ls: seq<Line>) {
    && ls != [] && ls[0] == Pend(FolderRow(id), Some(old_), Some(new_))
    && forall i :: 1 <= i < |ls| ==> ls[i].what.ObjectRow?
  }

  lemma {:induction false} ChangeLinesShape(w: World, keys: seq<Key>, id: Id, old_: Path, new_: Path)
    requires KeyOrder(keys)
    ensures ChangeShape(id, old_, new_, FolderChangeLines(w, keys, id, old_, new_))
  {
    RewriteClean(w, keys, old_, new_);
    var ls := RewriteLines(w, keys, old_, new_);
    assert forall i :: 1 <= i < |ls| + 1 ==> FolderChangeLines(w, keys, id, old_, new_)[i] == ls[i - 1];
  }

  /** The folder line finds the folder in place, and object lines leave the tree alone. */
  lemma {:induction false} ChangeKeepsTree(w: World, env: Env, id: Id, old_: Path, new_: Path)
    requires ChangeShape(id, old_, new_, w.journal) && PathOf(w.tree, id) == Some(new_)
    ensures Complete(w, env).tree == w.tree
  {
    var n, line := |w.journal|, Lines(env, false);
    RunFirst(w, line, 0, n);
    assert ReplayFolder(w.tree, Filed(w), id, Some(old_), Some(new_)) == ([], Done);
    FolderStep(w, 0, env, false, [], Done);
    LinesLocal(env, false);
    StepFrame(w, 0, line);
    ObjectsKeepTree(Step(w, 0, line), Range(1, n), line);
  }

  /** The folder goes back, and nothing is stuck. */
  lemma {:induction false} ChangeGoesBack(t: Tree, w1: World, id: Id, old_: Path, new_: Path, order: seq<Key>)
    requires Changed(t, w1.tree, id, old_, new_)
    requires w1.journal != [] && w1.journal[0] == Line(FolderRow(id), Some(old_), Some(new_), Done)
    requires forall i :: 1 <= i < |w1.journal| ==> w1.journal[i].what.ObjectRow?
    ensures AllBack(w1, order) && FoldersBack(w1, order).tree == t
  {
    hide Relocate;
    var w2 := Post(w1, UndoLines(w1.journal, w1, order));
    ObjectRowsSkipped(w2, w1.journal, 1, |w1.journal|);
    assert UndoesFolder(w1.journal[0]);
    var (w3, ok) := UndoFolder(w2, w1.journal[0]);
    assert ok && w3.tree == t;
    assert UndoFolders(w3, w1.journal, 0) == (w3, []);
  }

  /** The world after the folder changed and its lines were posted. */
  ghost function AfterChange(w: World, t1: Tree, keys: seq<Key>, id: Id, old_: Path, new_: Path): World {
    Post(w.(tree := t1), FolderChangeLines(w, keys, id, old_, new_))
  }

  /**
   * The round trip of a renaming or a move: once its lines are done, undo gives
   * the very tree back; when the lines of the undo are done too, each object
   * has its former value unless `UndoMisses` says so; objects without a line
   * are as they were.
   */
  lemma {:induction false} UndoInvertsChange(w: World, t1: Tree, env: Env, back: Env, keys: seq<Key>, id: Id, old_: Path, new_: Path, order: seq<Key>)
    requires KeyOrder(keys) && Changed(w.tree, t1, id, old_, new_)
    requires AllDone(Complete(AfterChange(w, t1, keys, id, old_, new_), env))
    requires OrderOf(Complete(AfterChange(w, t1, keys, id, old_, new_), env).journal, order)
    ensures var w0 := AfterChange(w, t1, keys, id, old_, new_);
      var w1 := Complete(w0, env);
      var r := Undo(w1, w1.journal, order, back);
      && r.tree == w.tree
      && (AllDone(r) ==> forall m :: m in w0.journal && m.what.ObjectRow? ==> ObjectBack(w0, r, m, env, back))
      && forall key :: (forall m :: m in w0.journal ==> m.what != ObjectRow(key)) ==>
           Value(r, key) == Value(w, key) && Cached(r, key) == Cached(w, key)
  {
    var w0 := AfterChange(w, t1, keys, id, old_, new_);
    ChangeReady(w, t1, env, keys, id, old_, new_, order);
    hide Changed, Undo, FolderChangeLines, Posted, AllBack, Complete;
    var w1 := Complete(w0, env);
    var r := Undo(w1, w1.journal, order, back);
    UndoKeepsTree(w1, order, back);
    forall m | AllDone(r) && m in w0.journal && m.what.ObjectRow?
      ensures ObjectBack(w0, r, m, env, back)
    {
      LineRestored(w0, env, order, back, m);
    }
    forall key | forall m :: m in w0.journal ==> m.what != ObjectRow(key)
      ensures Value(r, key) == Value(w, key) && Cached(r, key) == Cached(w, key)
    {
      OtherKept(w0, env, order, back, key);
    }
  }

  lemma {:induction false} ChangeReady(w: World, t1: Tree, env: Env, keys: seq<Key>, id: Id, old_: Path, new_: Path, order: seq<Key>)
    requires KeyOrder(keys) && Changed(w.tree, t1, id, old_, new_)
    requires AllDone(Complete(AfterChange(w, t1, keys, id, old_, new_), env))
    ensures var w0 := AfterChange(w, t1, keys, id, old_, new_);
      Posted(w0) && AllBack(Complete(w0, env), order) && FoldersBack(Complete(w0, env), order).tree == w.tree
  {
    var w0 := AfterChange(w, t1, keys, id, old_, new_);
    assert TreeOk(t1) && new_ != [] && PathOf(t1, id) == Some(new_) && (Parent(old_) == Parent(new_) || Last(old_) == Last(new_));
    hide Changed, Complete, FolderChangeLines, Posted;
    ChangeIsPosted(w, w.(tree := t1), keys, id, old_, new_);
    ChangeLinesShape(w, keys, id, old_, new_);
    assert DistinctKeys(w0.journal) by { PostedDistinct(w0); }
    ChangeKeepsTree(w0, env, id, old_, new_);
    CompletedLines(w0, env);
    ChangeGoesBack(w.tree, Complete(w0, env), id, old_, new_, order);
  }

  lemma {:induction false} PostedDistinct(w: World)
    requires Posted(w)
    ensures DistinctKeys(w.journal)
  {
  }

  /** With the same rights and answers the undo of a renaming or a move completes, and every value is back. */
  lemma {:induction false} ChangeRestored(w: World, t1: Tree, env: Env, keys: seq<Key>, id: Id, old_: Path, new_: Path, order: seq<Key>)
    requires KeyOrder(keys) && Changed(w.tree, t1, id, old_, new_)
    requires AllDone(Complete(AfterChange(w, t1, keys, id, old_, new_), env))
    requires OrderOf(Complete(AfterChange(w, t1, keys, id, old_, new_), env).journal, order)
    ensures var w1 := Complete(AfterChange(w, t1, keys, id, old_, new_), env);
      var r := Undo(w1, w1.journal, order, env);
      AllDone(r) && r.tree == w.tree && forall key :: Value(r, key) == Value(w, key)
  {
    var w0 := AfterChange(w, t1, keys, id, old_, new_);
    ChangeReady(w, t1, env, keys, id, old_, new_, order);
    UndoInvertsChange(w, t1, env, env, keys, id, old_, new_, order);
    hide Changed, Undo, FolderChangeLines, Posted, AllBack, Complete;
    var w1 := Complete(w0, env);
    var r := Undo(w1, w1.journal, order, env);
    UndoCompletes(w0, env, order);
    forall key: Key
      ensures Value(r, key) == Value(w, key)
    {
      if i :| 0 <= i < |w0.journal| && w0.journal[i].what == ObjectRow(key) {
        assert w0.journal[i] in w0.journal;
        LineBack(w0, r, env, i);
      }
    }
  }
}
