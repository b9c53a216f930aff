/** Undoing an empty-into brings back its folders, objects and filings. */
module FolderUndoInverse {
  import opened Wrappers
  import opened FolderPaths
  import opened FolderTree
  import opened FolderHub
  import opened FolderRuns
  import opened FolderLines
  import opened FolderReplay
  import opened FolderRecovery
  import opened FolderActions
  import opened FolderUndo

  // --- the tree on the way out --------------------------------------------------------------

  lemma {:induction false} LeafLast(p: Path, name: string)
    ensures Parent(p + [name]) == p && Last(p + [name]) == name
  {
  }

  lemma {:induction false} ParentId(t: Tree, parent: Option<Id>)
    requires TreeOk(t) && (parent.Some? ==> parent.value in t)
    ensures var p := ParentPath(Paths(t), parent); parent == (if p == [] then None else IdOf(t, p))
  {
    if parent.Some? {
      assert Row(t, Paths(t), parent.value);
      IdOfView(t, parent.value);
    }
  }

  /** A folder whose move is accepted goes to its new place in one step. */
  lemma {:induction false} RelocateMoves(t: Tree, id: Id, parent: Option<Id>, t': Tree)
    requires TreeOk(t) && id in t && (parent.Some? ==> parent.value in t)
    requires Move(t, id, parent) == Ok(t')
    requires ParentPath(Paths(t), parent) != Parent(Paths(t)[id])
    ensures Relocate(t, id, Paths(t)[id], ParentPath(Paths(t), parent) + [t[id].name]) == ([t'], Done)
  {
    ParentId(t, parent);
    NameIsLast(t, id);
    LeafLast(ParentPath(Paths(t), parent), t[id].name);
    assert [t'] + [] == [t'];
  }

  ghost function KidSet(kids: seq<Id>, n: nat): set<Id>
    requires n <= |kids|
  {
    set j | 0 <= j < n :: kids[j]
  }

  lemma {:induction false} KidSetStep(t: Tree, fid: Id, kids: seq<Id>, n: nat)
    requires KidsOf(t, fid, kids) && n < |kids|
    ensures KidSet(kids, n) <= Kids(t, fid) && kids[n] in Kids(t, fid) && kids[n] !in KidSet(kids, n)
    ensures KidSet(kids, n + 1) == KidSet(kids, n) + {kids[n]}
    ensures KidSet(kids, n) == KidSet(kids, n + 1) - {kids[n]}
  {
    assert kids[n] in kids;
    assert forall j :: 0 <= j < n ==> kids[j] in kids && kids[j] != kids[n];
  }

  /** The line of child `n`, run on the tree the earlier children left. */
  lemma {:induction false} ChildLineRuns(t: Tree, filed: set<Path>, fid: Id, kids: seq<Id>, target: Option<Id>, n: nat)
    requires CanEmpty(t, fid, target) && KidsOf(t, fid, kids) && n < |kids|
    requires kids[n] in t
    ensures ReplayFolder(Hub(t, fid, fid, KidSet(kids, n), target), filed, kids[n],
                         Some(Paths(t)[kids[n]]), Some(NewPlace(t, kids[n], target)))
         == ([Hub(t, fid, fid, KidSet(kids, n + 1), target)], Done)
  {
    hide Move, Relocate;
    var k, h := kids[n], Hub(t, fid, fid, KidSet(kids, n), target);
    KidSetStep(t, fid, kids, n);
    ChildLeaves(t, fid, fid, KidSet(kids, n), target, k);
    KidPath(t, fid, k);
    PathOfOk(h, k);
    HubStep(t, fid, fid, KidSet(kids, n), target, k);
    assert NewPlace(t, k, target) != Paths(t)[k];
    assert ParentPath(Paths(h), target) == ParentPath(Paths(t), target);
    LeafLast(Paths(t)[fid], t[k].name);
    assert target.Some? ==> Paths(t)[target.value] != Paths(t)[fid];
    assert Row(t, Paths(t), fid);
    RelocateMoves(h, k, target, Hub(t, fid, fid, KidSet(kids, n + 1), target));
  }

  lemma {:induction false} HubNone(t: Tree, fid: Id, target: Option<Id>)
    requires fid in t
    ensures Hub(t, fid, fid, {}, target) == t
  {
  }

  /** After `n` children, the run has brought the tree to the hub with those away. */
  lemma {:induction false} KidsLeave(w: World, env: Env, fid: Id, kids: seq<Id>, target: Option<Id>, n: nat)
    requires fid in w.tree && CanEmpty(w.tree, fid, target) && KidsOf(w.tree, fid, kids) && n <= |kids| <= |w.journal|
    requires DistinctKeys(w.journal)
    requires forall i :: 0 <= i < |kids| ==> w.journal[i] == KidLines(w.tree, kids, target)[i]
    ensures Run(w, Range(0, n), Lines(env, false)).tree == Hub(w.tree, fid, fid, KidSet(kids, n), target)
  {
    hide CanEmpty;
    if n == 0 {
      HubNone(w.tree, fid, target);
    } else {
      var line := Lines(env, false);
      KidsLeave(w, env, fid, kids, target, n - 1);
      RunOneMore(w, line, n - 1);
      LinesLocal(env, false);
      RunKeepsAt(w, Range(0, n - 1), n - 1, line);
      KidLeaves(Run(w, Range(0, n - 1), line), w.tree, env, fid, kids, target, n - 1);
    }
  }

  lemma {:induction false} KidLeaves(u: World, t: Tree, env: Env, fid: Id, kids: seq<Id>, target: Option<Id>, n: nat)
    requires CanEmpty(t, fid, target) && KidsOf(t, fid, kids) && n < |kids| <= |u.journal|
    requires u.journal[n] == KidLines(t, kids, target)[n] && u.tree == Hub(t, fid, fid, KidSet(kids, n), target)
    ensures Step(u, n, Lines(env, false)).tree == Hub(t, fid, fid, KidSet(kids, n + 1), target)
    ensures Step(u, n, Lines(env, false)).journal[n].status == Done
  {
    assert kids[n] in kids;
    ChildLineRuns(t, Filed(u), fid, kids, target, n);
    FolderStep(u, n, env, false, [Hub(t, fid, fid, KidSet(kids, n + 1), target)], Done);
  }

  /** Object lines leave the tree alone. */
  lemma {:induction false} ObjectsKeepTree(w: World, todo: seq<nat>, line: Script)
    requires Local(line) && Runnable(w, todo)
    requires forall i :: i in todo ==> w.journal[i].what.ObjectRow?
    ensures Run(w, todo, line).tree == w.tree
    decreases |todo|
  {
    if todo == [] {
    } else {
      assert Tail(todo);
      StepFrame(w, todo[0], line);
      ObjectsKeepTree(Step(w, todo[0], line), todo[1..], line);
    }
  }

  /** The tree after an empty-into whose lines are all done: every child away, the folder gone. */
  lemma {:induction false} EmptiedTree(w: World, env: Env, fid: Id, kids: seq<Id>, target: Option<Id>, n: nat)
    requires CanEmpty(w.tree, fid, target) && KidsOf(w.tree, fid, kids) && |kids| <= n && |w.journal| == n + 1
    requires DistinctKeys(w.journal)
    requires forall i :: 0 <= i < |kids| ==> w.journal[i] == KidLines(w.tree, kids, target)[i]
    requires forall i :: |kids| <= i < n ==> w.journal[i].what.ObjectRow?
    requires w.journal[n] == DeleteLine(w.tree, fid)
    requires AllDone(Complete(w, env))
    ensures Complete(w, env).tree == Hub(w.tree, fid, fid, KidSet(kids, |kids|), target) - {fid}
  {
    var line := Lines(env, false);
    LinesLocal(env, false);
    KidsLeave(w, env, fid, kids, target, |kids|);
    var u0 := Run(w, Range(0, |kids|), line);
    var u := Run(w, Range(0, n), line);
    RangeSplit(0, |kids|, n);
    RunAppend(w, Range(0, |kids|), Range(|kids|, n), line);
    RunKeepsLines(w, Range(0, |kids|), line);
    ObjectsKeepTree(u0, Range(|kids|, n), line);
    HalfWay(w, line, n);
    assert SameAt(u, w, n);
    RunFromLine(w, line, n, |w.journal|);
    assert Complete(w, env) == Step(u, n, line);
    DeletionRuns(u, n, env, w.tree, fid, kids, target);
  }

  lemma {:induction false} DeletionRuns(u: World, n: nat, env: Env, t: Tree, fid: Id, kids: seq<Id>, target: Option<Id>)
    requires CanEmpty(t, fid, target) && KidsOf(t, fid, kids)
    requires n < |u.journal| && u.journal[n] == DeleteLine(t, fid) && u.tree == Hub(t, fid, fid, KidSet(kids, |kids|), target)
    requires Step(u, n, Lines(env, false)).journal[n].status == Done
    ensures Step(u, n, Lines(env, false)).tree == u.tree - {fid}
  {
    assert forall j :: 0 <= j < |kids| ==> kids[j] in kids;
    HubOk(t, fid, fid, KidSet(kids, |kids|), target);
    DeletionReplays(u.tree, Filed(u), fid, Paths(t)[fid]);
    var (trees, status) := ReplayFolder(u.tree, Filed(u), fid, Some(Paths(t)[fid]), None);
    FolderStep(u, n, env, false, trees, status);
  }

  lemma {:induction false} DeletionReplays(t: Tree, filed: set<Path>, fid: Id, p: Path)
    requires TreeOk(t) && fid in t && Paths(t)[fid] == p
    ensures var (trees, status) := ReplayFolder(t, filed, fid, Some(p), None);
      |trees| <= 1 && (status == Done ==> LastTree(t, trees) == t - {fid})
  {
    PathOfOk(t, fid);
  }

  // --- the tree on the way back -----------------------------------------------------------------

  /** `ensure_path` when only the last level is missing. */
  lemma {:induction false} EnsureLast(t: Tree, next: Id, p: Path, k: nat, parent: Option<Id>, above: Option<Id>)
    requires TreeOk(t) && k < |p| && LevelIs(t, p, k, parent)
    requires forall j :: k < j < |p| ==> IdOf(t, p[..j]).Some?
    requires IdOf(t, p).None?
    requires above.Some? ==> above.value in t
    requires ParentPath(Paths(t), above) == Parent(p)
    ensures EnsureFrom(t, next, p, k, parent) == (t[next := Folder(above, Last(p))], next + 1)
    decreases |p| - k
  {
    if k + 1 == |p| {
      assert p[..k + 1] == p && p[..k] == Parent(p);
      ParentId(t, above);
      if parent.Some? {
        PathOfOk(t, parent.value);
        IdOfView(t, parent.value);
      }
      assert parent == above;
      assert EnsureFrom(t[next := Folder(parent, p[k])], next + 1, p, k + 1, Some(next))
          == (t[next := Folder(parent, p[k])], next + 1);
    } else {
      EnsureLast(t, next, p, k + 1, IdOf(t, p[..k + 1]), above);
    }
  }

  /** The emptied folder is created again where it was, under a new id. */
  lemma {:induction false} FolderRecreated(t: Tree, fid: Id, target: Option<Id>, next: Id)
    requires CanEmpty(t, fid, target) && Fresh(t, next)
    ensures var p := Paths(t)[fid];
      var t1 := Hub(t, fid, fid, Kids(t, fid), target) - {fid};
      EnsurePath(t1, next, p) == Ok((Hub(t, fid, next, Kids(t, fid), target), next + 1))
  {
    var p := Paths(t)[fid];
    var t1 := Hub(t, fid, fid, Kids(t, fid), target) - {fid};
    HubWithoutHub(t, fid, target);
    NameIsLast(t, fid);
    forall j | 0 < j < |p|
      ensures IdOf(t1, p[..j]).Some?
    {
      AncestorStays(t, fid, target, j);
    }
    PlaceVacant(t, fid, target, t1);
    ParentStays(t, fid, target, t1);
    EnsureLast(t1, next, p, 0, None, t[fid].parent);
    HubAgain(t, fid, target, next);
  }

  lemma {:induction false} HubAgain(t: Tree, fid: Id, target: Option<Id>, next: Id)
    requires TreeOk(t) && fid in t && Fresh(t, next)
    ensures (Hub(t, fid, fid, Kids(t, fid), target) - {fid})[next := t[fid]] == Hub(t, fid, next, Kids(t, fid), target)
  {
  }

  lemma {:induction false} PlaceVacant(t: Tree, fid: Id, target: Option<Id>, t1: Tree)
    requires CanEmpty(t, fid, target) && t1.Keys == t.Keys - {fid}
    requires TreeOk(t1) && Paths(t1) == HubView(t, fid, fid, Kids(t, fid), target) - {fid}
    ensures IdOf(t1, Paths(t)[fid]).None?
  {
    var p := Paths(t)[fid];
    if IdOf(t1, p).Some? {
      var x :| x in t1 && PathOf(t1, x) == Some(p);
      PathOfOk(t1, x);
      NothingLeftBelow(t, fid, target, x);
    }
  }

  lemma {:induction false} ParentStays(t: Tree, fid: Id, target: Option<Id>, t1: Tree)
    requires CanEmpty(t, fid, target) && t1.Keys == t.Keys - {fid}
    requires TreeOk(t1) && Paths(t1) == HubView(t, fid, fid, Kids(t, fid), target) - {fid}
    ensures var above := t[fid].parent;
      (above.Some? ==> above.value in t1) && ParentPath(Paths(t1), above) == ParentPath(Paths(t), above)
  {
    assert Row(t, Paths(t), fid);
    if t[fid].parent.Some? {
      NotCarried(t, fid, Kids(t, fid), t[fid].parent.value);
    }
  }

  lemma {:induction false} HubWithoutHub(t: Tree, fid: Id, target: Option<Id>)
    requires CanEmpty(t, fid, target)
    ensures var h := Hub(t, fid, fid, Kids(t, fid), target);
      TreeOk(h - {fid}) && Paths(h - {fid}) == HubView(t, fid, fid, Kids(t, fid), target) - {fid}
  {
    var h := Hub(t, fid, fid, Kids(t, fid), target);
    HubOk(t, fid, fid, Kids(t, fid), target);
    forall x | x in h && x != fid
      ensures !(Paths(h)[fid] <= Paths(h)[x])
    {
      if Paths(h)[fid] <= Paths(h)[x] {
        NothingLeftBelow(t, fid, target, x);
      }
    }
    DeleteDropsOnePath(h, fid);
  }

  lemma {:induction false} PrefixSplit(p: Path, above: Path, y: Path)
    requires above <= y && p <= y && |above| < |y|
    ensures p <= above || y[..|above| + 1] <= p
  {
  }

  /** A carried folder is not below the emptied one. */
  lemma {:induction false} CarriedOutside(t: Tree, fid: Id, target: Option<Id>, x: Id)
    requires CanEmpty(t, fid, target) && x in t && Carried(Paths(t), Kids(t, fid), x)
    ensures !(Paths(t)[fid] <= Place(Paths(t), fid, target, x))
  {
    var v := Paths(t);
    var k := CarriedBelow(t, fid, Kids(t, fid), x);
    var above, y := ParentPath(v, target), Place(v, fid, target, x);
    assert y[..|above| + 1] == above + [t[k].name];
    PlaceIsFree(t, fid, target, k, fid);
    assert Row(t, v, fid);
    assert !(v[fid] <= above);
    if v[fid] <= y {
      PrefixSplit(v[fid], above, y);
    }
  }

  /** Whatever is below the emptied folder leaves with one of its children. */
  lemma {:induction false} BelowIsCarried(t: Tree, fid: Id, x: Id)
    requires TreeOk(t) && fid in t && x in t && Paths(t)[fid] < Paths(t)[x]
    ensures Carried(Paths(t), Kids(t, fid), x)
  {
    var v := Paths(t);
    var a := AncestorAt(t, v, x, v[x][..|v[fid]| + 1]);
    assert Row(t, v, a);
    assert ParentPath(v, t[a].parent) == v[a][..|v[fid]|] == v[fid];
    SameFolder(t, t[a].parent, fid);
  }

  /** Once every child is away, nothing sits at or below the folder. */
  lemma {:induction false} NothingLeftBelow(t: Tree, fid: Id, target: Option<Id>, x: Id)
    requires CanEmpty(t, fid, target) && x in t && x != fid
    ensures !(Paths(t)[fid] <= HubView(t, fid, fid, Kids(t, fid), target)[x])
  {
    if Carried(Paths(t), Kids(t, fid), x) {
      CarriedOutside(t, fid, target, x);
    } else if Paths(t)[fid] <= Paths(t)[x] {
      assert Paths(t)[fid] != Paths(t)[x];
      BelowIsCarried(t, fid, x);
    }
  }

  lemma {:induction false} SameFolder(t: Tree, q: Option<Id>, fid: Id)
    requires TreeOk(t) && fid in t && (q.Some? ==> q.value in t) && ParentPath(Paths(t), q) == Paths(t)[fid]
    ensures q == Some(fid)
  {
    assert Row(t, Paths(t), fid);
  }

  lemma {:induction false} AncestorStays(t: Tree, fid: Id, target: Option<Id>, j: nat)
    requires CanEmpty(t, fid, target) && 0 < j < |Paths(t)[fid]|
    ensures IdOf(Hub(t, fid, fid, Kids(t, fid), target) - {fid}, Paths(t)[fid][..j]).Some?
  {
    var v, prefix := Paths(t), Paths(t)[fid][..j];
    var a := AncestorAt(t, v, fid, prefix);
    NotCarried(t, fid, Kids(t, fid), a);
    HubWithoutHub(t, fid, target);
    IdOfView(Hub(t, fid, fid, Kids(t, fid), target) - {fid}, a);
  }

  /** The journal of an empty-into whose lines are all done. */
  ghost predicate EmptiedMoves(t: Tree, fid: Id, kids: seq<Id>, target: Option<Id>, moves: seq<Line>) {
    && |kids| < |moves|
    && (forall i :: 0 <= i < |kids| ==> moves[i] == KidLines(t, kids, target)[i].(status := Done))
    && (forall i :: |kids| <= i < |moves| - 1 ==> moves[i].what.ObjectRow?)
    && moves[|moves| - 1] == DeleteLine(t, fid).(status := Done)
  }

  /** The line of child `n` put back, on the tree the later children left. */
  lemma {:induction false} ChildLineUndone(t: Tree, fid: Id, kids: seq<Id>, target: Option<Id>, next: Id, n: nat)
    requires CanEmpty(t, fid, target) && KidsOf(t, fid, kids) && n < |kids| && next !in t && kids[n] in t
    ensures var h := Hub(t, fid, next, KidSet(kids, n + 1), target);
      && PathOf(h, kids[n]) == Some(NewPlace(t, kids[n], target))
      && Relocate(h, kids[n], NewPlace(t, kids[n], target), Paths(t)[kids[n]])
         == ([Hub(t, fid, next, KidSet(kids, n), target)], Done)
  {
    var k, h := kids[n], Hub(t, fid, next, KidSet(kids, n + 1), target);
    KidSetStep(t, fid, kids, n);
    KidSetWithin(t, fid, kids, n + 1);
    ChildReturns(t, fid, next, KidSet(kids, n + 1), target, k);
    KidPath(t, fid, k);
    PathOfOk(h, k);
    HubStep(t, fid, next, KidSet(kids, n + 1), target, k);
    LeafLast(ParentPath(Paths(t), target), t[k].name);
    assert Row(t, Paths(t), fid);
    RelocateMoves(h, k, Some(next), Hub(t, fid, next, KidSet(kids, n), target));
  }

  lemma {:induction false} KidSetWithin(t: Tree, fid: Id, kids: seq<Id>, n: nat)
    requires KidsOf(t, fid, kids) && n <= |kids|
    ensures KidSet(kids, n) <= Kids(t, fid)
    ensures n > 0 ==> kids[n - 1] in KidSet(kids, n)
  {
    assert forall j :: 0 <= j < n ==> kids[j] in kids;
  }

  lemma {:induction false} KidSetAll(t: Tree, fid: Id, kids: seq<Id>)
    requires KidsOf(t, fid, kids) && forall k :: k in Kids(t, fid) ==> k in kids
    ensures KidSet(kids, |kids|) == Kids(t, fid)
  {
    KidSetWithin(t, fid, kids, |kids|);
    forall k | k in Kids(t, fid)
      ensures k in KidSet(kids, |kids|)
    {
      var j :| 0 <= j < |kids| && kids[j] == k;
    }
  }

  lemma {:induction false} UndoStep(w: World, moves: seq<Line>, n: nat)
    requires 0 < n <= |moves| && UndoesFolder(moves[n - 1]) && UndoFolder(w, moves[n - 1]).1
    ensures UndoFolders(w, moves, n) == UndoFolders(UndoFolder(w, moves[n - 1]).0, moves, n - 1)
  {
    hide UndoesFolder, UndoFolder;
  }

  lemma {:induction false} FolderBack(w: World, m: Line, t: Tree)
    requires m.what.FolderRow? && m.from.Some? && m.to.Some? && PathOf(w.tree, m.what.id) == m.to
    requires Relocate(w.tree, m.what.id, m.to.value, m.from.value) == ([t], Done)
    ensures UndoFolder(w, m).1 && UndoFolder(w, m).0.tree == t
  {
    hide Relocate, PathOf;
  }

  lemma {:induction false} ChildMoved(t: Tree, fid: Id, kids: seq<Id>, target: Option<Id>, moves: seq<Line>, n: nat)
    requires CanEmpty(t, fid, target) && KidsOf(t, fid, kids) && EmptiedMoves(t, fid, kids, target, moves) && n < |kids| < |moves|
    ensures kids[n] in t && kids[n] in Paths(t)
    ensures moves[n] == Line(FolderRow(kids[n]), Some(Paths(t)[kids[n]]), Some(NewPlace(t, kids[n], target)), Done)
  {
    assert kids[n] in kids && moves[n] == KidLines(t, kids, target)[n].(status := Done);
    KidHasPath(t, fid, target, kids[n]);
    assert At(Paths(t), kids[n]) == Paths(t)[kids[n]];
  }

  /** The last of the children that are away comes back. */
  lemma {:induction false} KidLineBack(w: World, t: Tree, fid: Id, kids: seq<Id>, target: Option<Id>, next: Id, moves: seq<Line>, n: nat)
    returns (w1: World)
    requires CanEmpty(t, fid, target) && KidsOf(t, fid, kids) && fid in t && next !in t
    requires EmptiedMoves(t, fid, kids, target, moves) && 0 < n <= |kids| < |moves|
    requires w.tree == Hub(t, fid, next, KidSet(kids, n), target)
    ensures w1.tree == Hub(t, fid, next, KidSet(kids, n - 1), target)
    ensures UndoFolders(w, moves, n) == UndoFolders(w1, moves, n - 1)
  {
    hide CanEmpty, Hub, UndoFolders, EmptiedMoves, KidsOf, KidSet, Relocate, UndoFolder, Paths;
    ChildMoved(t, fid, kids, target, moves, n - 1);
    ChildLineUndone(t, fid, kids, target, next, n - 1);
    FolderBack(w, moves[n - 1], Hub(t, fid, next, KidSet(kids, n - 1), target));
    w1 := UndoFolder(w, moves[n - 1]).0;
    UndoStep(w, moves, n);
  }

  lemma {:induction false} NoneUndone(w: World, moves: seq<Line>, kids: seq<Id>)
    ensures UndoFolders(w, moves, 0) == (w, []) && KidSet(kids, 0) == {}
  {
  }

  /** The children come back one by one, last first, and none is stuck. */
  lemma {:induction false} KidsReturn(w: World, t: Tree, fid: Id, kids: seq<Id>, target: Option<Id>, next: Id, moves: seq<Line>, n: nat)
    requires CanEmpty(t, fid, target) && KidsOf(t, fid, kids) && fid in t && next !in t
    requires EmptiedMoves(t, fid, kids, target, moves) && n <= |kids| < |moves|
    requires w.tree == Hub(t, fid, next, KidSet(kids, n), target)
    ensures var (r, stuck) := UndoFolders(w, moves, n); r.tree == Hub(t, fid, next, {}, target) && stuck == []
    decreases n
  {
    hide CanEmpty, Hub, UndoFolder, UndoesFolder, EmptiedMoves, KidsOf, KidSet, UndoFolders;
    if n == 0 {
      NoneUndone(w, moves, kids);
    } else {
      var w1 := KidLineBack(w, t, fid, kids, target, next, moves, n);
      KidsReturn(w1, t, fid, kids, target, next, moves, n - 1);
    }
  }

  lemma {:induction false} KidHasPath(t: Tree, fid: Id, target: Option<Id>, k: Id)
    requires CanEmpty(t, fid, target) && k in t
    ensures k in Paths(t)
  {
  }

  lemma {:induction false} ObjectRowsSkipped(w: World, moves: seq<Line>, low: nat, n: nat)
    requires low <= n <= |moves| && forall i :: low <= i < n ==> moves[i].what.ObjectRow?
    ensures UndoFolders(w, moves, n) == UndoFolders(w, moves, low)
    decreases n
  {
    if n > low {
      ObjectRowsSkipped(w, moves, low, n - 1);
    }
  }

  /** The folders of an empty-into put back: the folder under a new id, all its children below it. */
  lemma {:induction false} FoldersReturn(w: World, t: Tree, fid: Id, kids: seq<Id>, target: Option<Id>, moves: seq<Line>)
    requires CanEmpty(t, fid, target) && KidsOf(t, fid, kids) && fid in t && Fresh(t, w.nextId)
    requires forall k :: k in Kids(t, fid) ==> k in kids
    requires EmptiedMoves(t, fid, kids, target, moves)
    requires w.tree == Hub(t, fid, fid, Kids(t, fid), target) - {fid}
    ensures var (r, stuck) := UndoFolders(w, moves, |moves|);
      r.tree == Hub(t, fid, w.nextId, {}, target) && stuck == []
  {
    hide CanEmpty, Hub;
    var n := |moves| - 1;
    var next := w.nextId;
    FolderRecreated(t, fid, target, next);
    KidHasPath(t, fid, target, fid);
    var (w1, ok) := UndoFolder(w, moves[n]);
    assert ok && UndoesFolder(moves[n]);
    assert w1.tree == Hub(t, fid, next, Kids(t, fid), target);
    ObjectRowsSkipped(w1, moves, |kids|, n);
    KidSetAll(t, fid, kids);
    KidsReturn(w1, t, fid, kids, target, next, moves, |kids|);
  }
}
