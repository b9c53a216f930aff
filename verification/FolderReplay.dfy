/** Replaying a folder line (bin/harvester-folders.py, replay_folder_line). */
module FolderReplay {
  import Text
  import opened Wrappers
  import opened FolderPaths
  import opened FolderTree
  import opened FolderRuns
  import opened FolderLines

  ghost function LastTree(t: Tree, trees: seq<Tree>): Tree {
    if trees == [] then t else trees[|trees| - 1]
  }

  lemma {:induction false} PathOfOk(t: Tree, id: Id)
    requires TreeOk(t)
    ensures PathOf(t, id) == (if id in t then Some(Paths(t)[id]) else None)
  {
    if id in t {
      IdOfView(t, id);
    }
  }

  lemma {:induction false} NameIsLast(t: Tree, id: Id)
    requires TreeOk(t) && id in t
    ensures Paths(t)[id] != [] && t[id].name == Last(Paths(t)[id])
    ensures Paths(t)[id] == Parent(Paths(t)[id]) + [t[id].name]
    ensures t[id].parent.Some? ==> t[id].parent.value in t
    ensures ParentPath(Paths(t), t[id].parent) == Parent(Paths(t)[id])
  {
    assert Row(t, Paths(t), id);
  }

  lemma {:induction false} MoveUnderKeeps(t: Tree, id: Id, cur: Path, above: Path)
    requires TreeOk(t) && id in t && Paths(t)[id] == cur && MoveUnder(t, id, cur, above).Ok?
    ensures var t1 := MoveUnder(t, id, cur, above).value;
      && TreeOk(t1) && t1.Keys == t.Keys
      && Paths(t1)[id] == above + [Last(cur)] && PathOf(t1, id) == Some(above + [Last(cur)])
      && (Parent(cur) != above ==> Paths(t1) == Moved(Paths(t), cur, above + [Last(cur)]))
  {
    NameIsLast(t, id);
    if Parent(cur) == above {
      IdOfView(t, id);
    } else {
      var parent := if above == [] then None else IdOf(t, above);
      MoveKeeps(t, id, parent);
      if above != [] {
        PathOfOk(t, parent.value);
      }
      IdOfView(MoveUnder(t, id, cur, above).value, id);
    }
  }

  lemma {:induction false} RenameToKeeps(t: Tree, id: Id, cur: Path, name: string)
    requires TreeOk(t) && id in t && Last(Paths(t)[id]) == Last(cur) && RenameTo(t, id, cur, name).Ok?
    ensures var t2 := RenameTo(t, id, cur, name).value;
      && TreeOk(t2) && t2.Keys == t.Keys && PathOf(t2, id) == Some(Parent(Paths(t)[id]) + [name])
  {
    NameIsLast(t, id);
    if Last(cur) == name {
      IdOfView(t, id);
    } else {
      RenameKeeps(t, id, name);
    }
  }

  lemma {:induction false} TwoStepsEnd(t: Tree, first: Result<Tree, Error>, second: Result<Tree, Error>, a: bool, b: bool)
    requires first.Ok? && !a ==> first.value == t
    requires first.Ok? && second.Ok? && !b ==> second.value == first.value
    ensures var (trees, status) := TwoSteps(first, second, a, b);
      && (status == Done <==> first.Ok? && second.Ok?)
      && (status == Done ==> LastTree(t, trees) == second.value)
      && (forall t' :: t' in trees ==> first.Ok? && (t' == first.value || (second.Ok? && t' == second.value)))
      && ((|trees| == 2 || (status == Failed && trees != [])) ==> a && (b || second.Err?))
      && (status == Failed ==> |trees| <= 1)
  {
  }

  /** Where the folder is after the trees a line commits, and which lines can stop half way. */
  lemma {:induction false} RelocateWalks(t: Tree, id: Id, cur: Path, dest: Path)
    requires TreeOk(t) && dest != [] && id in t && Paths(t)[id] == cur && cur != dest
    ensures var (trees, status) := Relocate(t, id, cur, dest);
      && (forall t' :: t' in trees ==> TreeOk(t'))
      && (status == Done ==> PathOf(LastTree(t, trees), id) == Some(dest))
      && ((|trees| == 2 || (status == Failed && trees != [])) ==> Parent(cur) != Parent(dest) && Last(cur) != Last(dest))
      && (status == Failed ==> |trees| <= 1)
  {
    assert dest == Parent(dest) + [Last(dest)];
    var moved := MoveUnder(t, id, cur, Parent(dest));
    var renamed := if moved.Ok? then RenameTo(moved.value, id, cur, Last(dest)) else moved;
    hide TreeOk, Paths, PathOf, Move, Rename, IdOf, Moved;
    if moved.Ok? {
      MoveUnderKeeps(t, id, cur, Parent(dest));
      if renamed.Ok? {
        RenameToKeeps(moved.value, id, cur, Last(dest));
      }
    }
    TwoStepsEnd(t, moved, renamed, Parent(cur) != Parent(dest), Last(cur) != Last(dest));
  }

  lemma {:induction false} ReplayWalks(t: Tree, filed: set<Path>, id: Id, from: Option<Path>, dest: Path)
    requires TreeOk(t) && dest != []
    ensures var (trees, status) := ReplayFolder(t, filed, id, from, Some(dest));
      && (forall t' :: t' in trees ==> TreeOk(t'))
      && (status == Done ==> PathOf(LastTree(t, trees), id) == Some(dest))
      && (trees != [] ==> from.Some?)
      && ((|trees| == 2 || (status == Failed && trees != [])) ==>
            Parent(from.value) != Parent(dest) && Last(from.value) != Last(dest))
      && (status == Failed ==> |trees| <= 1)
  {
    PathOfOk(t, id);
    var cur := PathOf(t, id);
    if cur == from && cur.Some? && cur != Some(dest) {
      RelocateWalks(t, id, cur.value, dest);
    }
  }

  /** Done means the folder is at the target, or gone for a deletion; replaying then changes nothing. */
  lemma {:induction false} ReplayDone(t: Tree, filed: set<Path>, id: Id, from: Option<Path>, to: Option<Path>)
    requires TreeOk(t) && (to.Some? ==> to.value != [])
    requires ReplayFolder(t, filed, id, from, to).1 == Done
    ensures var t' := LastTree(t, ReplayFolder(t, filed, id, from, to).0);
      TreeOk(t') && PathOf(t', id) == to && forall again :: ReplayFolder(t', again, id, from, to) == ([], Done)
  {
    PathOfOk(t, id);
    if to.Some? {
      ReplayWalks(t, filed, id, from, to.value);
    } else if DeleteEmpty(t, filed, id).Ok? {
      DeleteKeeps(t, filed, id);
      PathOfOk(DeleteEmpty(t, filed, id).value, id);
    }
  }

  /** A line that changes one thing is atomic: it commits at most one tree, none when it fails. */
  lemma {:induction false} SingleChangeIsAtomic(t: Tree, filed: set<Path>, id: Id, from: Path, to: Option<Path>)
    requires TreeOk(t)
    requires to.Some? ==> to.value != [] && (Parent(from) == Parent(to.value) || Last(from) == Last(to.value))
    ensures var (trees, status) := ReplayFolder(t, filed, id, Some(from), to);
      |trees| <= 1 && (status == Failed ==> trees == [])
  {
    if to.Some? {
      ReplayWalks(t, filed, id, Some(from), to.value);
    }
  }

  // --- lines that change both parent and name ----------------------------------------

  lemma {:induction false} SiblingIsPath(t: Tree, id: Id, name: string)
    requires TreeOk(t) && id in t
    ensures (exists x :: x in t && x != id && t[x].parent == t[id].parent && t[x].name == name)
       <==> (exists x :: x in t && x != id && Paths(t)[x] == Parent(Paths(t)[id]) + [name])
  {
    var v := Paths(t);
    NameIsLast(t, id);
    forall x | x in t && x != id
      ensures t[x].parent == t[id].parent && t[x].name == name <==> v[x] == Parent(v[id]) + [name]
    {
      NameIsLast(t, x);
      if v[x] == Parent(v[id]) + [name] {
        assert Parent(v[x]) == Parent(v[id]);
        SameParent(t, v, t[x].parent, t[id].parent);
      }
    }
  }

  lemma {:induction false} RenameFailsIff(t: Tree, id: Id, name: string)
    requires TreeOk(t) && id in t
    ensures var dest := Parent(Paths(t)[id]) + [name];
      Rename(t, id, name).Err? <==>
        || (exists x :: x in t && x != id && Paths(t)[x] == dest)
        || (exists x :: x in t && Paths(t)[id] <= Paths(t)[x] && !ValidPath(dest + Paths(t)[x][|Paths(t)[id]|..]))
  {
    var v := Paths(t);
    var dest := Parent(v[id]) + [name];
    NameIsLast(t, id);
    SiblingIsPath(t, id, name);
    if !ValidName(name) {
      assert v[id][|v[id]|..] == [] && dest + [] == dest && dest[|dest| - 1] == name && name in dest;
      assert !ValidPath(dest + v[id][|v[id]|..]);
    }
  }

  lemma {:induction false} ChildIsPath(t: Tree, x: Id, parent: Option<Id>, name: string)
    requires TreeOk(t) && x in t && (parent.Some? ==> parent.value in t)
    ensures t[x].parent == parent && t[x].name == name <==> Paths(t)[x] == ParentPath(Paths(t), parent) + [name]
  {
    var v := Paths(t);
    assert Row(t, v, x);
    NameIsLast(t, x);
    if v[x] == ParentPath(v, parent) + [name] {
      assert ParentPath(v, t[x].parent) == v[x][..|v[x]| - 1] == ParentPath(v, parent);
      SameParent(t, v, t[x].parent, parent);
    }
  }

  /** When a move under a folder that exists is refused: into itself, onto a path that is taken, or out of bounds. */
  lemma {:induction false} MoveFailsIff(t: Tree, id: Id, parent: Option<Id>)
    requires TreeOk(t) && id in t && (parent.Some? ==> parent.value in t)
    ensures var v := Paths(t);
      var dest := ParentPath(v, parent) + [t[id].name];
      Move(t, id, parent).Err? <==>
        || (parent.Some? && v[id] <= v[parent.value])
        || (exists x :: x in t && x != id && v[x] == dest)
        || (exists x :: x in t && v[id] <= v[x] && !ValidPath(dest + v[x][|v[id]|..]))
  {
    forall x | x in t
      ensures t[x].parent == parent && t[x].name == t[id].name <==> Paths(t)[x] == ParentPath(Paths(t), parent) + [t[id].name]
    {
      ChildIsPath(t, x, parent, t[id].name);
    }
  }

  /** What the accepted move puts under the new path: the subtree, suffix by suffix, and nothing else. */
  lemma {:induction false} MoveSuffixes(t: Tree, id: Id, cur: Path, above: Path)
    requires TreeOk(t) && id in t && Paths(t)[id] == cur && Parent(cur) != above && MoveUnder(t, id, cur, above).Ok?
    ensures var v, mid, v1 := Paths(t), above + [Last(cur)], Moved(Paths(t), cur, above + [Last(cur)]);
      && !(cur <= above)
      && forall x :: x in v ==> (mid <= v1[x] <==> cur <= v[x]) && (cur <= v[x] ==> v1[x][|mid|..] == v[x][|cur|..])
  {
    NameIsLast(t, id);
    var parent := if above == [] then None else IdOf(t, above);
    if above != [] {
      PathOfOk(t, parent.value);
    }
    NewPathIsFree(t, id, parent, t[id].name);
  }

  /**
   * A line that changes both: once the move is accepted, the line fails with
   * the folder half way exactly when the target path is taken by another
   * folder or some path of the subtree would be out of bounds there.
   */
  lemma {:induction false} HalfMoveIff(t: Tree, filed: set<Path>, id: Id, dest: Path)
    requires TreeOk(t) && id in t && dest != []
    requires var cur := Paths(t)[id];
      Parent(cur) != Parent(dest) && Last(cur) != Last(dest) && MoveUnder(t, id, cur, Parent(dest)).Ok?
    ensures var v := Paths(t);
      var (trees, status) := ReplayFolder(t, filed, id, Some(v[id]), Some(dest));
      && trees != [] && PathOf(trees[0], id) == Some(Parent(dest) + [Last(v[id])])
      && (status == Failed <==>
            || (exists x :: x in t && x != id && v[x] == dest)
            || (exists x :: x in t && v[id] <= v[x] && !ValidPath(dest + v[x][|v[id]|..])))
  {
    var v := Paths(t);
    var cur := v[id];
    PathOfOk(t, id);
    var moved := MoveUnder(t, id, cur, Parent(dest)).value;
    assert ReplayFolder(t, filed, id, Some(cur), Some(dest)) == Relocate(t, id, cur, dest);
    MoveUnderKeeps(t, id, cur, Parent(dest));
    MoveSuffixes(t, id, cur, Parent(dest));
    HalfMoveRename(v, moved, id, cur, dest);
  }

  lemma {:induction false} HalfMoveRename(v: View, t1: Tree, id: Id, cur: Path, dest: Path)
    requires TreeOk(t1) && dest != [] && id in v && v[id] == cur && cur != [] && Last(cur) != Last(dest) && !(cur <= Parent(dest))
    requires var mid := Parent(dest) + [Last(cur)];
      && Paths(t1) == Moved(v, cur, mid)
      && forall x :: x in v ==> (mid <= Paths(t1)[x] <==> cur <= v[x]) && (cur <= v[x] ==> Paths(t1)[x][|mid|..] == v[x][|cur|..])
    ensures Rename(t1, id, Last(dest)).Err? <==>
        || (exists x :: x in v && x != id && v[x] == dest)
        || (exists x :: x in v && cur <= v[x] && !ValidPath(dest + v[x][|cur|..]))
  {
    var v1, mid := Paths(t1), Parent(dest) + [Last(cur)];
    assert id in t1 && mid + [] == mid && v1[id] == mid && Parent(mid) == Parent(dest);
    assert dest == Parent(dest) + [Last(dest)];
    RenameFailsIff(t1, id, Last(dest));
    forall x | x in v && x != id
      ensures v1[x] == dest <==> v[x] == dest
    {
      HalfMoveTaken(v, id, x, mid, dest);
    }
  }

  lemma {:induction false} HalfMoveTaken(v: View, id: Id, x: Id, mid: Path, dest: Path)
    requires id in v && x in v && v[id] != [] && dest != []
    requires mid == Parent(dest) + [Last(v[id])] && Last(v[id]) != Last(dest) && !(v[id] <= Parent(dest))
    ensures Moved(v, v[id], mid)[x] == dest <==> v[x] == dest
  {
    if v[id] <= v[x] {
      var y := Moved(v, v[id], mid)[x];
      assert y[|mid| - 1] == Last(v[id]);
      assert dest[|mid| - 1] == Last(dest);
      assert y != dest;
    }
  }

  /** `/a`, `/b` and `/b/c`. */
  lemma {:induction false} SmallTree() returns (t: Tree)
    ensures t == map[1 := Folder(None, "a"), 2 := Folder(None, "b"), 3 := Folder(Some(2), "c")]
    ensures TreeOk(t) && Paths(t) == map[1 := ["a"], 2 := ["b"], 3 := ["b", "c"]]
  {
    t := map[1 := Folder(None, "a"), 2 := Folder(None, "b"), 3 := Folder(Some(2), "c")];
    var v: View := map[1 := ["a"], 2 := ["b"], 3 := ["b", "c"]];
    assert Row(t, v, 1) && Row(t, v, 2) && Row(t, v, 3);
    forall id | id in v ensures ValidPath(v[id]) {
      ShortPathValid(v[id]);
    }
    ViewGivesTreeOk(t, v);
  }

  lemma {:induction false} SmallTreeMoves(t: Tree)
    requires t == map[1 := Folder(None, "a"), 2 := Folder(None, "b"), 3 := Folder(Some(2), "c")]
    requires TreeOk(t) && Paths(t) == map[1 := ["a"], 2 := ["b"], 3 := ["b", "c"]]
    ensures IdOf(t, ["b"]) == Some(2) && Move(t, 1, Some(2)).Ok?
  {
    var v := Paths(t);
    IdOfView(t, 2);
    var new_ := ParentPath(v, Some(2)) + ["a"];
    assert new_ == ["b", "a"] && new_ + [] == new_;
    ShortPathValid(new_);
    assert forall x :: x in t && v[1] <= v[x] ==> x == 1;
    assert v[1][1..] == [];
  }

  /** `/a` going to `/b/c` where `/b/c` exists: the line fails and `/a` is left at `/b/a`. */
  lemma {:induction false} BothChangesNotAtomic() returns (t: Tree)
    ensures TreeOk(t) && 1 in t && Paths(t)[1] == ["a"]
    ensures var (trees, status) := ReplayFolder(t, {}, 1, Some(["a"]), Some(["b", "c"]));
      status == Failed && trees != [] && PathOf(trees[0], 1) == Some(["b", "a"])
  {
    t := SmallTree();
    SmallTreeMoves(t);
    var dest := ["b", "c"];
    assert Parent(dest) == ["b"] && Parent(["a"]) == [] && ["b"] + ["a"] == ["b", "a"];
    HalfMoveIff(t, {}, 1, dest);
    assert Paths(t)[3] == dest;
  }

  lemma {:induction false} ShortPathValid(p: Path)
    requires 1 <= |p| <= 2 && forall s :: s in p ==> s == "a" || s == "b" || s == "c"
    ensures ValidPath(p)
  {
    assert p[0] in p;
    if |p| == 2 {
      Text.JoinAppend([p[0]], [p[1]], '/');
      assert p == [p[0]] + [p[1]] && p[1] in p;
    } else {
      assert p == [p[0]];
    }
  }

  // --- the tree stays well formed --------------------------------------------------------

  lemma {:induction false} LineKeepsTree(w: World, i: nat, env: Env, strict: bool)
    requires TreeOk(w.tree) && i < |w.journal|
    ensures forall e :: e in LineEffects(w, i, env, strict) && e.Retree? ==> TreeOk(e.tree)
  {
    var m := w.journal[i];
    if m.what.FolderRow? {
      if m.to.Some? && m.to.value != [] {
        ReplayWalks(w.tree, Filed(w), m.what.id, m.from, m.to.value);
      } else if DeleteEmpty(w.tree, Filed(w), m.what.id).Ok? {
        DeleteKeeps(w.tree, Filed(w), m.what.id);
      }
    }
  }

  /** A folder line that commits one tree at most leaves that tree and its status. */
  lemma {:induction false} FolderStep(u: World, i: nat, env: Env, strict: bool, trees: seq<Tree>, status: Status)
    requires i < |u.journal| && u.journal[i].what.FolderRow? && |trees| <= 1
    requires var m := u.journal[i]; ReplayFolder(u.tree, Filed(u), m.what.id, m.from, m.to) == (trees, status)
    ensures var s := Step(u, i, Lines(env, strict)); s.tree == LastTree(u.tree, trees) && s.journal[i].status == status
  {
    if trees == [] {
      assert LineEffects(u, i, env, strict) == [Mark(i, status)];
      ApplyOne(u, Mark(i, status));
    } else {
      assert LineEffects(u, i, env, strict) == [Retree(trees[0]), Mark(i, status)];
      ApplyTwo(u, Retree(trees[0]), Mark(i, status));
    }
  }

  lemma {:induction false} ApplyKeepsTree(w: World, es: seq<Effect>)
    requires TreeOk(w.tree) && forall e :: e in es && e.Retree? ==> TreeOk(e.tree)
    ensures TreeOk(ApplyAll(w, es).tree)
    decreases |es|
  {
    if es == [] {
    } else {
      assert es[0] in es;
      assert forall e :: e in es[1..] ==> e in es;
      ApplyKeepsTree(Apply(w, es[0]), es[1..]);
    }
  }

  /** No run ever breaks the tree. */
  lemma {:induction false} RunKeepsTree(w: World, todo: seq<nat>, env: Env, strict: bool)
    requires TreeOk(w.tree) && Runnable(w, todo)
    ensures TreeOk(Run(w, todo, Lines(env, strict)).tree)
    decreases |todo|
  {
    if todo == [] {
    } else {
      assert Tail(todo);
      LineKeepsTree(w, todo[0], env, strict);
      ApplyKeepsTree(w, LineEffects(w, todo[0], env, strict));
      RunKeepsTree(Step(w, todo[0], Lines(env, strict)), todo[1..], env, strict);
    }
  }
}
