/**
 * The folder tree (bin/lib/folders.py, bin/lib/folders_db.py): one row per
 * folder, each with its parent and name. Every rule of the program speaks of
 * paths; `Paths` computes them by walking up the parents.
 */
module FolderTree {
  import opened Wrappers
  import opened FolderPaths

  type Id = int
  datatype Folder = Folder(parent: Option<Id>, name: string)
  type Tree = map<Id, Folder>
  type View = map<Id, Path>
  datatype Error = Invalid | NotFound | Conflict | NonEmpty

  // --- paths -------------------------------------------------------------

  /** `path_of` inside `paths`; None where the program raises (loop or missing parent). */
  function PathFrom(t: Tree, id: Id, seen: set<Id>): Option<Path>
    decreases t.Keys - seen
  {
    if id !in t || id in seen then None
    else
      match t[id].parent
      case None => Some([t[id].name])
      case Some(p) =>
        match PathFrom(t, p, seen + {id})
        case None => None
        case Some(above) => Some(above + [t[id].name])
  }

  function PathOf(t: Tree, id: Id): Option<Path> {
    PathFrom(t, id, {})
  }

  function Paths(t: Tree): View {
    map id | id in t && PathOf(t, id).Some? :: PathOf(t, id).value
  }

  /** `parent_path`, the root being the empty path. */
  function Parent(p: Path): Path {
    if p == [] then [] else p[..|p| - 1]
  }

  /** `split(path)[-1]` */
  function Last(p: Path): string {
    if p == [] then "" else p[|p| - 1]
  }

  /** The path of a folder, empty when it has none. */
  function At(v: View, id: Id): Path {
    if id in v then v[id] else []
  }

  function ParentPath(v: View, parent: Option<Id>): Path {
    if parent.None? then [] else At(v, parent.value)
  }

  /** `v` gives each folder its parent's path followed by its own name. */
  ghost predicate IsView(t: Tree, v: View) {
    && v.Keys == t.Keys
    && forall id {:trigger Row(t, v, id)} :: id in t ==> Row(t, v, id)
  }

  ghost predicate Row(t: Tree, v: View, id: Id)
    requires v.Keys == t.Keys && id in t
  {
    && (t[id].parent.Some? ==> t[id].parent.value in t)
    && v[id] == ParentPath(v, t[id].parent) + [t[id].name]
  }

  ghost predicate Injective(v: View) {
    forall a, b :: a in v && b in v && v[a] == v[b] ==> a == b
  }

  /** No loop, no lost parent, no two siblings of one name, every path within bounds. */
  ghost predicate TreeOk(t: Tree) {
    && IsView(t, Paths(t))
    && Injective(Paths(t))
    && forall id :: id in t ==> ValidPath(Paths(t)[id])
  }

  lemma {:induction false} PathFromView(t: Tree, v: View, id: Id, seen: set<Id>)
    requires IsView(t, v) && id in t
    requires forall x :: x in seen ==> x in t && |v[x]| > |v[id]|
    ensures PathFrom(t, id, seen) == Some(v[id])
    decreases |v[id]|
  {
    assert Row(t, v, id);
    assert [] + [t[id].name] == [t[id].name];
    if t[id].parent.Some? {
      PathFromView(t, v, t[id].parent.value, seen + {id});
    }
  }

  /** A tree has one view at most: the walk finds it. */
  lemma {:induction false} ViewIsPaths(t: Tree, v: View)
    requires IsView(t, v)
    ensures Paths(t) == v
  {
    forall id | id in t
      ensures PathOf(t, id) == Some(v[id])
    {
      PathFromView(t, v, id, {});
    }
  }

  lemma {:induction false} ViewGivesTreeOk(t: Tree, v: View)
    requires IsView(t, v) && Injective(v) && forall id :: id in v ==> ValidPath(v[id])
    ensures TreeOk(t) && Paths(t) == v
  {
    ViewIsPaths(t, v);
  }

  /** The folder whose path is `p` (`id_of`). */
  ghost function IdOf(t: Tree, p: Path): Option<Id> {
    if id :| id in t && PathOf(t, id) == Some(p) then Some(id) else None
  }

  lemma {:induction false} IdOfView(t: Tree, id: Id)
    requires TreeOk(t) && id in t
    ensures PathOf(t, id) == Some(Paths(t)[id])
    ensures IdOf(t, Paths(t)[id]) == Some(id)
  {
    var p := Paths(t)[id];
    assert PathOf(t, id) == Some(p);
    var found :| IdOf(t, p) == Some(found) && found in t && PathOf(t, found) == Some(p);
    assert found in Paths(t);
  }

  // --- renaming and moving -------------------------------------------------

  /** `new + p[len(old):]` for every folder under `old`. */
  function Moved(v: View, old_: Path, new_: Path): View {
    map id | id in v :: if old_ <= v[id] then new_ + v[id][|old_|..] else v[id]
  }

  /** Gives a folder another parent or name, checked as `_check_moved` and the sibling index do. */
  function Relink(t: Tree, id: Id, parent: Option<Id>, name: string): Result<Tree, Error> {
    var v := Paths(t);
    var new_ := ParentPath(v, parent) + [name];
    if exists x :: x in v && At(v, id) <= v[x] && !ValidPath(new_ + v[x][|At(v, id)|..]) then Err(Invalid)
    else if exists x :: x in t && x != id && t[x].parent == parent && t[x].name == name then Err(Conflict)
    else Ok(t[id := Folder(parent, name)])
  }

  function Rename(t: Tree, id: Id, name: string): Result<Tree, Error> {
    if !ValidName(name) then Err(Invalid)
    else if id !in t then Err(NotFound)
    else Relink(t, id, t[id].parent, name)
  }

  /** `move_folder`: never under itself or one of its descendants. */
  function Move(t: Tree, id: Id, parent: Option<Id>): Result<Tree, Error> {
    if id !in t || (parent.Some? && parent.value !in t) then Err(NotFound)
    else if parent.Some? && At(Paths(t), id) <= At(Paths(t), parent.value) then Err(Invalid)
    else Relink(t, id, parent, t[id].name)
  }

  lemma {:induction false} RenameKeeps(t: Tree, id: Id, name: string)
    requires TreeOk(t) && Rename(t, id, name).Ok?
    ensures var t' := Rename(t, id, name).value;
      && TreeOk(t') && t'.Keys == t.Keys && id in t
      && PathOf(t', id) == Some(Parent(Paths(t)[id]) + [name])
      && Paths(t') == Moved(Paths(t), Paths(t)[id], Parent(Paths(t)[id]) + [name])
  {
    assert Row(t, Paths(t), id);
    assert t[id].parent.Some? ==> |Paths(t)[t[id].parent.value]| < |Paths(t)[id]|;
    assert ParentPath(Paths(t), t[id].parent) == Parent(Paths(t)[id]);
    RelinkRewritesPaths(t, id, t[id].parent, name);
    MovedPath(t, id, Rename(t, id, name).value, Parent(Paths(t)[id]) + [name]);
  }

  lemma {:induction false} MoveKeeps(t: Tree, id: Id, parent: Option<Id>)
    requires TreeOk(t) && Move(t, id, parent).Ok?
    ensures var t' := Move(t, id, parent).value;
      && TreeOk(t') && t'.Keys == t.Keys && id in t && (parent.Some? ==> parent.value in t)
      && PathOf(t', id) == Some(ParentPath(Paths(t), parent) + [t[id].name])
      && Paths(t') == Moved(Paths(t), Paths(t)[id], ParentPath(Paths(t), parent) + [t[id].name])
  {
    RelinkRewritesPaths(t, id, parent, t[id].name);
    MovedPath(t, id, Move(t, id, parent).value, ParentPath(Paths(t), parent) + [t[id].name]);
  }

  lemma {:induction false} MovedPath(t: Tree, id: Id, t': Tree, new_: Path)
    requires TreeOk(t) && TreeOk(t') && id in t && id in t'
    requires Paths(t') == Moved(Paths(t), Paths(t)[id], new_)
    ensures PathOf(t', id) == Some(new_)
  {
    assert new_ + [] == new_;
    IdOfView(t', id);
  }

  lemma {:induction false} MovedIsView(t: Tree, id: Id, parent: Option<Id>, name: string, new_: Path)
    requires TreeOk(t) && id in t
    requires parent.Some? ==> parent.value in t && !(Paths(t)[id] <= Paths(t)[parent.value])
    requires new_ == ParentPath(Paths(t), parent) + [name]
    ensures IsView(t[id := Folder(parent, name)], Moved(Paths(t), Paths(t)[id], new_))
  {
    var v, t' := Paths(t), t[id := Folder(parent, name)];
    var v' := Moved(v, v[id], new_);
    forall x | x in t'
      ensures Row(t', v', x)
    {
      assert Row(t, v, x) && Row(t, v, id);
      if x == id {
        assert v'[x] == new_ + [] == new_;
      } else if t[x].parent.Some? {
        MovedStep(t, v, x, id, new_);
      }
    }
  }

  /** Updating one row rewrites the prefix of every path below it and of no other. */
  lemma {:induction false} RelinkRewritesPaths(t: Tree, id: Id, parent: Option<Id>, name: string)
    requires TreeOk(t) && id in t
    requires parent.Some? ==> parent.value in t && !(Paths(t)[id] <= Paths(t)[parent.value])
    requires Relink(t, id, parent, name).Ok?
    ensures var t' := Relink(t, id, parent, name).value;
      var new_ := ParentPath(Paths(t), parent) + [name];
      TreeOk(t') && t'.Keys == t.Keys && Paths(t') == Moved(Paths(t), Paths(t)[id], new_)
  {
    var v := Paths(t);
    var new_ := ParentPath(v, parent) + [name];
    MovedIsView(t, id, parent, name, new_);
    NewPathIsFree(t, id, parent, name);
    MovedInjective(v, id, new_);
    ViewGivesTreeOk(t[id := Folder(parent, name)], Moved(v, v[id], new_));
  }

  lemma {:induction false} MovedStep(t: Tree, v: View, x: Id, id: Id, new_: Path)
    requires IsView(t, v) && Injective(v) && id in t && x in t && x != id && t[x].parent.Some?
    ensures t[x].parent.value in t
    ensures var v' := Moved(v, v[id], new_);
      v'[x] == v'[t[x].parent.value] + [t[x].name]
  {
    assert Row(t, v, x);
    var p, old_ := t[x].parent.value, v[id];
    assert v[x] == v[p] + [t[x].name];
    if old_ <= v[x] {
      assert old_ != v[x];
      assert old_ <= v[p];
      assert v[x][|old_|..] == v[p][|old_|..] + [t[x].name];
    } else {
      assert !(old_ <= v[p]);
    }
  }

  /** No folder sits at or below the new path, except those that move. */
  lemma {:induction false} NewPathIsFree(t: Tree, id: Id, parent: Option<Id>, name: string)
    requires TreeOk(t) && id in t && (parent.Some? ==> parent.value in t)
    requires Relink(t, id, parent, name).Ok?
    ensures var v := Paths(t); forall x :: x in t && ParentPath(v, parent) + [name] <= v[x] ==> v[id] <= v[x]
  {
    var v := Paths(t);
    var new_ := ParentPath(v, parent) + [name];
    forall x | x in t && new_ <= v[x]
      ensures v[id] <= v[x]
    {
      var a := AncestorAt(t, v, x, new_);
      var q := t[a].parent;
      assert Row(t, v, a);
      assert ParentPath(v, q) == v[a][..|v[a]| - 1] == ParentPath(v, parent);
      assert v[a][|v[a]| - 1] == t[a].name == name;
      SameParent(t, v, q, parent);
      assert a == id;
    }
  }

  lemma {:induction false} SameParent(t: Tree, v: View, q: Option<Id>, r: Option<Id>)
    requires IsView(t, v) && Injective(v)
    requires (q.Some? ==> q.value in t) && (r.Some? ==> r.value in t)
    requires ParentPath(v, q) == ParentPath(v, r)
    ensures q == r
  {
    assert q.Some? ==> Row(t, v, q.value) && v[q.value] != [];
    assert r.Some? ==> Row(t, v, r.value) && v[r.value] != [];
  }

  /** Every non-empty prefix of a folder's path is the path of a folder. */
  lemma {:induction false} AncestorAt(t: Tree, v: View, x: Id, prefix: Path) returns (a: Id)
    requires IsView(t, v) && x in t && prefix <= v[x] && prefix != []
    ensures a in t && v[a] == prefix
    decreases |v[x]|
  {
    assert Row(t, v, x);
    if v[x] == prefix {
      a := x;
    } else {
      var p := t[x].parent.value;
      assert v[x] == v[p] + [t[x].name];
      assert prefix <= v[p];
      a := AncestorAt(t, v, p, prefix);
    }
  }

  lemma {:induction false} MovedInjective(v: View, id: Id, new_: Path)
    requires Injective(v) && id in v
    requires forall x :: x in v && new_ <= v[x] ==> v[id] <= v[x]
    ensures Injective(Moved(v, v[id], new_))
  {
    var old_, v' := v[id], Moved(v, v[id], new_);
    forall a, b | a in v' && b in v' && v'[a] == v'[b]
      ensures a == b
    {
      if old_ <= v[a] && old_ <= v[b] {
        assert v'[a][|new_|..] == v[a][|old_|..] && v'[b][|new_|..] == v[b][|old_|..];
        assert v[a] == old_ + v[a][|old_|..] && v[b] == old_ + v[b][|old_|..];
      }
    }
  }

  // --- deleting and creating ----------------------------------------------

  /** `delete_empty`: neither a subfolder nor a filed object, whoever sees it. */
  function DeleteEmpty(t: Tree, filed: set<Path>, id: Id): Result<Tree, Error> {
    var v := Paths(t);
    if id !in t then Err(NotFound)
    else if (exists x :: x in v && x != id && At(v, id) <= v[x]) || (exists p :: p in filed && At(v, id) <= p) then Err(NonEmpty)
    else Ok(t - {id})
  }

  lemma {:induction false} DeleteKeeps(t: Tree, filed: set<Path>, id: Id)
    requires TreeOk(t) && DeleteEmpty(t, filed, id).Ok?
    ensures var t' := DeleteEmpty(t, filed, id).value; TreeOk(t') && id in t && Paths(t') == Paths(t) - {id}
  {
    assert forall x :: x in t && x != id ==> x in Paths(t);
    DeleteDropsOnePath(t, id);
  }

  /** A folder below another has an ancestor right below it, and a child is below. */
  lemma {:induction false} BelowIff(t: Tree, id: Id)
    requires TreeOk(t) && id in t
    ensures (exists x :: x in t && x != id && Paths(t)[id] <= Paths(t)[x]) <==> exists x :: x in t && t[x].parent == Some(id)
  {
    var v := Paths(t);
    assert Row(t, v, id) && v[id] != [];
    if x :| x in t && x != id && v[id] <= v[x] {
      var prefix := v[x][..|v[id]| + 1];
      var a := AncestorAt(t, v, x, prefix);
      assert Row(t, v, a) && v[a][..|v[id]|] == v[id] == ParentPath(v, t[a].parent);
      SameParent(t, v, t[a].parent, Some(id));
    }
    if x :| x in t && t[x].parent == Some(id) {
      assert Row(t, v, x) && v[id] <= v[x] && x != id;
    }
  }

  /** A folder is not deleted exactly when it has a child or something is filed in it or below. */
  lemma {:induction false} DeleteFailsIff(t: Tree, filed: set<Path>, id: Id)
    requires TreeOk(t) && id in t
    ensures DeleteEmpty(t, filed, id).Err? <==>
      (exists x :: x in t && t[x].parent == Some(id)) || exists rest :: Paths(t)[id] + rest in filed
  {
    var v := Paths(t);
    BelowIff(t, id);
    if p :| p in filed && v[id] <= p {
      assert v[id] + p[|v[id]|..] == p;
    }
  }

  lemma {:induction false} DeleteDropsOnePath(t: Tree, id: Id)
    requires TreeOk(t) && id in t
    requires forall x :: x in t && x != id ==> !(Paths(t)[id] <= Paths(t)[x])
    ensures TreeOk(t - {id}) && Paths(t - {id}) == Paths(t) - {id}
  {
    var v := Paths(t);
    var t' := t - {id};
    forall x | x in t'
      ensures Row(t', v - {id}, x)
    {
      assert Row(t, v, x);
      assert x in t && x != id && !(v[id] <= v[x]);
    }
    ViewGivesTreeOk(t', v - {id});
  }

  /** `ensure_path` below `parent`, from level `k`: creates each missing level. */
  ghost function EnsureFrom(t: Tree, next: Id, p: Path, k: nat, parent: Option<Id>): (Tree, Id)
    requires k <= |p|
    decreases |p| - k
  {
    if k == |p| then (t, next)
    else
      match IdOf(t, p[..k + 1])
      case Some(id) => EnsureFrom(t, next, p, k + 1, Some(id))
      case None => EnsureFrom(t[next := Folder(parent, p[k])], next + 1, p, k + 1, Some(next))
  }

  ghost function EnsurePath(t: Tree, next: Id, p: Path): Result<(Tree, Id), Error> {
    if !ValidPath(p) then Err(Invalid) else Ok(EnsureFrom(t, next, p, 0, None))
  }

  ghost predicate Fresh(t: Tree, next: Id) {
    forall id :: id in t ==> id < next
  }

  lemma {:induction false} AddFolder(t: Tree, next: Id, parent: Option<Id>, name: string)
    requires TreeOk(t) && Fresh(t, next) && (parent.Some? ==> parent.value in t)
    requires ValidPath(ParentPath(Paths(t), parent) + [name])
    requires IdOf(t, ParentPath(Paths(t), parent) + [name]).None?
    ensures var t' := t[next := Folder(parent, name)];
      && TreeOk(t') && Fresh(t', next + 1)
      && Paths(t') == Paths(t)[next := ParentPath(Paths(t), parent) + [name]]
  {
    var v := Paths(t);
    var new_ := ParentPath(v, parent) + [name];
    var t', v' := t[next := Folder(parent, name)], v[next := new_];
    forall x | x in t
      ensures v[x] != new_ && Row(t', v', x)
    {
      assert Row(t, v, x);
      assert PathOf(t, x) == Some(v[x]);
    }
    ViewGivesTreeOk(t', v');
  }

  /** What `ensure_path` makes of a tree: old folders stay, new ones are levels of `p`. */
  ghost predicate Extends(t: Tree, t': Tree, p: Path) {
    && TreeOk(t) && TreeOk(t')
    && (forall id :: id in t ==> id in t' && Paths(t')[id] == Paths(t)[id])
    && (forall id :: id in t' && id !in t ==> Paths(t')[id] <= p)
  }

  lemma {:induction false} ExtendsTrans(t: Tree, t1: Tree, t2: Tree, p: Path)
    requires Extends(t, t1, p) && Extends(t1, t2, p)
    ensures Extends(t, t2, p)
  {
  }

  ghost predicate LevelIs(t: Tree, p: Path, k: nat, parent: Option<Id>)
    requires k <= |p|
  {
    if k == 0 then parent.None? else parent.Some? && parent.value in t && PathOf(t, parent.value) == Some(p[..k])
  }

  lemma {:induction false} EnsureLevel(t: Tree, next: Id, p: Path, k: nat, parent: Option<Id>)
    requires TreeOk(t) && Fresh(t, next) && ValidPath(p) && k < |p| && LevelIs(t, p, k, parent)
    requires IdOf(t, p[..k + 1]).None?
    ensures var t' := t[next := Folder(parent, p[k])];
      Extends(t, t', p) && Fresh(t', next + 1) && LevelIs(t', p, k + 1, Some(next))
  {
    assert p[..k + 1] == p[..k] + [p[k]];
    assert ParentPath(Paths(t), parent) == p[..k];
    PrefixValid(p, k + 1);
    AddFolder(t, next, parent, p[k]);
    IdOfView(t[next := Folder(parent, p[k])], next);
  }

  lemma {:induction false} EnsureFromCreates(t: Tree, next: Id, p: Path, k: nat, parent: Option<Id>)
    requires TreeOk(t) && Fresh(t, next) && ValidPath(p) && k <= |p| && LevelIs(t, p, k, parent)
    ensures var (t', next') := EnsureFrom(t, next, p, k, parent);
      Extends(t, t', p) && Fresh(t', next') && LevelIs(t', p, |p|, IdOf(t', p))
    decreases |p| - k
  {
    if k == |p| {
      assert p[..k] == p;
      IdOfView(t, parent.value);
    } else {
      match IdOf(t, p[..k + 1])
      case Some(id) =>
        EnsureFromCreates(t, next, p, k + 1, Some(id));
      case None =>
        var t1 := t[next := Folder(parent, p[k])];
        EnsureLevel(t, next, p, k, parent);
        EnsureFromCreates(t1, next + 1, p, k + 1, Some(next));
        ExtendsTrans(t, t1, EnsureFrom(t1, next + 1, p, k + 1, Some(next)).0, p);
    }
  }

  lemma {:induction false} PrefixValid(p: Path, k: nat)
    requires ValidPath(p) && 1 <= k <= |p|
    ensures ValidPath(p[..k])
  {
    assert p == p[..k] + p[k..];
    if k < |p| {
      WrittenAppend(p[..k], p[k..]);
    } else {
      assert p[..k] == p;
    }
    forall s | s in p[..k] ensures ValidName(s) { assert s in p; }
  }

  /** `ensure_path` makes the path exist, keeps every folder and adds only levels of that path. */
  lemma {:induction false} EnsurePathCreates(t: Tree, next: Id, p: Path)
    requires TreeOk(t) && Fresh(t, next) && ValidPath(p)
    ensures EnsurePath(t, next, p).Ok?
    ensures var (t', next') := EnsurePath(t, next, p).value;
      Extends(t, t', p) && Fresh(t', next') && IdOf(t', p).Some?
  {
    EnsureFromCreates(t, next, p, 0, None);
  }
}
