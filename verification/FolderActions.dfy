/**
 * The lines each command posts (bin/harvester-folders.py: assign, rename,
 * move-folder, empty-into), and why they are fit for recovery.
 */
module FolderActions {
  import opened Wrappers
  import opened FolderPaths
  import opened FolderTree
  import opened FolderHub
  import opened FolderRuns
  import opened FolderLines
  import opened FolderRecovery

  /** `start_lines` on a new action. */
  function Post(w: World, lines: seq<Line>): World {
    w.(journal := lines)
  }

  function Pend(what: Target, from: Option<Path>, to: Option<Path>): Line {
    Line(what, from, to, Pending)
  }

  /** Keys without repetition: a request, or the cache in the order of its keys. */
  ghost predicate KeyOrder(keys: seq<Key>) {
    forall a, b :: 0 <= a < b < |keys| ==> keys[a] != keys[b]
  }

  /** All that is filed, each object once: the cache in the order of its keys. */
  ghost predicate Covers(keys: seq<Key>, cache: map<Key, Entry>) {
    KeyOrder(keys) && forall k :: k in cache ==> k in keys
  }

  // --- plans ------------------------------------------------------------------------

  /** `cmd_assign`: each object, from its cached filing to `to`. */
  function AssignLines(w: World, keys: seq<Key>, to: Option<Path>): (ls: seq<Line>)
    ensures |ls| == |keys|
    ensures forall i :: 0 <= i < |keys| ==> ls[i] == Pend(ObjectRow(keys[i]), CachedPath(w, keys[i]), to)
  {
    seq(|keys|, i requires 0 <= i < |keys| => Pend(ObjectRow(keys[i]), CachedPath(w, keys[i]), to))
  }

  /** `_rewrite`: the objects filed at or below `old_`, each with the same place below `new_`. */
  function RewriteLines(w: World, keys: seq<Key>, old_: Path, new_: Path): seq<Line> {
    if keys == [] then []
    else
      var p := CachedPath(w, keys[0]);
      (if p.Some? && old_ <= p.value
       then [Pend(ObjectRow(keys[0]), p, Some(new_ + p.value[|old_|..]))]
       else [])
      + RewriteLines(w, keys[1..], old_, new_)
  }

  /** `_rewrite_folder`: the folder line, then the objects below it. */
  function FolderChangeLines(w: World, keys: seq<Key>, id: Id, old_: Path, new_: Path): seq<Line> {
    [Pend(FolderRow(id), Some(old_), Some(new_))] + RewriteLines(w, keys, old_, new_)
  }

  /** The objects filed in the emptied folder itself. */
  function DirectLines(w: World, keys: seq<Key>, p: Path, to: Option<Path>): seq<Line> {
    if keys == [] then []
    else
      (if CachedPath(w, keys[0]) == Some(p) then [Pend(ObjectRow(keys[0]), Some(p), to)] else [])
      + DirectLines(w, keys[1..], p, to)
  }

  /** One line per child, in the order `kids`. */
  ghost function KidLines(t: Tree, kids: seq<Id>, target: Option<Id>): (ls: seq<Line>)
    ensures |ls| == |kids|
    ensures forall i :: 0 <= i < |kids| ==>
      ls[i] == Pend(FolderRow(kids[i]), Some(At(Paths(t), kids[i])), Some(NewPlace(t, kids[i], target)))
  {
    seq(|kids|, i requires 0 <= i < |kids| =>
      Pend(FolderRow(kids[i]), Some(At(Paths(t), kids[i])), Some(NewPlace(t, kids[i], target))))
  }

  ghost function NewPlace(t: Tree, k: Id, target: Option<Id>): Path {
    ParentPath(Paths(t), target) + [if k in t then t[k].name else ""]
  }

  ghost function KidObjectLines(w: World, keys: seq<Key>, kids: seq<Id>, target: Option<Id>): seq<Line> {
    if kids == [] then []
    else RewriteLines(w, keys, At(Paths(w.tree), kids[0]), NewPlace(w.tree, kids[0], target))
         + KidObjectLines(w, keys, kids[1..], target)
  }

  /** `cmd_empty_into`: the children, their objects, the folder's own objects, the deletion. */
  ghost function EmptyLines(w: World, keys: seq<Key>, fid: Id, kids: seq<Id>, target: Option<Id>): seq<Line> {
    var v := Paths(w.tree);
    KidLines(w.tree, kids, target)
    + KidObjectLines(w, keys, kids, target)
    + DirectLines(w, keys, At(v, fid), if target.None? then None else Some(At(v, target.value)))
    + [Pend(FolderRow(fid), Some(At(v, fid)), None)]
  }

  // --- posted lines are fit for recovery -------------------------------------------------

  /** Object lines of distinct keys drawn from `keys`, each starting from the cached filing, at or below `p`. */
  ghost predicate CleanObjects(w: World, keys: seq<Key>, ls: seq<Line>) {
    && DistinctKeys(ls)
    && forall i :: 0 <= i < |ls| ==>
         && ls[i].what.ObjectRow? && ls[i].what.key in keys && ls[i].status == Pending
         && CachedPath(w, ls[i].what.key) == ls[i].from
  }

  ghost predicate AllBelow(ls: seq<Line>, p: Path) {
    forall i :: 0 <= i < |ls| ==> ls[i].from.Some? && p <= ls[i].from.value
  }

  lemma {:induction false} RewriteClean(w: World, keys: seq<Key>, old_: Path, new_: Path)
    requires KeyOrder(keys)
    ensures CleanObjects(w, keys, RewriteLines(w, keys, old_, new_)) && AllBelow(RewriteLines(w, keys, old_, new_), old_)
  {
    if keys == [] {
    } else {
      RewriteClean(w, keys[1..], old_, new_);
      assert forall k :: k in keys[1..] ==> k in keys && k != keys[0];
      assert keys[0] in keys;
    }
  }

  lemma {:induction false} DirectClean(w: World, keys: seq<Key>, p: Path, to: Option<Path>)
    requires KeyOrder(keys)
    ensures CleanObjects(w, keys, DirectLines(w, keys, p, to))
    ensures forall i :: 0 <= i < |DirectLines(w, keys, p, to)| ==> DirectLines(w, keys, p, to)[i].from == Some(p)
  {
    if keys == [] {
    } else {
      DirectClean(w, keys[1..], p, to);
      assert forall k :: k in keys[1..] ==> k in keys && k != keys[0];
      assert keys[0] in keys;
    }
  }

  /** Lines about different filings are about different objects. */
  lemma {:induction false} CleanAppend(w: World, keys: seq<Key>, a: seq<Line>, b: seq<Line>)
    requires CleanObjects(w, keys, a) && CleanObjects(w, keys, b)
    requires forall i, j :: 0 <= i < |a| && 0 <= j < |b| ==> a[i].from != b[j].from
    ensures CleanObjects(w, keys, a + b)
  {
    var ls := a + b;
    forall i, j | 0 <= i < j < |ls|
      ensures ls[i].what != ls[j].what
    {
      if i < |a| <= j {
        assert ls[j] == b[j - |a|];
        assert a[i].from != b[j - |a|].from;
      }
    }
  }

  ghost predicate BelowSomeKid(t: Tree, kids: seq<Id>, p: Option<Path>) {
    p.Some? && exists i :: 0 <= i < |kids| && At(Paths(t), kids[i]) <= p.value
  }

  ghost predicate KidsOf(t: Tree, fid: Id, kids: seq<Id>) {
    && (forall k :: k in kids ==> k in Kids(t, fid))
    && forall a, b :: 0 <= a < b < |kids| ==> kids[a] != kids[b]
  }

  lemma {:induction false} KidsApart(t: Tree, fid: Id, a: Id, b: Id, p: Path)
    requires TreeOk(t) && fid in t && a in Kids(t, fid) && b in Kids(t, fid)
    requires Paths(t)[a] <= p && Paths(t)[b] <= p
    ensures a == b && p != Paths(t)[fid]
  {
    KidPath(t, fid, a);
    KidPath(t, fid, b);
    assert Paths(t)[a] == p[..|Paths(t)[a]|] == Paths(t)[b];
  }

  lemma {:induction false} KidObjectsClean(w: World, keys: seq<Key>, fid: Id, kids: seq<Id>, target: Option<Id>)
    requires TreeOk(w.tree) && fid in w.tree && KidsOf(w.tree, fid, kids) && KeyOrder(keys)
    ensures var ls := KidObjectLines(w, keys, kids, target);
      CleanObjects(w, keys, ls) && forall i :: 0 <= i < |ls| ==> BelowSomeKid(w.tree, kids, ls[i].from)
    decreases |kids|
  {
    if kids == [] {
    } else {
      assert kids[0] in kids && forall k :: k in kids[1..] ==> k in kids;
      var here := RewriteLines(w, keys, At(Paths(w.tree), kids[0]), NewPlace(w.tree, kids[0], target));
      var rest := KidObjectLines(w, keys, kids[1..], target);
      hide RewriteLines, NewPlace, TreeOk, Paths, CleanObjects, KidsOf;
      RewriteClean(w, keys, At(Paths(w.tree), kids[0]), NewPlace(w.tree, kids[0], target));
      KidObjectsClean(w, keys, fid, kids[1..], target);
      RestApart(w, keys, fid, kids, here, rest);
      CleanAppend(w, keys, here, rest);
    }
  }

  /** What is below the other children: below some child, and elsewhere than what is below the first. */
  lemma {:induction false} RestApart(w: World, keys: seq<Key>, fid: Id, kids: seq<Id>, here: seq<Line>, rest: seq<Line>)
    requires TreeOk(w.tree) && fid in w.tree && KidsOf(w.tree, fid, kids) && kids != []
    requires AllBelow(here, At(Paths(w.tree), kids[0]))
    requires forall j :: 0 <= j < |rest| ==> BelowSomeKid(w.tree, kids[1..], rest[j].from)
    ensures forall i, j :: 0 <= i < |here| && 0 <= j < |rest| ==> here[i].from != rest[j].from
    ensures forall j :: 0 <= j < |rest| ==> BelowSomeKid(w.tree, kids, rest[j].from)
    ensures forall i :: 0 <= i < |here| ==> BelowSomeKid(w.tree, kids, here[i].from)
  {
    assert kids[0] in kids;
    hide TreeOk, Paths;
    forall j | 0 <= j < |rest|
      ensures BelowSomeKid(w.tree, kids, rest[j].from)
      ensures forall i :: 0 <= i < |here| ==> here[i].from != rest[j].from
    {
      var b :| 0 <= b < |kids[1..]| && At(Paths(w.tree), kids[1..][b]) <= rest[j].from.value;
      assert kids[1..][b] == kids[b + 1] && kids[b + 1] in kids;
      forall i | 0 <= i < |here|
        ensures here[i].from != rest[j].from
      {
        if here[i].from == rest[j].from {
          KidsApart(w.tree, fid, kids[0], kids[b + 1], here[i].from.value);
        }
      }
    }
  }

  /** All the object lines of an empty-into. */
  ghost function EmptyObjects(w: World, keys: seq<Key>, fid: Id, kids: seq<Id>, target: Option<Id>): seq<Line> {
    KidObjectLines(w, keys, kids, target)
    + DirectLines(w, keys, At(Paths(w.tree), fid), if target.None? then None else Some(At(Paths(w.tree), target.value)))
  }

  lemma {:induction false} EmptyObjectsClean(w: World, keys: seq<Key>, fid: Id, kids: seq<Id>, target: Option<Id>)
    requires TreeOk(w.tree) && fid in w.tree && KidsOf(w.tree, fid, kids) && KeyOrder(keys)
    ensures CleanObjects(w, keys, EmptyObjects(w, keys, fid, kids, target))
  {
    var p := At(Paths(w.tree), fid);
    var to := if target.None? then None else Some(At(Paths(w.tree), target.value));
    var a, b := KidObjectLines(w, keys, kids, target), DirectLines(w, keys, p, to);
    KidObjectsClean(w, keys, fid, kids, target);
    DirectClean(w, keys, p, to);
    forall i, j | 0 <= i < |a| && 0 <= j < |b|
      ensures a[i].from != b[j].from
    {
      assert BelowSomeKid(w.tree, kids, a[i].from);
      var n :| 0 <= n < |kids| && At(Paths(w.tree), kids[n]) <= a[i].from.value;
      assert kids[n] in kids;
      KidPath(w.tree, fid, kids[n]);
    }
    CleanAppend(w, keys, a, b);
  }

  /** Folder lines around clean object lines: what a command posts is fit for recovery. */
  lemma {:induction false} PostedAround(w: World, keys: seq<Key>, first: seq<Line>, objects: seq<Line>, last: seq<Line>)
    requires TreeOk(w.tree) && CleanObjects(w, keys, objects)
    requires forall m :: m in first || m in last ==> m.what.FolderRow? && m.status == Pending && SingleChange(m)
    ensures Posted(Post(w, first + objects + last))
  {
    var ls := first + objects + last;
    forall i | 0 <= i < |ls|
      ensures ls[i].status == Pending && (ls[i].what.FolderRow? ==> SingleChange(ls[i]))
      ensures ls[i].what.ObjectRow? ==> CachedPath(w, ls[i].what.key) == ls[i].from
      ensures ls[i].what.ObjectRow? ==> |first| <= i < |first| + |objects|
    {
      if i < |first| {
        assert ls[i] in first;
      } else if i < |first| + |objects| {
        assert ls[i] == objects[i - |first|];
      } else {
        assert ls[i] in last;
      }
    }
    forall a, b | 0 <= a < b < |ls| && ls[a].what.ObjectRow?
      ensures ls[a].what != ls[b].what
    {
      if ls[b].what.ObjectRow? {
        assert ls[a] == objects[a - |first|] && ls[b] == objects[b - |first|];
      }
    }
  }

  /** `assign` posts lines fit for recovery. */
  lemma {:induction false} AssignIsPosted(w: World, keys: seq<Key>, to: Option<Path>)
    requires TreeOk(w.tree) && KeyOrder(keys)
    ensures Posted(Post(w, AssignLines(w, keys, to)))
  {
    var ls := AssignLines(w, keys, to);
    assert CleanObjects(w, keys, ls);
    PostedAround(w, keys, [], ls, []);
    assert [] + ls + [] == ls;
  }

  /** A renaming posts lines fit for recovery, once the tree has changed. */
  lemma {:induction false} RenameIsPosted(w: World, keys: seq<Key>, id: Id, name: string)
    requires TreeOk(w.tree) && KeyOrder(keys) && Rename(w.tree, id, name).Ok?
    ensures id in w.tree
    ensures var old_ := Paths(w.tree)[id];
      Posted(Post(w.(tree := Rename(w.tree, id, name).value), FolderChangeLines(w, keys, id, old_, Parent(old_) + [name])))
  {
    RenameKeeps(w.tree, id, name);
    var old_ := Paths(w.tree)[id];
    ChangeIsPosted(w, w.(tree := Rename(w.tree, id, name).value), keys, id, old_, Parent(old_) + [name]);
  }

  /** So does the move of a folder. */
  lemma {:induction false} MoveIsPosted(w: World, keys: seq<Key>, id: Id, parent: Option<Id>)
    requires TreeOk(w.tree) && KeyOrder(keys) && Move(w.tree, id, parent).Ok?
    ensures id in w.tree
    ensures var old_, new_ := Paths(w.tree)[id], ParentPath(Paths(w.tree), parent) + [w.tree[id].name];
      Posted(Post(w.(tree := Move(w.tree, id, parent).value), FolderChangeLines(w, keys, id, old_, new_)))
  {
    MoveKeeps(w.tree, id, parent);
    assert Row(w.tree, Paths(w.tree), id);
    var old_, new_ := Paths(w.tree)[id], ParentPath(Paths(w.tree), parent) + [w.tree[id].name];
    ChangeIsPosted(w, w.(tree := Move(w.tree, id, parent).value), keys, id, old_, new_);
  }

  lemma {:induction false} ChangeIsPosted(w: World, w': World, keys: seq<Key>, id: Id, old_: Path, new_: Path)
    requires KeyOrder(keys) && TreeOk(w'.tree) && w'.cache == w.cache && new_ != []
    requires Parent(old_) == Parent(new_) || Last(old_) == Last(new_)
    ensures Posted(Post(w', FolderChangeLines(w, keys, id, old_, new_)))
  {
    var first, ls := [Pend(FolderRow(id), Some(old_), Some(new_))], RewriteLines(w, keys, old_, new_);
    RewriteClean(w, keys, old_, new_);
    assert CleanObjects(w', keys, ls);
    PostedAround(w', keys, first, ls, []);
    assert first + ls + [] == FolderChangeLines(w, keys, id, old_, new_);
  }

  lemma {:induction false} KidLinesClean(t: Tree, fid: Id, kids: seq<Id>, target: Option<Id>, m: Line)
    requires TreeOk(t) && fid in t && KidsOf(t, fid, kids) && m in KidLines(t, kids, target)
    ensures m.what.FolderRow? && m.status == Pending && SingleChange(m)
  {
    var i :| 0 <= i < |kids| && m == KidLines(t, kids, target)[i];
    assert kids[i] in kids;
    KidPath(t, fid, kids[i]);
  }

  ghost function DeleteLine(t: Tree, fid: Id): Line {
    Pend(FolderRow(fid), Some(At(Paths(t), fid)), None)
  }

  lemma {:induction false} EmptyLinesParts(w: World, keys: seq<Key>, fid: Id, kids: seq<Id>, target: Option<Id>)
    ensures EmptyLines(w, keys, fid, kids, target)
         == KidLines(w.tree, kids, target) + EmptyObjects(w, keys, fid, kids, target) + [DeleteLine(w.tree, fid)]
  {
    var a, b := KidLines(w.tree, kids, target), KidObjectLines(w, keys, kids, target);
    var c := DirectLines(w, keys, At(Paths(w.tree), fid), if target.None? then None else Some(At(Paths(w.tree), target.value)));
    assert a + b + c + [DeleteLine(w.tree, fid)] == a + (b + c) + [DeleteLine(w.tree, fid)];
  }

  /** An accepted empty-into posts lines fit for recovery. */
  lemma {:induction false} EmptyIsPosted(w: World, keys: seq<Key>, fid: Id, kids: seq<Id>, target: Option<Id>)
    requires CanEmpty(w.tree, fid, target) && KidsOf(w.tree, fid, kids) && KeyOrder(keys)
    ensures Posted(Post(w, EmptyLines(w, keys, fid, kids, target)))
  {
    forall m | m in KidLines(w.tree, kids, target)
      ensures m.what.FolderRow? && m.status == Pending && SingleChange(m)
    {
      KidLinesClean(w.tree, fid, kids, target, m);
    }
    EmptyObjectsClean(w, keys, fid, kids, target);
    PostedAround(w, keys, KidLines(w.tree, kids, target), EmptyObjects(w, keys, fid, kids, target), [DeleteLine(w.tree, fid)]);
    EmptyLinesParts(w, keys, fid, kids, target);
  }
}
