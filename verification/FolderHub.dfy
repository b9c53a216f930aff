/**
 * The trees between emptying a folder and undoing it: some children of the
 * folder already sit under the target, the others still under the folder,
 * which undo has created again under a new id.
 */
module FolderHub {
  import opened Wrappers
  import opened FolderPaths
  import opened FolderTree

  /** An accepted request: who leaves, where to, no name taken there, every path within bounds. */
  ghost predicate CanEmpty(t: Tree, fid: Id, target: Option<Id>) {
    var v := Paths(t);
    && TreeOk(t) && fid in t
    && (target.Some? ==> target.value in t && !(v[fid] <= v[target.value]))
    && (forall k, x :: k in Kids(t, fid) && x in t ==> v[x] != ParentPath(v, target) + [t[k].name])
    && (forall x :: x in t && v[fid] < v[x] ==> ValidPath(ParentPath(v, target) + v[x][|v[fid]|..]))
  }

  function Kids(t: Tree, fid: Id): set<Id> {
    set k | k in t && t[k].parent == Some(fid)
  }

  /** `away` sits under the target, the other children under `hub`, which stands for `fid`. */
  function Hub(t: Tree, fid: Id, hub: Id, away: set<Id>, target: Option<Id>): Tree
    requires fid in t
  {
    map id | id in t.Keys - {fid} + {hub} ::
      if id == hub then t[fid]
      else if id in away then Folder(target, t[id].name)
      else if t[id].parent == Some(fid) then Folder(Some(hub), t[id].name)
      else t[id]
  }

  ghost predicate Carried(v: View, away: set<Id>, x: Id)
    requires x in v
  {
    exists k :: k in away && k in v && v[k] <= v[x]
  }

  ghost function HubView(t: Tree, fid: Id, hub: Id, away: set<Id>, target: Option<Id>): View
    requires fid in t && t.Keys == Paths(t).Keys
  {
    var v := Paths(t);
    map id | id in t.Keys - {fid} + {hub} ::
      if id == hub then v[fid]
      else if Carried(v, away, id) then Place(v, fid, target, id)
      else v[id]
  }

  /** Where a folder below `fid` goes when its branch is carried. */
  function Place(v: View, fid: Id, target: Option<Id>, x: Id): Path {
    ParentPath(v, target) + (if |At(v, fid)| <= |At(v, x)| then At(v, x)[|At(v, fid)|..] else [])
  }

  ghost predicate HubArgs(t: Tree, fid: Id, hub: Id, away: set<Id>, target: Option<Id>) {
    CanEmpty(t, fid, target) && away <= Kids(t, fid) && (hub == fid || hub !in t)
  }

  lemma {:induction false} KidPath(t: Tree, fid: Id, k: Id)
    requires TreeOk(t) && fid in t && k in Kids(t, fid)
    ensures Paths(t)[k] == Paths(t)[fid] + [t[k].name]
  {
    assert Row(t, Paths(t), k);
  }

  /** A folder that is neither a child of `fid` nor carried has a parent that is not carried either, and conversely. */
  lemma {:induction false} CarriedWithParent(t: Tree, fid: Id, away: set<Id>, x: Id)
    requires TreeOk(t) && fid in t && away <= Kids(t, fid) && x in t && x !in away && t[x].parent.Some?
    ensures t[x].parent.value in t
    ensures Carried(Paths(t), away, x) <==> Carried(Paths(t), away, t[x].parent.value)
  {
    var v := Paths(t);
    assert Row(t, v, x);
    var q := t[x].parent.value;
    assert v[x] == v[q] + [t[x].name];
    forall k | k in away
      ensures v[k] <= v[x] <==> v[k] <= v[q]
    {
      assert k != x && v[k] != v[x];
    }
  }

  /** Nothing of the old tree is at or below the place of a carried child. */
  lemma {:induction false} PlaceIsFree(t: Tree, fid: Id, target: Option<Id>, k: Id, x: Id)
    requires CanEmpty(t, fid, target) && k in Kids(t, fid) && x in t
    ensures !(ParentPath(Paths(t), target) + [t[k].name] <= Paths(t)[x])
  {
    var place := ParentPath(Paths(t), target) + [t[k].name];
    if place <= Paths(t)[x] {
      var a := AncestorAt(t, Paths(t), x, place);
    }
  }

  /** The folder itself, the target and their ancestors are never carried. */
  lemma {:induction false} NotCarried(t: Tree, fid: Id, away: set<Id>, x: Id)
    requires TreeOk(t) && fid in t && away <= Kids(t, fid) && x in t
    requires !(Paths(t)[fid] < Paths(t)[x])
    ensures !Carried(Paths(t), away, x)
  {
    var v := Paths(t);
    forall k | k in away
      ensures !(v[k] <= v[x])
    {
      KidPath(t, fid, k);
    }
  }

  lemma {:induction false} HubRowOfHub(t: Tree, fid: Id, hub: Id, away: set<Id>, target: Option<Id>)
    requires HubArgs(t, fid, hub, away, target)
    ensures Row(Hub(t, fid, hub, away, target), HubView(t, fid, hub, away, target), hub)
  {
    var v := Paths(t);
    assert Row(t, v, fid);
    if t[fid].parent.Some? {
      NotCarried(t, fid, away, t[fid].parent.value);
    }
  }

  lemma {:induction false} HubRowOfAway(t: Tree, fid: Id, hub: Id, away: set<Id>, target: Option<Id>, x: Id)
    requires HubArgs(t, fid, hub, away, target) && x in away && x != hub && x != fid
    ensures Row(Hub(t, fid, hub, away, target), HubView(t, fid, hub, away, target), x)
    ensures HubView(t, fid, hub, away, target)[x] == ParentPath(Paths(t), target) + [t[x].name]
  {
    var v := Paths(t);
    KidPath(t, fid, x);
    assert v[x][|v[fid]|..] == [t[x].name];
    if target.Some? {
      NotCarried(t, fid, away, target.value);
    }
    assert v[x] <= v[x] && Carried(v, away, x);
  }

  lemma {:induction false} HubRowOfKept(t: Tree, fid: Id, hub: Id, away: set<Id>, target: Option<Id>, x: Id)
    requires HubArgs(t, fid, hub, away, target) && x in t && x != hub && x != fid && x !in away && t[x].parent == Some(fid)
    ensures Row(Hub(t, fid, hub, away, target), HubView(t, fid, hub, away, target), x)
  {
    KidPath(t, fid, x);
    NotCarried(t, fid, away, fid);
    CarriedWithParent(t, fid, away, x);
  }

  lemma {:induction false} PlaceWithParent(v: View, fid: Id, target: Option<Id>, x: Id, q: Id, name: string)
    requires fid in v && x in v && q in v && v[fid] <= v[q] && v[x] == v[q] + [name]
    ensures Place(v, fid, target, x) == Place(v, fid, target, q) + [name]
  {
    assert v[x][|v[fid]|..] == v[q][|v[fid]|..] + [name];
  }

  lemma {:induction false} HubRowOfOther(t: Tree, fid: Id, hub: Id, away: set<Id>, target: Option<Id>, x: Id)
    requires TreeOk(t) && fid in t && HubArgs(t, fid, hub, away, target) && x in t && x != fid && x !in away && t[x].parent != Some(fid)
    ensures Row(Hub(t, fid, hub, away, target), HubView(t, fid, hub, away, target), x)
  {
    hide CanEmpty;
    var v := Paths(t);
    assert Row(t, v, x) && Row(t, v, fid);
    if t[x].parent.Some? {
      var q := t[x].parent.value;
      CarriedWithParent(t, fid, away, x);
      if Carried(v, away, x) {
        var k := CarriedBelow(t, fid, away, q);
        PlaceWithParent(v, fid, target, x, q, t[x].name);
      }
    } else {
      assert |v[x]| == 1;
      NotCarried(t, fid, away, x);
    }
  }

  lemma {:induction false} CarriedBelow(t: Tree, fid: Id, away: set<Id>, x: Id) returns (k: Id)
    requires TreeOk(t) && fid in t && away <= Kids(t, fid) && x in t && Carried(Paths(t), away, x)
    ensures k in away && Paths(t)[k] <= Paths(t)[x] && Paths(t)[fid] < Paths(t)[x]
    ensures |Paths(t)[fid]| < |Paths(t)[x]| && Paths(t)[x][|Paths(t)[fid]|] == t[k].name
  {
    k :| k in away && k in Paths(t) && Paths(t)[k] <= Paths(t)[x];
    KidPath(t, fid, k);
  }

  lemma {:induction false} HubRow(t: Tree, fid: Id, hub: Id, away: set<Id>, target: Option<Id>, x: Id)
    requires HubArgs(t, fid, hub, away, target) && x in Hub(t, fid, hub, away, target)
    ensures Row(Hub(t, fid, hub, away, target), HubView(t, fid, hub, away, target), x)
  {
    if x in away {
      KidIsNotHub(t, fid, hub, x);
    }
    if x == hub {
      HubRowOfHub(t, fid, hub, away, target);
    } else if x in away {
      HubRowOfAway(t, fid, hub, away, target, x);
    } else if t[x].parent == Some(fid) {
      HubRowOfKept(t, fid, hub, away, target, x);
    } else {
      HubRowOfOther(t, fid, hub, away, target, x);
    }
  }

  /** A carried folder never lands on a folder that stays. */
  lemma {:induction false} CarriedApart(t: Tree, fid: Id, away: set<Id>, target: Option<Id>, a: Id, b: Id)
    requires CanEmpty(t, fid, target) && away <= Kids(t, fid) && a in t && b in t && Carried(Paths(t), away, a)
    ensures Place(Paths(t), fid, target, a) != Paths(t)[b]
  {
    var v := Paths(t);
    var k := CarriedBelow(t, fid, away, a);
    var place := Place(v, fid, target, a);
    assert place[|ParentPath(v, target)|] == t[k].name;
    assert ParentPath(v, target) + [t[k].name] <= place;
    PlaceIsFree(t, fid, target, k, b);
  }

  lemma {:induction false} PlaceInjective(t: Tree, fid: Id, target: Option<Id>, a: Id, b: Id)
    requires TreeOk(t) && fid in t && a in t && b in t && Paths(t)[fid] < Paths(t)[a] && Paths(t)[fid] < Paths(t)[b]
    requires Place(Paths(t), fid, target, a) == Place(Paths(t), fid, target, b)
    ensures a == b
  {
    var v := Paths(t);
    var n := |v[fid]|;
    assert v[a][n..] == Place(v, fid, target, a)[|ParentPath(v, target)|..];
    assert v[b][n..] == Place(v, fid, target, b)[|ParentPath(v, target)|..];
    assert v[a] == v[fid] + v[a][n..] && v[b] == v[fid] + v[b][n..];
  }

  lemma {:induction false} HubInjective(t: Tree, fid: Id, hub: Id, away: set<Id>, target: Option<Id>, a: Id, b: Id)
    requires HubArgs(t, fid, hub, away, target)
    requires var hv := HubView(t, fid, hub, away, target); a in hv && b in hv && hv[a] == hv[b]
    ensures a == b
  {
    var v := Paths(t);
    var a0, b0 := if a == hub then fid else a, if b == hub then fid else b;
    NotCarried(t, fid, away, fid);
    if Carried(v, away, a0) && Carried(v, away, b0) {
      var k := CarriedBelow(t, fid, away, a0);
      var l := CarriedBelow(t, fid, away, b0);
      PlaceInjective(t, fid, target, a0, b0);
    } else if Carried(v, away, a0) {
      CarriedApart(t, fid, away, target, a0, b0);
    } else if Carried(v, away, b0) {
      CarriedApart(t, fid, away, target, b0, a0);
    } else {
      assert v[a0] == v[b0];
    }
  }

  lemma {:induction false} HubValid(t: Tree, fid: Id, hub: Id, away: set<Id>, target: Option<Id>, x: Id)
    requires HubArgs(t, fid, hub, away, target) && x in HubView(t, fid, hub, away, target)
    ensures ValidPath(HubView(t, fid, hub, away, target)[x])
  {
    if x != hub && Carried(Paths(t), away, x) {
      var k := CarriedBelow(t, fid, away, x);
    }
  }

  /** Every intermediate tree is well formed and has the paths one expects. */
  lemma {:induction false} HubOk(t: Tree, fid: Id, hub: Id, away: set<Id>, target: Option<Id>)
    requires HubArgs(t, fid, hub, away, target)
    ensures TreeOk(Hub(t, fid, hub, away, target))
    ensures Paths(Hub(t, fid, hub, away, target)) == HubView(t, fid, hub, away, target)
  {
    var v, h, hv := Paths(t), Hub(t, fid, hub, away, target), HubView(t, fid, hub, away, target);
    forall x | x in h
      ensures Row(h, hv, x)
    {
      HubRow(t, fid, hub, away, target, x);
    }
    forall a, b | a in hv && b in hv && hv[a] == hv[b]
      ensures a == b
    {
      HubInjective(t, fid, hub, away, target, a, b);
    }
    forall x | x in hv
      ensures ValidPath(hv[x])
    {
      HubValid(t, fid, hub, away, target, x);
    }
    ViewGivesTreeOk(h, hv);
  }

  // --- single moves ----------------------------------------------------------------------

  /** A move whose result is well formed is accepted. */
  lemma {:induction false} MoveAccepted(t: Tree, id: Id, parent: Option<Id>)
    requires TreeOk(t) && id in t
    requires parent.Some? ==> parent.value in t && !(Paths(t)[id] <= Paths(t)[parent.value])
    requires TreeOk(t[id := Folder(parent, t[id].name)])
    ensures Move(t, id, parent) == Ok(t[id := Folder(parent, t[id].name)])
  {
    var v := Paths(t);
    var t' := t[id := Folder(parent, t[id].name)];
    var new_ := ParentPath(v, parent) + [t[id].name];
    MovedIsView(t, id, parent, t[id].name, new_);
    ViewIsPaths(t', Moved(v, v[id], new_));
    forall x | x in v && v[id] <= v[x]
      ensures ValidPath(new_ + v[x][|v[id]|..])
    {
      assert Paths(t')[x] == new_ + v[x][|v[id]|..];
    }
    forall x | x in t && x != id
      ensures t[x].parent != parent || t[x].name != t[id].name
    {
      assert Row(t', Paths(t'), x) && Row(t', Paths(t'), id);
    }
  }

  lemma {:induction false} HubStep(t: Tree, fid: Id, hub: Id, away: set<Id>, target: Option<Id>, k: Id)
    requires fid in t && k in Kids(t, fid) && k != hub && k != fid
    ensures k in Hub(t, fid, hub, away, target)
    ensures Hub(t, fid, hub, away, target)[k := Folder(target, t[k].name)] == Hub(t, fid, hub, away + {k}, target)
    ensures Hub(t, fid, hub, away, target)[k := Folder(Some(hub), t[k].name)] == Hub(t, fid, hub, away - {k}, target)
    ensures Hub(t, fid, hub, away, target)[k].name == t[k].name
  {
  }

  lemma {:induction false} KidIsNotHub(t: Tree, fid: Id, hub: Id, k: Id)
    requires TreeOk(t) && fid in t && k in Kids(t, fid) && (hub == fid || hub !in t)
    ensures k != hub && k != fid
  {
    KidPath(t, fid, k);
  }

  /** Where a folder that is not below `fid`, or a child still at home, is. */
  lemma {:induction false} HomePath(t: Tree, fid: Id, hub: Id, away: set<Id>, target: Option<Id>, x: Id)
    requires HubArgs(t, fid, hub, away, target) && x in t && x != hub && x != fid && !Carried(Paths(t), away, x)
    ensures var h := Hub(t, fid, hub, away, target); TreeOk(h) && x in h && Paths(h)[x] == Paths(t)[x]
  {
    HubOk(t, fid, hub, away, target);
  }

  lemma {:induction false} HomeKid(t: Tree, fid: Id, hub: Id, away: set<Id>, target: Option<Id>, k: Id)
    requires HubArgs(t, fid, hub, away, target) && k in Kids(t, fid) && k !in away
    ensures var h := Hub(t, fid, hub, away, target);
      && TreeOk(h) && k in h && Paths(h)[k] == Paths(t)[k] == Paths(t)[fid] + [t[k].name]
  {
    KidIsNotHub(t, fid, hub, k);
    KidPath(t, fid, k);
    hide Hub, HubView, TreeOk, Carried, CanEmpty;
    NotCarried(t, fid, away, fid);
    CarriedWithParent(t, fid, away, k);
    HomePath(t, fid, hub, away, target, k);
  }

  lemma {:induction false} HomeTarget(t: Tree, fid: Id, hub: Id, away: set<Id>, target: Id)
    requires HubArgs(t, fid, hub, away, Some(target))
    ensures var h := Hub(t, fid, hub, away, Some(target));
      TreeOk(h) && target in h && Paths(h)[target] == Paths(t)[target] && !(Paths(t)[fid] <= Paths(t)[target])
  {
    NotCarried(t, fid, away, target);
    HomePath(t, fid, hub, away, Some(target), target);
  }

  lemma {:induction false} ArgsHold(t: Tree, fid: Id, hub: Id, away: set<Id>, target: Option<Id>, k: Id)
    requires HubArgs(t, fid, hub, away, target) && k in Kids(t, fid)
    ensures HubArgs(t, fid, hub, away + {k}, target) && TreeOk(t) && fid in t && k != hub && k != fid && k in t
  {
    KidIsNotHub(t, fid, hub, k);
  }

  /** One child leaves: accepted, and the child is where the plan says. */
  lemma {:induction false} ChildLeaves(t: Tree, fid: Id, hub: Id, away: set<Id>, target: Option<Id>, k: Id)
    requires HubArgs(t, fid, hub, away, target) && k in Kids(t, fid) && k !in away
    ensures var h := Hub(t, fid, hub, away, target);
      && TreeOk(h) && k in h && Paths(h)[k] == Paths(t)[k]
      && Move(h, k, target) == Ok(Hub(t, fid, hub, away + {k}, target))
      && (target.Some? ==> target.value in h && Paths(h)[target.value] == Paths(t)[target.value])
  {
    hide HubArgs, Hub, HubView, TreeOk, Move, Carried, CanEmpty;
    ArgsHold(t, fid, hub, away, target, k);
    var h := Hub(t, fid, hub, away, target);
    HubOk(t, fid, hub, away + {k}, target);
    HubStep(t, fid, hub, away, target, k);
    HomeKid(t, fid, hub, away, target, k);
    if target.Some? {
      HomeTarget(t, fid, hub, away, target.value);
    }
    MoveAccepted(h, k, target);
  }

  /** One child comes back: accepted, and the child is where it was. */
  lemma {:induction false} ChildReturns(t: Tree, fid: Id, hub: Id, away: set<Id>, target: Option<Id>, k: Id)
    requires HubArgs(t, fid, hub, away, target) && k in away
    ensures var h := Hub(t, fid, hub, away, target);
      && TreeOk(h) && k in h && Paths(h)[k] == ParentPath(Paths(t), target) + [t[k].name]
      && hub in h && Paths(h)[hub] == Paths(t)[fid]
      && Move(h, k, Some(hub)) == Ok(Hub(t, fid, hub, away - {k}, target))
  {
    var v, h := Paths(t), Hub(t, fid, hub, away, target);
    KidIsNotHub(t, fid, hub, k);
    HubOk(t, fid, hub, away, target);
    HubOk(t, fid, hub, away - {k}, target);
    HubStep(t, fid, hub, away, target, k);
    KidPath(t, fid, k);
    HubRowOfAway(t, fid, hub, away, target, k);
    PlaceIsFree(t, fid, target, k, fid);
    MoveAccepted(h, k, Some(hub));
  }
}
