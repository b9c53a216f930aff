/** Undoing an empty-into: the objects, and the whole round trip. */
module FolderRoundTrip {
  import opened Wrappers
  import opened FolderPaths
  import opened FolderTree
  import opened FolderHub
  import opened FolderRuns
  import opened FolderLines
  import opened FolderReplay
  import opened FolderSlots
  import opened FolderRecovery
  import opened FolderActions
  import opened FolderUndo
  import opened FolderUndoInverse

  // --- one object, there and back -----------------------------------------------------------

  /**
   * Undo does not give an object its value back in two cases. The action wrote
   * it, undo cannot, and the cache does not show that the object carries its
   * folder (a transient domain, or an object taken out of every folder). Or the
   * action could not write an object that already carried the target, and undo
   * can.
   */
  predicate UndoMisses(x: Option<Path>, m: Line, first: Option<Access>, back: Option<Access>) {
    && first.Some? && back.Some?
    && (|| (first.value.write && !first.value.writing.Denied? && x != m.to
            && (first.value.writing.Transient? || m.to.None?) && (!back.value.write || back.value.writing.Denied?))
        || (!first.value.write && x == m.to != m.from && back.value.write && !back.value.writing.Denied?))
  }

  /** The object after the undo of a line that left it in slot `s`; unchanged when there is nothing to put back. */
  function Back(s: Slot, to: Option<Path>, back: Option<Access>): Slot {
    if s.from == to then s
    else Outcome(Slot(s.value, s.entry, to, Pending), s.from, back, true)
  }

  /** A done line leaves the object filed at its target, whoever holds the filing. */
  lemma {:induction false} DoneSlot(s: Slot, to: Option<Path>, access: Option<Access>, strict: bool)
    requires Outcome(s, to, access, strict).status == Done && s.status != Done
    ensures access.Some? && PathIn(Outcome(s, to, access, strict).entry) == to
  {
  }

  lemma {:induction false} SlotRoundTrip(s: Slot, m: Line, first: Option<Access>, back: Option<Access>)
    requires PathIn(s.entry) == m.from == s.from && s.status == Pending
    requires Outcome(s, m.to, first, false).status == Done
    requires Back(Outcome(s, m.to, first, false), m.to, back).status == Done
    ensures var s2 := Back(Outcome(s, m.to, first, false), m.to, back);
      && first.Some?
      && (s2.value == s.value <==> !UndoMisses(s.value, m, first, back))
      && (PathIn(s2.entry) == m.from <==> (first.value.write ==> s.value == m.from))
  {
    DoneSlot(s, m.to, first, false);
    var s1 := Outcome(s, m.to, first, false);
    if s1.from != m.to {
      DoneSlot(Slot(s1.value, s1.entry, m.to, Pending), s1.from, back, true);
    }
  }

  /** With the same answers, the way back always succeeds. */
  lemma {:induction false} SameAnswers(s: Slot, m: Line, access: Option<Access>)
    requires PathIn(s.entry) == m.from == s.from && s.status == Pending
    requires Outcome(s, m.to, access, false).status == Done
    ensures Back(Outcome(s, m.to, access, false), m.to, access).status == Done
    ensures !UndoMisses(s.value, m, access, access)
  {
  }

  // --- the plan of the undo -------------------------------------------------------------------

  lemma {:induction false} OneLine(moves: seq<Line>, i: nat)
    requires DistinctKeys(moves) && i < |moves| && moves[i].what.ObjectRow? && moves[i].status == Done
    ensures FirstFrom(moves, moves[i].what.key) == moves[i].from
    ensures LastTo(moves, moves[i].what.key) == moves[i].to
  {
    OneFirst(moves, i);
    OneLast(moves, i);
  }

  lemma {:induction false} OneFirst(moves: seq<Line>, i: nat)
    requires DistinctKeys(moves) && i < |moves| && moves[i].what.ObjectRow? && moves[i].status == Done
    ensures FirstFrom(moves, moves[i].what.key) == moves[i].from
  {
    if i == 0 {
    } else {
      assert moves[0].what != moves[i].what;
      OneFirst(moves[1..], i - 1);
    }
  }

  lemma {:induction false} OneLast(moves: seq<Line>, i: nat)
    requires DistinctKeys(moves) && i < |moves| && moves[i].what.ObjectRow? && moves[i].status == Done
    ensures LastTo(moves, moves[i].what.key) == moves[i].to
  {
    var n := |moves| - 1;
    if i < n {
      assert moves[n].what != moves[i].what;
      OneLast(moves[..n], i);
    }
  }

  /** Each line of the plan takes one object back over one done line. */
  lemma {:induction false} PlannedFrom(w: World, order: seq<Key>, j: nat) returns (i: nat)
    requires DistinctKeys(w.journal) && OrderOf(w.journal, order) && j < |UndoLines(w.journal, w, order)|
    ensures var m := UndoLines(w.journal, w, order)[j];
      && i < |w.journal| && w.journal[i].what == m.what && m.what.ObjectRow?
      && m == Pend(m.what, w.journal[i].to, w.journal[i].from) && m.from != m.to
  {
    UndoPlanKeepsConflicts(w.journal, w, order);
    var m := UndoLines(w.journal, w, order)[j];
    assert m.what.key in order;
    i :| 0 <= i < |w.journal| && DoneFor(w.journal[i], m.what.key);
    OneLine(w.journal, i);
  }

  /** A done object line that left the cache at its target is planned, unless there is nothing to put back. */
  lemma {:induction false} PlannedFor(w: World, order: seq<Key>, i: nat) returns (j: nat)
    requires DistinctKeys(w.journal) && OrderOf(w.journal, order) && i < |w.journal|
    requires w.journal[i].what.ObjectRow? && w.journal[i].status == Done && w.journal[i].from != w.journal[i].to
    requires CachedPath(w, w.journal[i].what.key) == w.journal[i].to
    ensures j < |UndoLines(w.journal, w, order)|
    ensures UndoLines(w.journal, w, order)[j] == Pend(w.journal[i].what, w.journal[i].to, w.journal[i].from)
  {
    UndoPlanKeepsConflicts(w.journal, w, order);
    OneLine(w.journal, i);
    var k := w.journal[i].what.key;
    assert DoneFor(w.journal[i], k);
    assert k in order;
    j :| 0 <= j < |UndoLines(w.journal, w, order)| && UndoLines(w.journal, w, order)[j].what == ObjectRow(k);
  }

  // --- undo when every folder goes back ---------------------------------------------------------

  /** The world in which the undo of `w`'s action starts on its object lines. */
  ghost function FoldersBack(w: World, order: seq<Key>): World {
    UndoFolders(Post(w, UndoLines(w.journal, w, order)), w.journal, |w.journal|).0
  }

  ghost predicate AllBack(w: World, order: seq<Key>) {
    UndoFolders(Post(w, UndoLines(w.journal, w, order)), w.journal, |w.journal|).1 == []
  }

  lemma {:induction false} UndoRuns(w: World, order: seq<Key>, env: Env)
    requires KeyOrder(order) && AllBack(w, order)
    ensures var lines, w2 := UndoLines(w.journal, w, order), FoldersBack(w, order);
      && |lines| <= |w2.journal| && w2.journal[..|lines|] == lines
      && (forall i :: |lines| <= i < |w2.journal| ==> w2.journal[i].what.FolderRow? && w2.journal[i].status == Done)
      && w2.cache == w.cache && w2.objects == w.objects && DistinctKeys(w2.journal)
      && Undo(w, w.journal, order, env) == Run(w2, Range(0, |lines|), Lines(env, true))
  {
    UndoShape(w, w.journal, order);
    NothingStuck(FoldersBack(w, order), |UndoLines(w.journal, w, order)|);
  }

  lemma {:induction false} UndoKeepsTree(w: World, order: seq<Key>, env: Env)
    requires KeyOrder(order) && AllBack(w, order)
    ensures Undo(w, w.journal, order, env).tree == FoldersBack(w, order).tree
  {
    UndoRuns(w, order, env);
    UndoPlanKeepsConflicts(w.journal, w, order);
    LinesLocal(env, true);
    var lines, w2 := UndoLines(w.journal, w, order), FoldersBack(w, order);
    assert forall i :: 0 <= i < |lines| ==> w2.journal[i] == lines[i];
    ObjectsKeepTree(w2, Range(0, |lines|), Lines(env, true));
  }

  /** What each planned line does to its object. */
  lemma {:induction false} UndoSlot(w: World, order: seq<Key>, env: Env, i: nat, j: nat)
    requires DistinctKeys(w.journal) && KeyOrder(order) && AllBack(w, order)
    requires i < |w.journal| && w.journal[i].what.ObjectRow? && w.journal[i].from != w.journal[i].to
    requires j < |UndoLines(w.journal, w, order)|
    requires UndoLines(w.journal, w, order)[j] == Pend(w.journal[i].what, w.journal[i].to, w.journal[i].from)
    ensures var m, r := w.journal[i], Undo(w, w.journal, order, env);
      && j < |r.journal| && r.journal[j].what == m.what
      && SlotAt(r, j) == Back(SlotAt(w, i), m.to, AccessTo(env, m.what.key))
  {
    UndoRuns(w, order, env);
    var lines, w2 := UndoLines(w.journal, w, order), FoldersBack(w, order);
    assert w2.journal[j] == lines[j];
    RunOutcome(w2, Range(0, |lines|), j, env, true);
  }

  /** Objects without a planned line stay as they are. */
  lemma {:induction false} UndoKeepsKey(w: World, order: seq<Key>, env: Env, key: Key)
    requires KeyOrder(order) && AllBack(w, order)
    requires forall j :: 0 <= j < |UndoLines(w.journal, w, order)| ==> UndoLines(w.journal, w, order)[j].what != ObjectRow(key)
    ensures var r := Undo(w, w.journal, order, env); Value(r, key) == Value(w, key) && Cached(r, key) == Cached(w, key)
  {
    UndoRuns(w, order, env);
    var lines, w2 := UndoLines(w.journal, w, order), FoldersBack(w, order);
    LinesLocal(env, true);
    assert forall j :: 0 <= j < |lines| ==> w2.journal[j] == lines[j];
    RunKeepsKey(w2, Range(0, |lines|), key, Lines(env, true));
  }

  /** The object of line `i` after the undo, planned or not. */
  lemma {:induction false} UndoneObject(w: World, order: seq<Key>, env: Env, i: nat)
    requires DistinctKeys(w.journal) && OrderOf(w.journal, order) && AllBack(w, order)
    requires i < |w.journal| && w.journal[i].what.ObjectRow? && w.journal[i].status == Done
    requires CachedPath(w, w.journal[i].what.key) == w.journal[i].to
    ensures var m, r := w.journal[i], Undo(w, w.journal, order, env);
      var s := Back(SlotAt(w, i), m.to, AccessTo(env, m.what.key));
      Value(r, m.what.key) == s.value && Cached(r, m.what.key) == s.entry && (AllDone(r) ==> s.status == Done)
  {
    var m := w.journal[i];
    if m.from != m.to {
      var j := PlannedFor(w, order, i);
      UndoSlot(w, order, env, i, j);
    } else {
      forall j | 0 <= j < |UndoLines(w.journal, w, order)|
        ensures UndoLines(w.journal, w, order)[j].what != m.what
      {
        var k := PlannedFrom(w, order, j);
        assert k != i;
      }
      UndoKeepsKey(w, order, env, m.what.key);
    }
  }

  // --- the whole round trip -------------------------------------------------------------------

  lemma {:induction false} ApplyKeepsFrom(w: World, es: seq<Effect>)
    requires forall e :: e in es ==> !e.SetFrom?
    ensures forall j :: 0 <= j < |w.journal| ==> ApplyAll(w, es).journal[j].from == w.journal[j].from
    decreases |es|
  {
    if es == [] {
    } else {
      assert es[0] in es;
      assert forall e :: e in es[1..] ==> e in es;
      ApplyKeepsFrom(Apply(w, es[0]), es[1..]);
    }
  }

  /** No run changes where a folder line starts. */
  lemma {:induction false} RunKeepsFolderFrom(w: World, todo: seq<nat>, j: nat, env: Env, strict: bool)
    requires Runnable(w, todo) && j < |w.journal| && w.journal[j].what.FolderRow?
    ensures Run(w, todo, Lines(env, strict)).journal[j].from == w.journal[j].from
    decreases |todo|
  {
    if todo == [] {
    } else {
      assert Tail(todo);
      var i := todo[0];
      var s := Step(w, i, Lines(env, strict));
      LinesLocal(env, strict);
      StepFrame(w, i, Lines(env, strict));
      if i == j {
        ApplyKeepsFrom(w, LineEffects(w, i, env, strict));
      }
      RunKeepsFolderFrom(s, todo[1..], j, env, strict);
    }
  }

  /** A finished action leaves its folder lines as posted, but done, and its object lines where they were. */
  lemma {:induction false} CompletedLines(w: World, env: Env)
    requires DistinctKeys(w.journal) && AllDone(Complete(w, env))
    ensures DistinctKeys(Complete(w, env).journal) && SameLines(Complete(w, env), w)
    ensures forall i :: 0 <= i < |w.journal| && w.journal[i].what.FolderRow? ==>
      Complete(w, env).journal[i] == w.journal[i].(status := Done)
  {
    LinesLocal(env, false);
    RunKeepsLines(w, Range(0, |w.journal|), Lines(env, false));
    forall i | 0 <= i < |w.journal| && w.journal[i].what.FolderRow?
      ensures Complete(w, env).journal[i] == w.journal[i].(status := Done)
    {
      RunKeepsFolderFrom(w, Range(0, |w.journal|), i, env, false);
    }
  }

  /** What an empty-into posts: its children, objects, and the deletion. */
  ghost predicate EmptyShape(t: Tree, fid: Id, kids: seq<Id>, target: Option<Id>, ls: seq<Line>) {
    && |kids| < |ls| && DistinctKeys(ls)
    && (forall i :: 0 <= i < |kids| ==> ls[i] == KidLines(t, kids, target)[i])
    && (forall i :: |kids| <= i < |ls| - 1 ==> ls[i].what.ObjectRow?)
    && ls[|ls| - 1] == DeleteLine(t, fid)
  }

  /** Such lines, run to their end, are the journal that undo starts from. */
  lemma {:induction false} EmptiedJournal(w: World, env: Env, fid: Id, kids: seq<Id>, target: Option<Id>)
    requires CanEmpty(w.tree, fid, target) && KidsOf(w.tree, fid, kids) && fid in w.tree
    requires EmptyShape(w.tree, fid, kids, target, w.journal) && AllDone(Complete(w, env))
    ensures EmptiedMoves(w.tree, fid, kids, target, Complete(w, env).journal)
    ensures Complete(w, env).tree == Hub(w.tree, fid, fid, KidSet(kids, |kids|), target) - {fid}
  {
    hide CanEmpty, Hub;
    EmptiedTree(w, env, fid, kids, target, |w.journal| - 1);
    CompletedLines(w, env);
  }

  lemma {:induction false} EmptyLinesShape(w: World, keys: seq<Key>, fid: Id, kids: seq<Id>, target: Option<Id>)
    requires TreeOk(w.tree) && fid in w.tree && KidsOf(w.tree, fid, kids) && KeyOrder(keys)
    ensures EmptyShape(w.tree, fid, kids, target, EmptyLines(w, keys, fid, kids, target))
  {
    EmptyLinesParts(w, keys, fid, kids, target);
    EmptyObjectsClean(w, keys, fid, kids, target);
    var a, b := KidLines(w.tree, kids, target), EmptyObjects(w, keys, fid, kids, target);
    var ls := EmptyLines(w, keys, fid, kids, target);
    hide TreeOk, KidsOf, KeyOrder, Paths, EmptyLines, EmptyObjects;
    forall i | |kids| <= i < |ls| - 1
      ensures ls[i].what.ObjectRow?
    {
      assert ls[i] == b[i - |a|];
    }
    forall i, j | 0 <= i < j < |ls| && ls[i].what.ObjectRow?
      ensures ls[i].what != ls[j].what
    {
      if j < |ls| - 1 {
        assert ls[i] == b[i - |a|] && ls[j] == b[j - |a|];
      }
    }
  }

  /** The folders are back: each under its own id at its own path, the emptied one under a new id. */
  lemma {:induction false} HubHome(t: Tree, fid: Id, target: Option<Id>, next: Id)
    requires CanEmpty(t, fid, target) && next !in t && fid in t && Paths(t).Keys == t.Keys
    ensures var h := Hub(t, fid, next, {}, target);
      TreeOk(h) && Paths(h) == (Paths(t) - {fid})[next := Paths(t)[fid]]
  {
    hide CanEmpty, TreeOk, Hub, PathOf;
    HubOk(t, fid, next, {}, target);
    assert forall x :: x in t ==> !Carried(Paths(t), {}, x);
  }

  lemma {:induction false} FoldersRestored(w: World, env: Env, fid: Id, kids: seq<Id>, target: Option<Id>, order: seq<Key>)
    requires CanEmpty(w.tree, fid, target) && KidsOf(w.tree, fid, kids) && fid in w.tree
    requires (forall k :: k in Kids(w.tree, fid) ==> k in kids) && Fresh(w.tree, w.nextId)
    requires EmptyShape(w.tree, fid, kids, target, w.journal) && AllDone(Complete(w, env))
    ensures AllBack(Complete(w, env), order)
    ensures FoldersBack(Complete(w, env), order).tree == Hub(w.tree, fid, w.nextId, {}, target)
  {
    hide CanEmpty, Hub;
    EmptiedJournal(w, env, fid, kids, target);
    KidSetAll(w.tree, fid, kids);
    var w1 := Complete(w, env);
    FoldersReturn(Post(w1, UndoLines(w1.journal, w1, order)), w.tree, fid, kids, target, w1.journal);
  }

  /** The object of a line after the action and its undo. */
  lemma {:induction false} ObjectRestored(w: World, env: Env, order: seq<Key>, back: Env, i: nat)
    requires Posted(w) && AllDone(Complete(w, env)) && OrderOf(Complete(w, env).journal, order) && AllBack(Complete(w, env), order)
    requires i < |w.journal| && w.journal[i].what.ObjectRow?
    ensures var m, r := w.journal[i], Undo(Complete(w, env), Complete(w, env).journal, order, back);
      var s := Back(Outcome(SlotAt(w, i), m.to, AccessTo(env, m.what.key), false), m.to, AccessTo(back, m.what.key));
      && Value(r, m.what.key) == s.value && Cached(r, m.what.key) == s.entry && (AllDone(r) ==> s.status == Done)
      && Outcome(SlotAt(w, i), m.to, AccessTo(env, m.what.key), false).status == Done
      && PathIn(SlotAt(w, i).entry) == m.from == SlotAt(w, i).from && SlotAt(w, i).status == Pending
  {
    var w1 := Complete(w, env);
    CompletedLines(w, env);
    RunOutcome(w, Range(0, |w.journal|), i, env, false);
    DoneSlot(SlotAt(w, i), w.journal[i].to, AccessTo(env, w.journal[i].what.key), false);
    UndoneObject(w1, order, back, i);
  }

  ghost predicate ObjectBack(w: World, r: World, m: Line, env: Env, back: Env)
    requires m.what.ObjectRow?
  {
    var key := m.what.key;
    && (Value(r, key) == Value(w, key) <==> !UndoMisses(Value(w, key), m, AccessTo(env, key), AccessTo(back, key)))
    && (CachedPath(r, key) == CachedPath(w, key) <==> (key in env && env[key].write ==> Value(w, key) == m.from))
  }

  lemma {:induction false} LineRestored(w: World, env: Env, order: seq<Key>, back: Env, m: Line)
    requires Posted(w) && AllDone(Complete(w, env)) && OrderOf(Complete(w, env).journal, order) && AllBack(Complete(w, env), order)
    requires m in w.journal && m.what.ObjectRow?
    requires AllDone(Undo(Complete(w, env), Complete(w, env).journal, order, back))
    ensures ObjectBack(w, Undo(Complete(w, env), Complete(w, env).journal, order, back), m, env, back)
  {
    var i :| 0 <= i < |w.journal| && w.journal[i] == m;
    ObjectRestored(w, env, order, back, i);
    SlotRoundTrip(SlotAt(w, i), m, AccessTo(env, m.what.key), AccessTo(back, m.what.key));
  }

  /** The world after an empty-into of all the folder's content, every line run. */
  ghost function Emptied(w: World, env: Env, keys: seq<Key>, fid: Id, kids: seq<Id>, target: Option<Id>): World {
    Complete(Post(w, EmptyLines(w, keys, fid, kids, target)), env)
  }

  /** A request that the program accepts, with every child of the folder and the cache in some order. */
  ghost predicate Request(w: World, keys: seq<Key>, fid: Id, kids: seq<Id>, target: Option<Id>) {
    && CanEmpty(w.tree, fid, target) && Fresh(w.tree, w.nextId)
    && KidsOf(w.tree, fid, kids) && (forall k :: k in Kids(w.tree, fid) ==> k in kids)
    && KeyOrder(keys)
  }

  /**
   * The round trip. After an empty-into whose lines are all done, undo puts
   * every folder back at its path, whatever the shape of the tree and the
   * target; when all its lines are done too, each object carries the value
   * read before the action unless `UndoMisses` says so, and the cache shows
   * its former filing if and only if that filing was the value the object
   * carried (or the action could not write it).
   */
  lemma {:induction false} UndoInvertsEmptyInto(w: World, env: Env, back: Env,
      keys: seq<Key>, fid: Id, kids: seq<Id>, target: Option<Id>, order: seq<Key>)
    requires Request(w, keys, fid, kids, target)
    requires AllDone(Emptied(w, env, keys, fid, kids, target)) && OrderOf(Emptied(w, env, keys, fid, kids, target).journal, order)
    ensures var w1 := Emptied(w, env, keys, fid, kids, target);
      var r := Undo(w1, w1.journal, order, back);
      var lines := EmptyLines(w, keys, fid, kids, target);
      && TreeOk(r.tree) && Paths(r.tree) == (Paths(w.tree) - {fid})[w.nextId := Paths(w.tree)[fid]]
      && (AllDone(r) ==> forall m :: m in lines && m.what.ObjectRow? ==> ObjectBack(w, r, m, env, back))
      && forall key :: (forall m :: m in lines ==> m.what != ObjectRow(key)) ==>
           Value(r, key) == Value(w, key) && Cached(r, key) == Cached(w, key)
  {
    hide CanEmpty, Hub, Undo, EmptyLines, Posted, EmptyShape, AllBack, KidsOf, Complete, TreeOk;
    var w0 := Post(w, EmptyLines(w, keys, fid, kids, target));
    var w1 := Complete(w0, env);
    var r := Undo(w1, w1.journal, order, back);
    RequestHolds(w, keys, fid, kids, target);
    FoldersRestored(w0, env, fid, kids, target, order);
    HubHome(w.tree, fid, target, w.nextId);
    UndoKeepsTree(w1, order, back);
    forall m | AllDone(r) && m in w0.journal && m.what.ObjectRow?
      ensures ObjectBack(w0, r, m, env, back)
    {
      LineRestored(w0, env, order, back, m);
    }
    forall key | forall m :: m in w0.journal ==> m.what != ObjectRow(key)
      ensures Value(r, key) == Value(w, key) && Cached(r, key) == Cached(w, key)
    {
      OtherKept(w0, env, order, back, key);
    }
  }

  lemma {:induction false} RequestHolds(w: World, keys: seq<Key>, fid: Id, kids: seq<Id>, target: Option<Id>)
    requires Request(w, keys, fid, kids, target)
    ensures TreeOk(w.tree) && fid in w.tree && w.nextId !in w.tree && Paths(w.tree).Keys == w.tree.Keys
    ensures Posted(Post(w, EmptyLines(w, keys, fid, kids, target)))
    ensures EmptyShape(w.tree, fid, kids, target, EmptyLines(w, keys, fid, kids, target))
  {
    EmptyIsPosted(w, keys, fid, kids, target);
    EmptyLinesShape(w, keys, fid, kids, target);
  }

  /** An object without a line keeps its value and its filing through both runs. */
  lemma {:induction false} OtherKept(w: World, env: Env, order: seq<Key>, back: Env, key: Key)
    requires Posted(w) && AllDone(Complete(w, env)) && OrderOf(Complete(w, env).journal, order) && AllBack(Complete(w, env), order)
    requires forall m :: m in w.journal ==> m.what != ObjectRow(key)
    ensures var r := Undo(Complete(w, env), Complete(w, env).journal, order, back);
      Value(r, key) == Value(w, key) && Cached(r, key) == Cached(w, key)
  {
    var w1 := Complete(w, env);
    LinesLocal(env, false);
    assert forall i :: 0 <= i < |w.journal| ==> w.journal[i] in w.journal;
    RunKeepsKey(w, Range(0, |w.journal|), key, Lines(env, false));
    CompletedLines(w, env);
    forall j | 0 <= j < |UndoLines(w1.journal, w1, order)|
      ensures UndoLines(w1.journal, w1, order)[j].what != ObjectRow(key)
    {
      var i := PlannedFrom(w1, order, j);
      assert w1.journal[i].what == w.journal[i].what;
    }
    UndoKeepsKey(w1, order, back, key);
  }

  /** With the same rights and the same answers, the undo ends with every line done. */
  lemma {:induction false} UndoCompletes(w: World, env: Env, order: seq<Key>)
    requires Posted(w) && AllDone(Complete(w, env)) && OrderOf(Complete(w, env).journal, order) && AllBack(Complete(w, env), order)
    ensures AllDone(Undo(Complete(w, env), Complete(w, env).journal, order, env))
  {
    var w1 := Complete(w, env);
    var lines, w2 := UndoLines(w1.journal, w1, order), FoldersBack(w1, order);
    UndoRuns(w1, order, env);
    var r := Undo(w1, w1.journal, order, env);
    forall j | 0 <= j < |r.journal|
      ensures r.journal[j].status == Done
    {
      if j < |lines| {
        PlannedLineDone(w, env, order, j);
      } else {
        LinesLocal(env, true);
        RunKeepsAt(w2, Range(0, |lines|), j, Lines(env, true));
      }
    }
  }

  lemma {:induction false} PlannedLineDone(w: World, env: Env, order: seq<Key>, j: nat)
    requires Posted(w) && AllDone(Complete(w, env)) && OrderOf(Complete(w, env).journal, order) && AllBack(Complete(w, env), order)
    requires var w1 := Complete(w, env); j < |UndoLines(w1.journal, w1, order)|
    ensures var r := Undo(Complete(w, env), Complete(w, env).journal, order, env);
      j < |r.journal| && r.journal[j].status == Done
  {
    var w1 := Complete(w, env);
    CompletedLines(w, env);
    var i := PlannedFrom(w1, order, j);
    var m := w.journal[i];
    ObjectRestored(w, env, order, env, i);
    RunOutcome(w, Range(0, |w.journal|), i, env, false);
    UndoSlot(w1, order, env, i, j);
    SameAnswers(SlotAt(w, i), m, AccessTo(env, m.what.key));
  }

  /**
   * Undone with the same rights and the same answers, an empty-into leaves
   * nothing behind: undo completes, every object carries the exact value read
   * before, and the cached filings are back as well if the cache agreed with
   * the objects at the start.
   */
  lemma {:induction false} UndoRestoresAll(w: World, env: Env, keys: seq<Key>, fid: Id, kids: seq<Id>, target: Option<Id>, order: seq<Key>)
    requires Request(w, keys, fid, kids, target)
    requires AllDone(Emptied(w, env, keys, fid, kids, target)) && OrderOf(Emptied(w, env, keys, fid, kids, target).journal, order)
    ensures var w1 := Emptied(w, env, keys, fid, kids, target);
      var r := Undo(w1, w1.journal, order, env);
      && AllDone(r) && Paths(r.tree) == (Paths(w.tree) - {fid})[w.nextId := Paths(w.tree)[fid]]
      && (forall key :: Value(r, key) == Value(w, key))
      && (Agreed(Post(w, EmptyLines(w, keys, fid, kids, target)), env) ==>
            forall key :: CachedPath(r, key) == CachedPath(w, key))
  {
    hide CanEmpty, Hub, Undo, EmptyLines, Posted, EmptyShape, AllBack, KidsOf, Complete, TreeOk, Agreed;
    var w0 := Post(w, EmptyLines(w, keys, fid, kids, target));
    var w1 := Complete(w0, env);
    var r := Undo(w1, w1.journal, order, env);
    UndoInvertsEmptyInto(w, env, env, keys, fid, kids, target, order);
    RequestHolds(w, keys, fid, kids, target);
    FoldersRestored(w0, env, fid, kids, target, order);
    UndoCompletes(w0, env, order);
    forall key: Key
      ensures Value(r, key) == Value(w, key)
      ensures Agreed(w0, env) ==> CachedPath(r, key) == CachedPath(w, key)
    {
      if i :| 0 <= i < |w0.journal| && w0.journal[i].what == ObjectRow(key) {
        assert w0.journal[i] in w0.journal;
        LineBack(w0, r, env, i);
      }
    }
  }

  lemma {:induction false} LineBack(w: World, r: World, env: Env, i: nat)
    requires i < |w.journal| && w.journal[i].what.ObjectRow?
    requires ObjectBack(w, r, w.journal[i], env, env)
    ensures Value(r, w.journal[i].what.key) == Value(w, w.journal[i].what.key)
    ensures Agreed(w, env) ==> CachedPath(r, w.journal[i].what.key) == CachedPath(w, w.journal[i].what.key)
  {
    assert Agreed(w, env) ==> AgreesAt(w, i, env);
  }
}
