/** `undo` (bin/harvester-folders.py, cmd_undo; bin/lib/folders.py, undo_plan). */
module FolderUndo {
  import opened Wrappers
  import opened FolderPaths
  import opened FolderTree
  import opened FolderRuns
  import opened FolderLines
  import opened FolderReplay
  import opened FolderRecovery
  import opened FolderActions

  // --- the plan -------------------------------------------------------------------------

  predicate DoneFor(m: Line, k: Key) {
    m.what == ObjectRow(k) && m.status == Done
  }

  /** Where the first done line of an object starts. */
  function FirstFrom(moves: seq<Line>, k: Key): Option<Path> {
    if moves == [] then None
    else if DoneFor(moves[0], k) then moves[0].from
    else FirstFrom(moves[1..], k)
  }

  /** Where the last done line of an object ends. */
  function LastTo(moves: seq<Line>, k: Key): Option<Path> {
    if moves == [] then None
    else if DoneFor(moves[|moves| - 1], k) then moves[|moves| - 1].to
    else LastTo(moves[..|moves| - 1], k)
  }

  /** `undo_plan`: an object filed elsewhere since is not taken back, nor one that did not move. */
  function UndoLines(moves: seq<Line>, w: World, order: seq<Key>): seq<Line> {
    if order == [] then []
    else
      var k := order[0];
      (if CachedPath(w, k) == LastTo(moves, k) && FirstFrom(moves, k) != LastTo(moves, k)
       then [Pend(ObjectRow(k), LastTo(moves, k), FirstFrom(moves, k))]
       else [])
      + UndoLines(moves, w, order[1..])
  }

  datatype Elsewhere = Elsewhere(key: Key, expected: Option<Path>, current: Option<Path>)

  /** The objects that are no longer filed where the action left them. */
  function Conflicts(moves: seq<Line>, w: World, order: seq<Key>): seq<Elsewhere> {
    if order == [] then []
    else
      var k := order[0];
      (if CachedPath(w, k) != LastTo(moves, k) then [Elsewhere(k, LastTo(moves, k), CachedPath(w, k))] else [])
      + Conflicts(moves, w, order[1..])
  }

  /** The plan and the conflicts, object by object. */
  lemma {:induction false} PlanStep(moves: seq<Line>, w: World, order: seq<Key>, n: nat)
    requires n < |order|
    ensures var k, ls, cs := order[n], UndoLines(moves, w, order[n + 1..]), Conflicts(moves, w, order[n + 1..]);
      if CachedPath(w, k) != LastTo(moves, k) then
        && UndoLines(moves, w, order[n..]) == ls
        && Conflicts(moves, w, order[n..]) == [Elsewhere(k, LastTo(moves, k), CachedPath(w, k))] + cs
      else
        && UndoLines(moves, w, order[n..])
           == (if FirstFrom(moves, k) != LastTo(moves, k) then [Pend(ObjectRow(k), LastTo(moves, k), FirstFrom(moves, k))] + ls else ls)
        && Conflicts(moves, w, order[n..]) == cs
  {
    hide FirstFrom, LastTo;
    assert order[n..][0] == order[n] && order[n..][1..] == order[n + 1..];
  }

  lemma {:induction false} PlanEnd(moves: seq<Line>, w: World)
    ensures UndoLines(moves, w, []) == [] && Conflicts(moves, w, []) == []
  {
  }

  predicate Names(cs: seq<Elsewhere>, k: Key) {
    exists i :: 0 <= i < |cs| && cs[i].key == k
  }

  /** A done object is in conflict, or taken back, or did not move: exactly one of the three. */
  lemma {:induction false} ConflictsAreTheRest(moves: seq<Line>, w: World, order: seq<Key>, k: Key)
    requires KeyOrder(order) && k in order
    ensures Names(Conflicts(moves, w, order), k) <==> CachedPath(w, k) != LastTo(moves, k)
    ensures (exists i :: 0 <= i < |UndoLines(moves, w, order)| && UndoLines(moves, w, order)[i].what == ObjectRow(k))
       <==> CachedPath(w, k) == LastTo(moves, k) && FirstFrom(moves, k) != LastTo(moves, k)
  {
    UndoPlanKeepsConflicts(moves, w, order);
    ConflictIff(moves, w, order, k);
  }

  lemma {:induction false} NamesAppend(a: seq<Elsewhere>, b: seq<Elsewhere>, k: Key)
    ensures Names(a + b, k) <==> Names(a, k) || Names(b, k)
  {
    forall i | 0 <= i < |b|
      ensures (a + b)[i + |a|] == b[i]
    {
    }
    forall i | 0 <= i < |a + b|
      ensures (a + b)[i].key == k ==> Names(a, k) || Names(b, k)
    {
      assert (a + b)[i] == if i < |a| then a[i] else b[i - |a|];
    }
    if Names(a, k) {
      var i :| 0 <= i < |a| && a[i].key == k;
      assert (a + b)[i].key == k;
    }
  }

  lemma {:induction false} ConflictIff(moves: seq<Line>, w: World, order: seq<Key>, k: Key)
    ensures Names(Conflicts(moves, w, order), k) <==> k in order && CachedPath(w, k) != LastTo(moves, k)
  {
    if order == [] {
    } else {
      ConflictIff(moves, w, order[1..], k);
      var head: seq<Elsewhere> := if CachedPath(w, order[0]) != LastTo(moves, order[0])
        then [Elsewhere(order[0], LastTo(moves, order[0]), CachedPath(w, order[0]))] else [];
      NamesAppend(head, Conflicts(moves, w, order[1..]), k);
      assert Names(head, k) <==> k == order[0] && CachedPath(w, k) != LastTo(moves, k) by {
        if head != [] {
          assert head[0].key == order[0];
        }
      }
      assert k in order <==> k == order[0] || k in order[1..];
    }
  }

  /** The objects with a done line, in the order of their keys. */
  ghost predicate OrderOf(moves: seq<Line>, order: seq<Key>) {
    && KeyOrder(order)
    && forall k :: k in order <==> exists i :: 0 <= i < |moves| && DoneFor(moves[i], k)
  }

  // --- the folders -----------------------------------------------------------------------

  /** One folder line put back; false when it stays where it is. */
  ghost function UndoFolder(w: World, m: Line): (World, bool)
    requires m.what.FolderRow? && m.from.Some?
  {
    match m.to
    case None =>
      (match EnsurePath(w.tree, w.nextId, m.from.value)
       case Err(_) => (w, false)
       case Ok((t, next)) => (w.(tree := t, nextId := next, journal := w.journal + [Line(m.what, None, m.from, Done)]), true))
    case Some(_) =>
      var cur := PathOf(w.tree, m.what.id);
      if cur != m.to then (w, false)
      else
        var (trees, status) := Relocate(w.tree, m.what.id, cur.value, m.from.value);
        var w' := w.(tree := LastTree(w.tree, trees));
        if status == Done then (w'.(journal := w.journal + [Line(m.what, m.to, m.from, Done)]), true) else (w', false)
  }

  predicate UndoesFolder(m: Line) {
    m.what.FolderRow? && m.status == Done && m.from.Some?
  }

  /** The folder lines among the first `n`, last first; the former paths of those that could not go back. */
  ghost function UndoFolders(w: World, moves: seq<Line>, n: nat): (World, seq<Path>)
    requires n <= |moves|
    decreases n
  {
    if n == 0 then (w, [])
    else
      var m := moves[n - 1];
      if !UndoesFolder(m) then UndoFolders(w, moves, n - 1)
      else
        var (w1, ok) := UndoFolder(w, m);
        var (w2, stuck) := UndoFolders(w1, moves, n - 1);
        (w2, if ok then stuck else [m.from.value] + stuck)
  }

  // --- the objects -----------------------------------------------------------------------

  predicate UnderStuck(m: Line, stuck: seq<Path>) {
    m.to.Some? && exists f :: f in stuck && f <= m.to.value
  }

  /** Lines whose former folder could not go back are skipped. */
  ghost function SkipStuck(w: World, n: nat, stuck: seq<Path>): (r: World)
    requires n <= |w.journal|
    ensures |r.journal| == |w.journal|
  {
    if n == 0 then w
    else
      var r := SkipStuck(w, n - 1, stuck);
      if UnderStuck(w.journal[n - 1], stuck) then Apply(r, Mark(n - 1, Skipped)) else r
  }

  ghost function Kept(w: World, n: nat, stuck: seq<Path>): (todo: seq<nat>)
    requires n <= |w.journal|
    ensures forall i :: i in todo ==> i < n
  {
    if n == 0 then []
    else Kept(w, n - 1, stuck) + (if UnderStuck(w.journal[n - 1], stuck) then [] else [n - 1])
  }

  /** `cmd_undo` of the action whose journal is `moves`, itself a new action. */
  ghost function Undo(w: World, moves: seq<Line>, order: seq<Key>, env: Env): World {
    var lines := UndoLines(moves, w, order);
    var (w1, stuck) := UndoFolders(Post(w, lines), moves, |moves|);
    if |w1.journal| < |lines| then w1
    else Run(SkipStuck(w1, |lines|, stuck), Kept(w1, |lines|, stuck), Lines(env, true))
  }

  lemma {:induction false} FoldersOnlyAppend(w: World, moves: seq<Line>, n: nat)
    requires n <= |moves|
    ensures var w' := UndoFolders(w, moves, n).0;
      && w.journal <= w'.journal && w'.cache == w.cache && w'.objects == w.objects
      && (forall i :: |w.journal| <= i < |w'.journal| ==> w'.journal[i].what.FolderRow? && w'.journal[i].status == Done)
    decreases n
  {
    if n == 0 {
    } else {
      var m := moves[n - 1];
      if UndoesFolder(m) {
        var (w1, ok) := UndoFolder(w, m);
        FoldersOnlyAppend(w1, moves, n - 1);
      } else {
        FoldersOnlyAppend(w, moves, n - 1);
      }
    }
  }

  lemma {:induction false} NothingStuck(w: World, n: nat)
    requires n <= |w.journal|
    ensures SkipStuck(w, n, []) == w && Kept(w, n, []) == Range(0, n)
  {
    if n == 0 {
    } else {
      NothingStuck(w, n - 1);
      RangeSplit(0, n - 1, n);
      assert Range(n - 1, n) == [n - 1];
    }
  }

  // --- strict undo ------------------------------------------------------------------------

  /** Undo never overwrites an object that was filed elsewhere since, whichever store shows it. */
  lemma {:induction false} UndoPlanKeepsConflicts(moves: seq<Line>, w: World, order: seq<Key>)
    requires KeyOrder(order)
    ensures CleanObjects(w, order, UndoLines(moves, w, order))
    ensures forall i :: 0 <= i < |UndoLines(moves, w, order)| ==>
      var m := UndoLines(moves, w, order)[i];
      && CachedPath(w, m.what.key) == LastTo(moves, m.what.key) == m.from
      && FirstFrom(moves, m.what.key) == m.to != m.from
    ensures forall k :: k in order && CachedPath(w, k) == LastTo(moves, k) && FirstFrom(moves, k) != LastTo(moves, k) ==>
      exists i :: 0 <= i < |UndoLines(moves, w, order)| && UndoLines(moves, w, order)[i].what == ObjectRow(k)
  {
    UndoLinesClean(moves, w, order);
    forall k | k in order && CachedPath(w, k) == LastTo(moves, k) && FirstFrom(moves, k) != LastTo(moves, k)
      ensures exists i :: 0 <= i < |UndoLines(moves, w, order)| && UndoLines(moves, w, order)[i].what == ObjectRow(k)
    {
      var i := UndoLineFor(moves, w, order, k);
    }
  }

  lemma {:induction false} UndoLinesClean(moves: seq<Line>, w: World, order: seq<Key>)
    requires KeyOrder(order)
    ensures CleanObjects(w, order, UndoLines(moves, w, order))
    ensures forall i :: 0 <= i < |UndoLines(moves, w, order)| ==>
      var m := UndoLines(moves, w, order)[i];
      && CachedPath(w, m.what.key) == LastTo(moves, m.what.key) == m.from
      && FirstFrom(moves, m.what.key) == m.to != m.from
  {
    if order == [] {
    } else {
      hide FirstFrom, LastTo, CleanObjects;
      UndoLinesClean(moves, w, order[1..]);
      OrderTail(order);
      CleanTail(w, order, UndoLines(moves, w, order[1..]));
      var k := order[0];
      if CachedPath(w, k) == LastTo(moves, k) && FirstFrom(moves, k) != LastTo(moves, k) {
        CleanCons(w, order, Pend(ObjectRow(k), LastTo(moves, k), FirstFrom(moves, k)), UndoLines(moves, w, order[1..]));
      }
    }
  }

  lemma {:induction false} OrderTail(order: seq<Key>)
    requires KeyOrder(order) && order != []
    ensures order[0] in order && forall k :: k in order[1..] ==> k in order && k != order[0]
  {
  }

  lemma {:induction false} CleanTail(w: World, order: seq<Key>, ls: seq<Line>)
    requires order != [] && CleanObjects(w, order[1..], ls)
    ensures CleanObjects(w, order, ls)
  {
  }

  lemma {:induction false} CleanCons(w: World, order: seq<Key>, m: Line, ls: seq<Line>)
    requires KeyOrder(order) && order != [] && m.what == ObjectRow(order[0]) && m.status == Pending && CachedPath(w, order[0]) == m.from
    requires CleanObjects(w, order[1..], ls)
    ensures CleanObjects(w, order, [m] + ls)
  {
    OrderTail(order);
    forall i, j | 0 <= i < j < |[m] + ls|
      ensures ([m] + ls)[i].what != ([m] + ls)[j].what
    {
      assert ([m] + ls)[j] == ls[j - 1];
    }
  }

  /** The line that takes an object back. */
  lemma {:induction false} UndoLineFor(moves: seq<Line>, w: World, order: seq<Key>, k: Key) returns (i: nat)
    requires k in order && CachedPath(w, k) == LastTo(moves, k) && FirstFrom(moves, k) != LastTo(moves, k)
    ensures i < |UndoLines(moves, w, order)| && UndoLines(moves, w, order)[i].what == ObjectRow(k)
  {
    hide FirstFrom, LastTo;
    if k == order[0] {
      i := 0;
    } else {
      i := UndoLineFor(moves, w, order[1..], k);
      i := i + |UndoLines(moves, w, order)| - |UndoLines(moves, w, order[1..])|;
    }
  }

  /** The world in which the object lines of an undo start: those lines, then those of the folders that went back. */
  lemma {:induction false} UndoShape(w: World, moves: seq<Line>, order: seq<Key>)
    requires KeyOrder(order)
    ensures var lines, w1 := UndoLines(moves, w, order), UndoFolders(Post(w, UndoLines(moves, w, order)), moves, |moves|).0;
      && |lines| <= |w1.journal| && w1.journal[..|lines|] == lines
      && (forall i :: 0 <= i < |lines| ==> lines[i].what.ObjectRow?)
      && (forall i :: |lines| <= i < |w1.journal| ==> w1.journal[i].what.FolderRow? && w1.journal[i].status == Done)
      && w1.cache == w.cache && w1.objects == w.objects && DistinctKeys(w1.journal)
  {
    var lines := UndoLines(moves, w, order);
    FoldersOnlyAppend(Post(w, lines), moves, |moves|);
    UndoPlanKeepsConflicts(moves, w, order);
    hide UndoLines, UndoFolders;
    var w1 := UndoFolders(Post(w, lines), moves, |moves|).0;
    forall a, b | 0 <= a < b < |w1.journal| && w1.journal[a].what.ObjectRow?
      ensures w1.journal[a].what != w1.journal[b].what
    {
      if b < |lines| {
        assert w1.journal[a] == lines[a] && w1.journal[b] == lines[b];
      }
    }
  }

  lemma {:induction false} SkipStuckIs(w: World, n: nat, stuck: seq<Path>)
    requires n <= |w.journal|
    ensures var r := SkipStuck(w, n, stuck);
      && r.tree == w.tree && r.cache == w.cache && r.objects == w.objects
      && forall i :: 0 <= i < |w.journal| ==>
           r.journal[i] == if i < n && UnderStuck(w.journal[i], stuck) then w.journal[i].(status := Skipped) else w.journal[i]
  {
    hide UnderStuck;
    if n == 0 {
    } else {
      SkipStuckIs(w, n - 1, stuck);
    }
  }

  lemma {:induction false} KeptIs(w: World, n: nat, stuck: seq<Path>)
    requires n <= |w.journal|
    ensures Distinct(Kept(w, n, stuck)) && forall i: nat :: i in Kept(w, n, stuck) <==> i < n && !UnderStuck(w.journal[i], stuck)
  {
    hide UnderStuck;
    if n == 0 {
    } else {
      KeptIs(w, n - 1, stuck);
    }
  }

  lemma {:induction false} SkipKeepsKeys(w: World, n: nat, stuck: seq<Path>)
    requires n <= |w.journal| && DistinctKeys(w.journal)
    ensures DistinctKeys(SkipStuck(w, n, stuck).journal)
  {
    SkipStuckIs(w, n, stuck);
    hide UnderStuck, SkipStuck;
    var r := SkipStuck(w, n, stuck);
    forall a, b | 0 <= a < b < |r.journal| && r.journal[a].what.ObjectRow?
      ensures r.journal[a].what != r.journal[b].what
    {
      assert w.journal[a].what != w.journal[b].what;
    }
  }
}
