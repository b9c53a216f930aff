/**
 * What an undo reports (bin/harvester-folders.py, run_lines and cmd_undo): the
 * objects it leaves where they are, the failures, and the objects put back.
 */
module FolderReport {
  import opened Wrappers
  import opened FolderPaths
  import opened FolderRuns
  import opened FolderLines
  import opened FolderSlots
  import opened FolderRecovery
  import opened FolderActions
  import opened FolderUndo

  /** Filed elsewhere since, or about to go under a folder that could not go back. */
  datatype Conflict =
    | Strayed(where: Elsewhere)
    | Homeless(key: Key, left: Option<Path>, home: Path)

  function KeyOf(c: Conflict): Key {
    match c
    case Strayed(where) => where.key
    case Homeless(key, _, _) => key
  }

  function AllStrayed(cs: seq<Elsewhere>): (r: seq<Conflict>)
    ensures |r| == |cs| && forall i :: 0 <= i < |cs| ==> r[i] == Strayed(cs[i])
  {
    seq(|cs|, i requires 0 <= i < |cs| => Strayed(cs[i]))
  }

  // --- a strict run ------------------------------------------------------------------------

  /** An object that its reader finds at neither end of its line. */
  predicate Away(w: World, i: nat, env: Env)
    requires i < |w.journal|
  {
    var m := w.journal[i];
    && m.what.ObjectRow? && m.what.key in env && env[m.what.key].write && env[m.what.key].readable
    && Value(w, m.what.key) != m.from && Value(w, m.what.key) != m.to
  }

  function AwayFrom(w: World, i: nat): Elsewhere
    requires i < |w.journal| && w.journal[i].what.ObjectRow?
  {
    Elsewhere(w.journal[i].what.key, w.journal[i].from, Value(w, w.journal[i].what.key))
  }

  function AwayOf(w: World, todo: seq<nat>, env: Env): seq<Elsewhere>
    requires forall i :: i in todo ==> i < |w.journal|
  {
    if todo == [] then []
    else
      var n := |todo| - 1;
      assert forall i :: i in todo[..n] ==> i in todo;
      assert todo[n] in todo;
      AwayOf(w, todo[..n], env) + (if Away(w, todo[n], env) then [AwayFrom(w, todo[n])] else [])
  }

  /** How many of these lines are not done. */
  function NotDone(journal: seq<Line>, todo: seq<nat>): (c: nat)
    ensures c <= |todo|
  {
    if todo == [] then 0
    else
      var i := todo[|todo| - 1];
      NotDone(journal, todo[..|todo| - 1]) + (if i < |journal| && journal[i].status == Done then 0 else 1)
  }

  lemma {:induction false} NotDoneIff(journal: seq<Line>, todo: seq<nat>)
    requires forall i :: i in todo ==> i < |journal|
    ensures NotDone(journal, todo) == 0 <==> forall i :: i in todo ==> journal[i].status == Done
  {
    if todo == [] {
    } else {
      var n := |todo| - 1;
      assert todo[n] in todo && forall i :: i in todo <==> i in todo[..n] || i == todo[n];
      NotDoneIff(journal, todo[..n]);
    }
  }

  lemma {:induction false} NotDoneElsewhere(a: seq<Line>, b: seq<Line>, todo: seq<nat>)
    requires |a| == |b| && forall i :: i in todo ==> i < |a| && a[i] == b[i]
    ensures NotDone(a, todo) == NotDone(b, todo)
  {
    if todo == [] {
    } else {
      var n := |todo| - 1;
      assert todo[n] in todo && forall i :: i in todo[..n] ==> i in todo;
      NotDoneElsewhere(a, b, todo[..n]);
    }
  }

  lemma {:induction false} AwayOfHas(w: World, todo: seq<nat>, env: Env, key: Key)
    requires forall i :: i in todo ==> i < |w.journal|
    ensures Names(AwayOf(w, todo, env), key) <==> exists i :: i in todo && Away(w, i, env) && w.journal[i].what.key == key
  {
    if todo == [] {
    } else {
      var n := |todo| - 1;
      assert todo[n] in todo && forall i :: i in todo <==> i in todo[..n] || i == todo[n];
      AwayOfHas(w, todo[..n], env, key);
      var last: seq<Elsewhere> := if Away(w, todo[n], env) then [AwayFrom(w, todo[n])] else [];
      NamesAppend(AwayOf(w, todo[..n], env), last, key);
      assert Names(last, key) <==> Away(w, todo[n], env) && w.journal[todo[n]].what.key == key by {
        if last != [] {
          assert last[0].key == w.journal[todo[n]].what.key;
        }
      }
    }
  }

  // --- one step of the loop ------------------------------------------------------------------

  lemma {:induction false} LastOf(w: World, todo: seq<nat>, n: nat, journal: seq<Line>, env: Env)
    requires Runnable(w, todo) && n < |todo| && Runnable(w, todo[..n]) && Runnable(w, todo[..n + 1]) && todo[n] < |w.journal| == |journal|
    ensures NotDone(journal, todo[..n + 1]) == NotDone(journal, todo[..n]) + (if journal[todo[n]].status == Done then 0 else 1)
    ensures AwayOf(w, todo[..n + 1], env) == AwayOf(w, todo[..n], env) + (if Away(w, todo[n], env) then [AwayFrom(w, todo[n])] else [])
  {
    assert todo[..n + 1][..n] == todo[..n] && todo[..n + 1][n] == todo[n];
  }

  lemma {:induction false} SeenTheSame(u: World, w: World, i: nat, env: Env)
    requires SameAt(u, w, i)
    ensures Away(u, i, env) <==> Away(w, i, env)
    ensures Away(u, i, env) ==> AwayFrom(u, i) == AwayFrom(w, i)
  {
  }

  /** What one more line adds to the counts: the lines before it keep their status, and it is found as it was at the start. */
  lemma {:induction false} ReportStep(w: World, todo: seq<nat>, n: nat, env: Env, strict: bool)
    requires Runnable(w, todo) && n < |todo|
    ensures todo[n] in todo && Runnable(w, todo[..n]) && Runnable(w, todo[..n + 1])
    ensures var u := Run(w, todo[..n], Lines(env, strict));
      var s := Step(u, todo[n], Lines(env, strict));
      && |u.journal| == |s.journal| == |w.journal|
      && (Distinct(todo) ==>
            NotDone(s.journal, todo[..n + 1]) == NotDone(u.journal, todo[..n]) + (if s.journal[todo[n]].status == Done then 0 else 1))
      && (Distinct(todo) && DistinctKeys(w.journal) ==>
            AwayOf(w, todo[..n + 1], env) == AwayOf(w, todo[..n], env) + (if Away(u, todo[n], env) then [AwayFrom(u, todo[n])] else []))
  {
    var line := Lines(env, strict);
    RunExtends(w, todo, n, line);
    LinesLocal(env, strict);
    hide LineEffects, Away, AwayOf, NotDone, Run;
    RunKeepsLines(w, todo[..n], line);
    var u := Run(w, todo[..n], line);
    var s := Step(u, todo[n], line);
    StepFrame(u, todo[n], line);
    LastOf(w, todo, n, s.journal, env);
    if Distinct(todo) {
      forall i | i in todo[..n]
        ensures i < |w.journal| && i != todo[n]
      {
      }
      NotDoneElsewhere(s.journal, u.journal, todo[..n]);
      if DistinctKeys(w.journal) {
        RunThroughLine(w, todo, n, line);
        SeenTheSame(u, w, todo[n], env);
      }
    }
  }

  // --- the report of an undo -----------------------------------------------------------------

  /** The first of the stuck folders that holds the path. */
  function HomeOf(stuck: seq<Path>, p: Path): Option<Path> {
    if stuck == [] then None else if stuck[0] <= p then Some(stuck[0]) else HomeOf(stuck[1..], p)
  }

  lemma {:induction false} HomeOfIff(stuck: seq<Path>, p: Path)
    ensures HomeOf(stuck, p).Some? <==> exists f :: f in stuck && f <= p
    ensures HomeOf(stuck, p).Some? ==> HomeOf(stuck, p).value in stuck && HomeOf(stuck, p).value <= p
  {
    if stuck == [] {
    } else {
      HomeOfIff(stuck[1..], p);
      assert stuck[0] in stuck && forall f :: f in stuck <==> f == stuck[0] || f in stuck[1..];
    }
  }

  predicate NoHome(m: Line, stuck: seq<Path>) {
    m.what.ObjectRow? && m.to.Some? && HomeOf(stuck, m.to.value).Some?
  }

  lemma {:induction false} NoHomeIff(m: Line, stuck: seq<Path>)
    requires m.what.ObjectRow?
    ensures NoHome(m, stuck) <==> UnderStuck(m, stuck)
  {
    if m.to.Some? {
      HomeOfIff(stuck, m.to.value);
    }
  }

  function LeftBelow(m: Line, stuck: seq<Path>): Conflict
    requires NoHome(m, stuck)
  {
    Homeless(m.what.key, m.from, HomeOf(stuck, m.to.value).value)
  }

  /** Of the first `n` lines, those that stay because their former folder could not go back. */
  function HomelessOf(journal: seq<Line>, n: nat, stuck: seq<Path>): seq<Conflict>
    requires n <= |journal|
  {
    if n == 0 then []
    else HomelessOf(journal, n - 1, stuck) + (if NoHome(journal[n - 1], stuck) then [LeftBelow(journal[n - 1], stuck)] else [])
  }

  predicate Mentions(cs: seq<Conflict>, k: Key) {
    exists i :: 0 <= i < |cs| && KeyOf(cs[i]) == k
  }

  lemma {:induction false} MentionsAppend(a: seq<Conflict>, b: seq<Conflict>, k: Key)
    ensures Mentions(a + b, k) <==> Mentions(a, k) || Mentions(b, k)
  {
    forall i | 0 <= i < |b|
      ensures (a + b)[i + |a|] == b[i]
    {
    }
    forall i | 0 <= i < |a + b|
      ensures KeyOf((a + b)[i]) == k ==> Mentions(a, k) || Mentions(b, k)
    {
      assert (a + b)[i] == if i < |a| then a[i] else b[i - |a|];
    }
    if Mentions(a, k) {
      var i :| 0 <= i < |a| && KeyOf(a[i]) == k;
      assert KeyOf((a + b)[i]) == k;
    }
    if Mentions(b, k) {
      var i :| 0 <= i < |b| && KeyOf(b[i]) == k;
      assert KeyOf((a + b)[i + |a|]) == k;
    }
  }

  lemma {:induction false} StrayedMentions(cs: seq<Elsewhere>, k: Key)
    ensures Mentions(AllStrayed(cs), k) <==> Names(cs, k)
  {
    assert forall i :: 0 <= i < |cs| ==> KeyOf(AllStrayed(cs)[i]) == cs[i].key;
    if Names(cs, k) {
      var i :| 0 <= i < |cs| && cs[i].key == k;
      assert KeyOf(AllStrayed(cs)[i]) == k;
    }
  }

  lemma {:induction false} HomelessMentions(journal: seq<Line>, n: nat, stuck: seq<Path>, k: Key)
    requires n <= |journal|
    ensures Mentions(HomelessOf(journal, n, stuck), k)
       <==> exists i :: 0 <= i < n && NoHome(journal[i], stuck) && journal[i].what.key == k
  {
    if n == 0 {
    } else {
      HomelessMentions(journal, n - 1, stuck, k);
      var m := journal[n - 1];
      var last: seq<Conflict> := if NoHome(m, stuck) then [LeftBelow(m, stuck)] else [];
      MentionsAppend(HomelessOf(journal, n - 1, stuck), last, k);
      assert Mentions(last, k) <==> NoHome(m, stuck) && m.what.key == k by {
        if last != [] {
          assert KeyOf(last[0]) == m.what.key;
        }
      }
    }
  }

  /** The lines of the undo once the folders went back, and the former paths of those that did not. */
  ghost function Started(w: World, moves: seq<Line>, order: seq<Key>): (r: (World, seq<Path>))
    ensures |UndoLines(moves, w, order)| <= |r.0.journal|
  {
    FoldersOnlyAppend(Post(w, UndoLines(moves, w, order)), moves, |moves|);
    UndoFolders(Post(w, UndoLines(moves, w, order)), moves, |moves|)
  }

  /** `conflicts`: filed elsewhere before, without their folder, found elsewhere by the strict run. */
  ghost function UndoConflicts(w: World, moves: seq<Line>, order: seq<Key>, env: Env): seq<Conflict> {
    var n, (w1, stuck) := |UndoLines(moves, w, order)|, Started(w, moves, order);
    AllStrayed(Conflicts(moves, w, order)) + HomelessOf(w1.journal, n, stuck)
    + AllStrayed(AwayOf(SkipStuck(w1, n, stuck), Kept(w1, n, stuck), env))
  }

  /** `failed`: folders that did not go back, conflicts known before the run, and lines that it does not end done. */
  ghost function UndoFailures(w: World, moves: seq<Line>, order: seq<Key>, env: Env): nat {
    var n, (w1, stuck) := |UndoLines(moves, w, order)|, Started(w, moves, order);
    |stuck| + |Conflicts(moves, w, order)| + |HomelessOf(w1.journal, n, stuck)|
    + NotDone(Undo(w, moves, order, env).journal, Kept(w1, n, stuck))
  }

  /** `put_back`: the object lines done among the first `n`. */
  function DoneObjects(journal: seq<Line>, n: nat): nat
    requires n <= |journal|
  {
    if n == 0 then 0 else DoneObjects(journal, n - 1) + (if journal[n - 1].what.ObjectRow? && journal[n - 1].status == Done then 1 else 0)
  }

  // --- what the report means --------------------------------------------------------------------

  /** The undo from its first object line on. */
  lemma {:induction false} UndoIs(w: World, moves: seq<Line>, order: seq<Key>, env: Env)
    returns (n: nat, w1: World, stuck: seq<Path>, w2: World, todo: seq<nat>)
    requires KeyOrder(order)
    ensures n == |UndoLines(moves, w, order)| && (w1, stuck) == Started(w, moves, order)
    ensures n <= |w1.journal| && w2 == SkipStuck(w1, n, stuck) && todo == Kept(w1, n, stuck)
    ensures w1.journal[..n] == UndoLines(moves, w, order) && (forall i :: 0 <= i < n ==> w1.journal[i].what.ObjectRow?)
    ensures forall i :: n <= i < |w1.journal| ==> w1.journal[i].what.FolderRow? && w1.journal[i].status == Done
    ensures w2.cache == w.cache && w2.objects == w.objects && |w2.journal| == |w1.journal| && DistinctKeys(w2.journal)
    ensures forall i :: 0 <= i < |w1.journal| ==>
      w2.journal[i] == if i < n && UnderStuck(w1.journal[i], stuck) then w1.journal[i].(status := Skipped) else w1.journal[i]
    ensures Runnable(w2, todo) && Distinct(todo) && forall i: nat :: i in todo <==> i < n && !UnderStuck(w1.journal[i], stuck)
    ensures Undo(w, moves, order, env) == Run(w2, todo, Lines(env, true))
  {
    UndoShape(w, moves, order);
    n, w1, stuck := |UndoLines(moves, w, order)|, Started(w, moves, order).0, Started(w, moves, order).1;
    w2, todo := SkipStuck(w1, n, stuck), Kept(w1, n, stuck);
    SkipStuckIs(w1, n, stuck);
    SkipKeepsKeys(w1, n, stuck);
    KeptIs(w1, n, stuck);
    hide UndoLines, UndoFolders, SkipStuck, Kept, UnderStuck, Run;
    assert forall i :: 0 <= i < n ==> w1.journal[i] == w1.journal[..n][i];
  }

  /** The report in its parts, as the undo collects them. */
  lemma {:induction false} ReportParts(w: World, moves: seq<Line>, order: seq<Key>, env: Env,
                                       n: nat, w1: World, stuck: seq<Path>, w2: World, todo: seq<nat>)
    requires n == |UndoLines(moves, w, order)| <= |w1.journal| && (w1, stuck) == Started(w, moves, order)
    requires w2 == SkipStuck(w1, n, stuck) && todo == Kept(w1, n, stuck)
    ensures UndoConflicts(w, moves, order, env)
         == AllStrayed(Conflicts(moves, w, order)) + HomelessOf(w1.journal, n, stuck) + AllStrayed(AwayOf(w2, todo, env))
    ensures UndoFailures(w, moves, order, env)
         == |stuck| + |AllStrayed(Conflicts(moves, w, order)) + HomelessOf(w1.journal, n, stuck)|
            + NotDone(Undo(w, moves, order, env).journal, todo)
  {
  }

  /** What the plan has for an object, if anything. */
  function Way(moves: seq<Line>, k: Key): Line {
    Pend(ObjectRow(k), LastTo(moves, k), FirstFrom(moves, k))
  }

  ghost predicate Planned(w: World, moves: seq<Line>, k: Key) {
    CachedPath(w, k) == LastTo(moves, k) && FirstFrom(moves, k) != LastTo(moves, k)
  }

  /** Whoever undoes may read and write the object, and finds it at neither end. */
  predicate Stranger(w: World, m: Line, env: Env)
    requires m.what.ObjectRow?
  {
    var k := m.what.key;
    k in env && env[k].write && env[k].readable && Value(w, k) != m.from && Value(w, k) != m.to
  }

  /** The line of an object is the only one, and is its way back. */
  lemma {:induction false} PlannedLine(w: World, moves: seq<Line>, order: seq<Key>, k: Key)
    requires KeyOrder(order) && k in order
    ensures var lines := UndoLines(moves, w, order);
      && (Planned(w, moves, k) <==> Way(moves, k) in lines)
      && forall m :: m in lines && m.what == ObjectRow(k) ==> m == Way(moves, k)
  {
    UndoPlanKeepsConflicts(moves, w, order);
    hide FirstFrom, LastTo;
    var lines := UndoLines(moves, w, order);
    forall i | 0 <= i < |lines| && lines[i].what == ObjectRow(k)
      ensures lines[i] == Way(moves, k) && Planned(w, moves, k)
    {
    }
  }

  lemma {:induction false} HomelessIff(w1: World, lines: seq<Line>, stuck: seq<Path>, k: Key, way: Line)
    requires |lines| <= |w1.journal| && w1.journal[..|lines|] == lines && way.what == ObjectRow(k)
    requires forall m :: m in lines && m.what.ObjectRow? && m.what.key == k ==> m == way
    ensures Mentions(HomelessOf(w1.journal, |lines|, stuck), k) <==> way in lines && UnderStuck(way, stuck)
  {
    HomelessMentions(w1.journal, |lines|, stuck, k);
    NoHomeIff(way, stuck);
    hide UnderStuck, HomeOf, HomelessOf, Mentions;
    if i :| 0 <= i < |lines| && NoHome(w1.journal[i], stuck) && w1.journal[i].what.key == k {
      assert w1.journal[i] == lines[i] && lines[i] in lines;
    }
    if way in lines && UnderStuck(way, stuck) {
      var i :| 0 <= i < |lines| && lines[i] == way;
      assert w1.journal[i] == w1.journal[..|lines|][i];
    }
  }

  /** A line kept, which is the way of its object: away exactly for a stranger. */
  lemma {:induction false} AwayIff(w: World, w2: World, lines: seq<Line>, stuck: seq<Path>, todo: seq<nat>, env: Env, k: Key, way: Line)
    requires |lines| <= |w2.journal| && way.what == ObjectRow(k) && w2.objects == w.objects
    requires forall i: nat :: i in todo <==> i < |lines| && !UnderStuck(lines[i], stuck)
    requires forall i :: 0 <= i < |lines| && !UnderStuck(lines[i], stuck) ==> w2.journal[i] == lines[i]
    requires forall m :: m in lines && m.what.ObjectRow? && m.what.key == k ==> m == way
    ensures Mentions(AllStrayed(AwayOf(w2, todo, env)), k) <==> way in lines && !UnderStuck(way, stuck) && Stranger(w, way, env)
  {
    StrayedMentions(AwayOf(w2, todo, env), k);
    AwayOfHas(w2, todo, env, k);
    hide UnderStuck, AwayOf, Mentions, Names;
    if i :| i in todo && Away(w2, i, env) && w2.journal[i].what.key == k {
      assert lines[i] in lines && lines[i] == way;
    }
    if way in lines && !UnderStuck(way, stuck) && Stranger(w, way, env) {
      var i: nat :| i < |lines| && lines[i] == way;
      assert i in todo && Away(w2, i, env);
    }
  }

  /**
   * Who is reported: an object filed elsewhere since; one whose former folder,
   * or a folder above it, could not go back; and one that the strict run finds
   * at neither end. No other.
   */
  lemma {:induction false} ReportedIff(w: World, moves: seq<Line>, order: seq<Key>, env: Env, k: Key)
    requires KeyOrder(order) && k in order
    ensures var stuck, way := Started(w, moves, order).1, Way(moves, k);
      Mentions(UndoConflicts(w, moves, order, env), k)
      <==> CachedPath(w, k) != LastTo(moves, k)
           || (FirstFrom(moves, k) != LastTo(moves, k) && (UnderStuck(way, stuck) || Stranger(w, way, env)))
  {
    var n, w1, stuck, w2, todo := UndoIs(w, moves, order, env);
    var lines, way := UndoLines(moves, w, order), Way(moves, k);
    ConflictsAreTheRest(moves, w, order, k);
    PlannedLine(w, moves, order, k);
    assert forall i :: 0 <= i < n ==> w1.journal[i] == lines[i];
    hide FirstFrom, LastTo, UndoLines, UndoFolders, Conflicts, UnderStuck, SkipStuck, Kept, Undo, AllStrayed, HomelessOf, AwayOf,
      Mentions, Names, Stranger, Started;
    StrayedMentions(Conflicts(moves, w, order), k);
    HomelessIff(w1, lines, stuck, k, way);
    AwayIff(w, w2, lines, stuck, todo, env, k, way);
    var a, b, c := AllStrayed(Conflicts(moves, w, order)), HomelessOf(w1.journal, n, stuck), AllStrayed(AwayOf(w2, todo, env));
    MentionsAppend(a + b, c, k);
    MentionsAppend(a, b, k);
  }

  lemma {:induction false} StraysStay(w2: World, todo: seq<nat>, k: Key, env: Env)
    requires Runnable(w2, todo) && Distinct(todo) && DistinctKeys(w2.journal)
    requires forall i :: i in todo && w2.journal[i].what == ObjectRow(k) ==> Away(w2, i, env)
    ensures var r := Run(w2, todo, Lines(env, true)); Value(r, k) == Value(w2, k) && Cached(r, k) == Cached(w2, k)
  {
    LinesLocal(env, true);
    hide Run, LineEffects;
    if i :| i in todo && w2.journal[i].what == ObjectRow(k) {
      StrictKeepsOutsideMove(w2, todo, i, env);
    } else {
      RunKeepsKey(w2, todo, k, Lines(env, true));
    }
  }

  /** What is reported was left as it was, on the object and in the console. */
  lemma {:induction false} ReportedIsLeft(w: World, moves: seq<Line>, order: seq<Key>, env: Env, k: Key)
    requires KeyOrder(order) && k in order && Mentions(UndoConflicts(w, moves, order, env), k)
    ensures var r := Undo(w, moves, order, env); Value(r, k) == Value(w, k) && Cached(r, k) == Cached(w, k)
  {
    hide FirstFrom, LastTo, UndoLines, UndoFolders, UnderStuck, SkipStuck, Kept, Undo, Started, UndoConflicts, Run, LineEffects, Mentions;
    var n, w1, stuck, w2, todo := UndoIs(w, moves, order, env);
    ReportedIff(w, moves, order, env, k);
    PlannedLine(w, moves, order, k);
    var lines, way := UndoLines(moves, w, order), Way(moves, k);
    assert forall i :: 0 <= i < n ==> w1.journal[i] == lines[i] && lines[i] in lines;
    forall i | i in todo && w2.journal[i].what == ObjectRow(k)
      ensures Away(w2, i, env)
    {
      assert lines[i] == way;
    }
    StraysStay(w2, todo, k, env);
  }

  // --- the counts ------------------------------------------------------------------------------

  lemma {:induction false} KeptCounts(journal: seq<Line>, w1: World, n: nat, stuck: seq<Path>)
    requires 0 < n <= |w1.journal| == |journal|
    ensures NotDone(journal, Kept(w1, n, stuck))
         == NotDone(journal, Kept(w1, n - 1, stuck))
            + (if UnderStuck(w1.journal[n - 1], stuck) || journal[n - 1].status == Done then 0 else 1)
  {
    hide UnderStuck;
    if !UnderStuck(w1.journal[n - 1], stuck) {
      var todo := Kept(w1, n, stuck);
      assert todo[..|todo| - 1] == Kept(w1, n - 1, stuck) && todo[|todo| - 1] == n - 1;
    } else {
      assert Kept(w1, n - 1, stuck) + [] == Kept(w1, n - 1, stuck);
    }
  }

  lemma {:induction false} CountsAddUp(r: World, w1: World, n: nat, stuck: seq<Path>)
    requires n <= |w1.journal| == |r.journal| && forall i :: 0 <= i < n ==> w1.journal[i].what.ObjectRow? && r.journal[i].what.ObjectRow?
    requires forall i :: 0 <= i < n && UnderStuck(w1.journal[i], stuck) ==> r.journal[i].status == Skipped
    ensures DoneObjects(r.journal, n) + NotDone(r.journal, Kept(w1, n, stuck)) + |HomelessOf(w1.journal, n, stuck)| == n
  {
    if n == 0 {
    } else {
      NoHomeIff(w1.journal[n - 1], stuck);
      KeptCounts(r.journal, w1, n, stuck);
      hide UnderStuck, NoHome, Kept, NotDone;
      CountsAddUp(r, w1, n - 1, stuck);
    }
  }

  lemma {:induction false} OnlyObjectsCount(journal: seq<Line>, low: nat, n: nat)
    requires low <= n <= |journal| && forall i :: low <= i < n ==> journal[i].what.FolderRow?
    ensures DoneObjects(journal, n) == DoneObjects(journal, low)
    decreases n
  {
    if n == low {
    } else {
      OnlyObjectsCount(journal, low, n - 1);
    }
  }

  /** Lines that the run does not take keep their status, and all keep what they are about. */
  lemma {:induction false} UndoEnds(w: World, moves: seq<Line>, order: seq<Key>, env: Env)
    requires KeyOrder(order)
    ensures var n, (w1, stuck), r := |UndoLines(moves, w, order)|, Started(w, moves, order), Undo(w, moves, order, env);
      && |r.journal| == |w1.journal| && (forall i :: 0 <= i < |r.journal| ==> r.journal[i].what == w1.journal[i].what)
      && (forall i :: 0 <= i < n ==> w1.journal[i].what.ObjectRow?)
      && (forall i :: 0 <= i < n && UnderStuck(w1.journal[i], stuck) ==> r.journal[i].status == Skipped)
      && (forall i :: n <= i < |r.journal| ==> r.journal[i].what.FolderRow? && r.journal[i].status == Done)
  {
    var n, w1, stuck, w2, todo := UndoIs(w, moves, order, env);
    LinesLocal(env, true);
    hide UndoLines, UndoFolders, UnderStuck, SkipStuck, Kept, Undo, Started, Run, LineEffects;
    RunKeepsLines(w2, todo, Lines(env, true));
    forall i: nat | i < |w1.journal| && i !in todo
      ensures Run(w2, todo, Lines(env, true)).journal[i] == w2.journal[i]
    {
      RunKeepsAt(w2, todo, i, Lines(env, true));
    }
  }

  /** Nothing is counted twice or forgotten: failures and objects put back make up the folders stuck, the conflicts and the plan. */
  lemma {:induction false} ReportAddsUp(w: World, moves: seq<Line>, order: seq<Key>, env: Env)
    requires KeyOrder(order)
    ensures var r := Undo(w, moves, order, env);
      UndoFailures(w, moves, order, env) + DoneObjects(r.journal, |r.journal|)
      == |Started(w, moves, order).1| + |Conflicts(moves, w, order)| + |UndoLines(moves, w, order)|
  {
    UndoEnds(w, moves, order, env);
    var n, r := |UndoLines(moves, w, order)|, Undo(w, moves, order, env);
    var (w1, stuck) := Started(w, moves, order);
    hide UndoLines, UndoFolders, Conflicts, UnderStuck, Kept, Undo, Started, HomelessOf, NotDone, DoneObjects;
    CountsAddUp(r, w1, n, stuck);
    OnlyObjectsCount(r.journal, n, |r.journal|);
  }

  /** No failure is reported if and only if every folder went back, nothing had moved since, and every line is done. */
  lemma {:induction false} NoFailureIff(w: World, moves: seq<Line>, order: seq<Key>, env: Env)
    requires KeyOrder(order)
    ensures UndoFailures(w, moves, order, env) == 0
       <==> Started(w, moves, order).1 == [] && Conflicts(moves, w, order) == [] && AllDone(Undo(w, moves, order, env))
  {
    UndoEnds(w, moves, order, env);
    var n, w1, stuck, w2, todo := UndoIs(w, moves, order, env);
    var r := Undo(w, moves, order, env);
    ReportAddsUp(w, moves, order, env);
    CountsAddUp(r, w1, n, stuck);
    NotDoneIff(r.journal, todo);
    hide UndoLines, UndoFolders, Conflicts, UnderStuck, SkipStuck, Kept, Undo, Started, HomelessOf, NotDone, DoneObjects;
    if stuck == [] {
      NoneUnder(w1, n);
    }
  }

  lemma {:induction false} NoneUnder(w: World, n: nat)
    requires n <= |w.journal|
    ensures HomelessOf(w.journal, n, []) == [] && forall i :: 0 <= i < n ==> !UnderStuck(w.journal[i], [])
  {
    if n == 0 {
    } else {
      NoneUnder(w, n - 1);
    }
  }
}
