/** Undoing an action that was interrupted and resumed: which objects get their value back. */
module FolderResumed {
  import opened Wrappers
  import opened FolderPaths
  import opened FolderTree
  import opened FolderHub
  import opened FolderRuns
  import opened FolderLines
  import opened FolderReplay
  import opened FolderSlots
  import opened FolderRecovery
  import opened FolderActions
  import opened FolderUndo
  import opened FolderUndoInverse
  import opened FolderRoundTrip
  import opened FolderTwoCuts

  /** What the whole run makes of one object; `from` the target where the object already carried it when the line was taken again. */
  function ResumedOutcome(s: Slot, to: Option<Path>, access: Option<Access>, carried: bool): Slot {
    var r := Outcome(s, to, access, false);
    if carried then r.(from := to) else r
  }

  /** A line done before the cut. */
  lemma {:induction false} EarlierSlot(w: World, env: Env, p: nat, u: World, x: World, i: nat)
    requires Posted(w) && AllDone(Complete(w, env)) && i < p < |w.journal| && w.journal[i].what.ObjectRow?
    requires u == Run(w, Range(0, p), Lines(env, false)) && |u.journal| == |w.journal| && Framed(x, u, p)
    requires DistinctKeys(u.journal) && ResumeTodo(x, |x.journal|) == Range(p, |x.journal|) && DistinctKeys(x.journal)
    ensures var m, r := w.journal[i], Resume(x, env);
      r.journal[i].what == m.what && r.journal[i].to == m.to && SlotAt(r, i) == Outcome(SlotAt(w, i), m.to, AccessTo(env, m.what.key), false)
  {
    hide LineEffects, Outcome;
    RunOutcome(w, Range(0, p), i, env, false);
    assert u.journal[i].what != u.journal[p].what;
    assert SlotAt(x, i) == SlotAt(u, i) && x.journal[i] == u.journal[i];
    LinesLocal(env, true);
    RunKeepsAt(x, Range(p, |x.journal|), i, Lines(env, true));
  }

  /** A line after it. */
  lemma {:induction false} LaterSlot(w: World, env: Env, p: nat, x: World, i: nat)
    requires Posted(w) && Agreed(w, env) && p < i < |w.journal| == |x.journal| && w.journal[i].what.ObjectRow? && SameAt(x, w, i)
    requires ResumeTodo(x, |x.journal|) == Range(p, |x.journal|) && DistinctKeys(x.journal)
    ensures var m, r := w.journal[i], Resume(x, env);
      r.journal[i].what == m.what && r.journal[i].to == m.to && SlotAt(r, i) == Outcome(SlotAt(w, i), m.to, AccessTo(env, m.what.key), false)
  {
    assert AgreesAt(w, i, env);
    assert SlotAt(x, i) == SlotAt(w, i);
    RunOutcome(x, Range(p, |x.journal|), i, env, true);
  }

  /** What the cut line itself leaves of its object. */
  lemma {:induction false} CutSlot(w: World, u: World, x: World, env: Env, p: nat, j: nat)
    requires Posted(w) && Agreed(w, env) && CutIn(w, env, x, p, j, u) && w.journal[p].what.ObjectRow?
    ensures x.journal[p].what == w.journal[p].what && x.journal[p].to == w.journal[p].to
    ensures var m := w.journal[p];
      Outcome(SlotAt(x, p), m.to, AccessTo(env, m.what.key), true)
      == ResumedOutcome(SlotAt(w, p), m.to, AccessTo(env, m.what.key), ShowsTarget(x, env, p))
    ensures var m := w.journal[p];
      ShowsTarget(x, env, p) ==> Outcome(SlotAt(w, p), m.to, AccessTo(env, m.what.key), false).value == m.to != Value(w, m.what.key)
  {
    var m := u.journal[p];
    var key := m.what.key;
    assert AgreesAt(w, p, env) && w.journal[p].status == Pending && CachedPath(w, key) == w.journal[p].from;
    assert SlotAt(u, p) == SlotAt(w, p) && u.journal[p] == w.journal[p];
    hide Posted, Agreed, Framed;
    StepOutcome(u, p, env, false);
    if env[key].write && env[key].writing in {Accepted, Transient} {
      var source := if env[key].writing.Accepted? then OnObject else ConsoleOnly;
      var plain := [Carry(key, m.to), File(key, m.to, source), Mark(p, Done)];
      assert [] + plain == plain && LineEffects(u, p, env, false) == plain;
      hide LineEffects;
      WrittenPrefix(u, p, j, key, m.to, source);
    } else {
      assert ConsoleFrom(u, p, env);
      hide LineEffects;
      ConsoleCutSlot(u, x, env, p, j);
    }
  }

  lemma {:induction false} ConsoleCutSlot(u: World, x: World, env: Env, p: nat, j: nat)
    requires ConsoleFrom(u, p, env) && j < |LineEffects(u, p, env, false)| && x == ApplyAll(u, LineEffects(u, p, env, false)[..j])
    requires u.journal[p].status == Pending && CachedPath(u, u.journal[p].what.key) == u.journal[p].from
    ensures var m := u.journal[p];
      && x.journal == u.journal && x.objects == u.objects
      && (SlotAt(x, p) == SlotAt(u, p) || SlotAt(x, p) == SlotAt(u, p).(entry := Entered(m.to, ConsoleOnly)))
  {
    var m := u.journal[p];
    var file, mark := File(m.what.key, m.to, ConsoleOnly), Mark(p, Done);
    ConsoleStep(u, p, env, false);
    assert [file, mark][..0] == [] && [file, mark][..1] == [file];
    ApplyOne(u, file);
  }

  /** Each object after an interruption and a resume: as after the whole run, but for where its line says it started. */
  lemma {:induction false} ResumedSlot(w: World, env: Env, k: nat, i: nat)
    requires Posted(w) && Agreed(w, env) && AllDone(Complete(w, env)) && k <= |Writes(w, env)|
    requires i < |w.journal| && w.journal[i].what.ObjectRow?
    ensures var m, x := w.journal[i], Interrupted(w, env, k);
      var r := Resume(x, env);
      && r.journal[i].what == m.what && r.journal[i].to == m.to
      && SlotAt(r, i) == ResumedOutcome(SlotAt(w, i), m.to, AccessTo(env, m.what.key), ShowsTarget(x, env, i))
      && (ShowsTarget(x, env, i) ==> Outcome(SlotAt(w, i), m.to, AccessTo(env, m.what.key), false).value == m.to != Value(w, m.what.key))
  {
    var n := |w.journal|;
    var x := Interrupted(w, env, k);
    var p, j, u := FindCut(w, env, k);
    if p == n {
      NothingToResume(x, n);
      LinesLocal(env, false);
      RunOutcome(w, Range(0, n), i, env, false);
    } else {
      CutRecovers(w, env, p, j, u, x);
      CutKeepsRest(w, env, p, u, x);
      CutPosition(w, env, p, j, u, x, i);
      hide Agreed, LineEffects, ShowsTarget, Outcome;
      if i < p {
        EarlierSlot(w, env, p, u, x, i);
      } else if i > p {
        LaterSlot(w, env, p, x, i);
      } else {
        CutSlot(w, u, x, env, p, j);
        RunOutcome(x, Range(p, n), p, env, true);
      }
    }
  }

  // --- the undo ------------------------------------------------------------------------------------------

  /** One object, there with a resume and back. */
  lemma {:induction false} ResumedRoundTrip(s: Slot, m: Line, first: Option<Access>, back: Option<Access>, carried: bool)
    requires PathIn(s.entry) == m.from == s.from && s.status == Pending
    requires Outcome(s, m.to, first, false).status == Done
    requires carried ==> Outcome(s, m.to, first, false).value == m.to != s.value
    requires Back(ResumedOutcome(s, m.to, first, carried), m.to, back).status == Done
    ensures Back(ResumedOutcome(s, m.to, first, carried), m.to, back).value == s.value
      <==> !carried && !UndoMisses(s.value, m, first, back)
  {
    if !carried {
      SlotRoundTrip(s, m, first, back);
    }
  }

  /** The action interrupted and resumed: fit for undo. */
  lemma {:induction false} ResumedLines(w: World, env: Env, k: nat)
    requires Posted(w) && Agreed(w, env) && AllDone(Complete(w, env)) && k <= |Writes(w, env)|
    ensures var r := Resume(Interrupted(w, env, k), env);
      && |r.journal| == |w.journal| && DistinctKeys(r.journal) && AllDone(r) && SameStores(r, Complete(w, env)) && r.nextId == w.nextId
      && (forall i :: 0 <= i < |w.journal| ==> r.journal[i].what == w.journal[i].what && r.journal[i].to == w.journal[i].to)
      && (forall i :: 0 <= i < |w.journal| && w.journal[i].what.FolderRow? ==> r.journal[i] == w.journal[i].(status := Done))
  {
    var x := Interrupted(w, env, k);
    RecoversWhenAgreed(w, env, k);
    var p, j, u := FindCut(w, env, k);
    if p == |w.journal| {
      NothingToResume(x, p);
      CompletedLines(w, env);
    } else {
      CutKeepsLines(w, env, x, p, j, u);
      hide Posted, Agreed, CutIn, LineEffects, SameStores;
      LinesLocal(env, true);
      var todo := ResumeTodo(x, |x.journal|);
      RunKeepsLines(x, todo, Lines(env, true));
      forall i | 0 <= i < |w.journal| && w.journal[i].what.FolderRow?
        ensures Resume(x, env).journal[i] == w.journal[i].(status := Done)
      {
        RunKeepsFolderFrom(x, todo, i, env, true);
      }
    }
  }

  lemma {:induction false} CutKeepsLines(w: World, env: Env, x: World, p: nat, j: nat, u: World)
    requires Posted(w) && CutIn(w, env, x, p, j, u)
    ensures SameLines(x, w) && DistinctKeys(x.journal)
    ensures forall i :: 0 <= i < |w.journal| && w.journal[i].what.FolderRow? ==> x.journal[i].from == w.journal[i].from
  {
    hide Posted, LineEffects, TreeOk;
    LinesLocal(env, false);
    RunKeepsLines(w, Range(0, p), Lines(env, false));
    forall a, b | 0 <= a < b < |x.journal| && x.journal[a].what.ObjectRow?
      ensures x.journal[a].what != x.journal[b].what
    {
      assert u.journal[a].what != u.journal[b].what;
    }
    forall i | 0 <= i < |w.journal| && w.journal[i].what.FolderRow?
      ensures x.journal[i].from == w.journal[i].from
    {
      RunKeepsFolderFrom(w, Range(0, p), i, env, false);
      if i == p {
        FolderLineNotes(u, p, env);
        var es := LineEffects(u, p, env, false);
        assert forall e :: e in es[..j] ==> e in es;
        ApplyKeepsFrom(u, es[..j]);
      }
    }
  }

  lemma {:induction false} FolderLineNotes(u: World, p: nat, env: Env)
    requires p < |u.journal| && u.journal[p].what.FolderRow?
    ensures forall e :: e in LineEffects(u, p, env, false) ==> !e.SetFrom?
  {
  }

  /** One object after the action, the resume and the undo. */
  lemma {:induction false} ResumedObject(w: World, env: Env, k: nat, order: seq<Key>, back: Env, i: nat)
    requires Posted(w) && Agreed(w, env) && AllDone(Complete(w, env)) && k <= |Writes(w, env)|
    requires var r := Resume(Interrupted(w, env, k), env); OrderOf(r.journal, order) && AllBack(r, order)
    requires i < |w.journal| && w.journal[i].what.ObjectRow?
    ensures var m, x := w.journal[i], Interrupted(w, env, k);
      var r := Resume(x, env);
      var z := Undo(r, r.journal, order, back);
      var s := Back(ResumedOutcome(SlotAt(w, i), m.to, AccessTo(env, m.what.key), ShowsTarget(x, env, i)), m.to, AccessTo(back, m.what.key));
      && Value(z, m.what.key) == s.value && Cached(z, m.what.key) == s.entry && (AllDone(z) ==> s.status == Done)
      && Outcome(SlotAt(w, i), m.to, AccessTo(env, m.what.key), false).status == Done
      && PathIn(SlotAt(w, i).entry) == m.from == SlotAt(w, i).from && SlotAt(w, i).status == Pending
      && (ShowsTarget(x, env, i) ==> Outcome(SlotAt(w, i), m.to, AccessTo(env, m.what.key), false).value == m.to != Value(w, m.what.key))
  {
    var x := Interrupted(w, env, k);
    ResumedLines(w, env, k);
    ResumedSlot(w, env, k, i);
    DoneSlot(SlotAt(w, i), w.journal[i].to, AccessTo(env, w.journal[i].what.key), false);
    hide Undo, Complete, Agreed, AllBack, Outcome, Back, Writes, OrderOf;
    UndoneObject(Resume(x, env), order, back, i);
  }

  /**
   * Undo after an interruption and a resume, exactly: each object has its
   * former value if and only if the interruption did not leave it at the
   * target of its unfinished line, and its rights did not change in one of the
   * two ways that undo misses anyway.
   */
  lemma {:induction false} ResumedUndoIff(w: World, env: Env, k: nat, order: seq<Key>, back: Env, i: nat)
    requires Posted(w) && Agreed(w, env) && AllDone(Complete(w, env)) && k <= |Writes(w, env)|
    requires var r := Resume(Interrupted(w, env, k), env);
      OrderOf(r.journal, order) && AllBack(r, order) && AllDone(Undo(r, r.journal, order, back))
    requires i < |w.journal| && w.journal[i].what.ObjectRow?
    ensures var m, x := w.journal[i], Interrupted(w, env, k);
      var r := Resume(x, env);
      Value(Undo(r, r.journal, order, back), m.what.key) == Value(w, m.what.key)
      <==> !ShowsTarget(x, env, i) && !UndoMisses(Value(w, m.what.key), m, AccessTo(env, m.what.key), AccessTo(back, m.what.key))
  {
    var m := w.journal[i];
    ResumedObject(w, env, k, order, back, i);
    hide Undo, Complete, Resume, Interrupted, Outcome, Back, UndoMisses, ResumedOutcome, Agreed, Posted;
    ResumedRoundTrip(SlotAt(w, i), m, AccessTo(env, m.what.key), AccessTo(back, m.what.key), ShowsTarget(Interrupted(w, env, k), env, i));
  }

  lemma {:induction false} ResumedPlanDone(w: World, env: Env, k: nat, order: seq<Key>, j: nat)
    requires Posted(w) && Agreed(w, env) && AllDone(Complete(w, env)) && k <= |Writes(w, env)|
    requires var r := Resume(Interrupted(w, env, k), env);
      OrderOf(r.journal, order) && AllBack(r, order) && j < |UndoLines(r.journal, r, order)|
    ensures var r := Resume(Interrupted(w, env, k), env);
      var z := Undo(r, r.journal, order, env);
      j < |z.journal| && z.journal[j].status == Done
  {
    var x := Interrupted(w, env, k);
    var r := Resume(x, env);
    ResumedLines(w, env, k);
    var i := PlannedFrom(r, order, j);
    var m := w.journal[i];
    ResumedSlot(w, env, k, i);
    ResumedObject(w, env, k, order, env, i);
    hide Undo, Complete, Resume, Interrupted, Agreed, Posted, AllBack;
    UndoSlot(r, order, env, i, j);
    SameAnswers(SlotAt(w, i), m, AccessTo(env, m.what.key));
  }

  /** With the same rights and answers the undo completes, and only the object at its target keeps the action's value. */
  lemma {:induction false} ResumedUndoCompletes(w: World, env: Env, k: nat, order: seq<Key>)
    requires Posted(w) && Agreed(w, env) && AllDone(Complete(w, env)) && k <= |Writes(w, env)|
    requires var r := Resume(Interrupted(w, env, k), env); OrderOf(r.journal, order) && AllBack(r, order)
    ensures var x := Interrupted(w, env, k);
      var r := Resume(x, env);
      var z := Undo(r, r.journal, order, env);
      AllDone(z) && forall i :: 0 <= i < |w.journal| && w.journal[i].what.ObjectRow? ==>
        (Value(z, w.journal[i].what.key) == Value(w, w.journal[i].what.key) <==> !ShowsTarget(x, env, i))
  {
    var x := Interrupted(w, env, k);
    var r := Resume(x, env);
    var lines, w2 := UndoLines(r.journal, r, order), FoldersBack(r, order);
    UndoRuns(r, order, env);
    var z := Undo(r, r.journal, order, env);
    hide Posted, Agreed, Complete, Resume, Interrupted, Undo, AllBack, UndoMisses, UndoLines, FoldersBack;
    forall j | 0 <= j < |z.journal|
      ensures z.journal[j].status == Done
    {
      if j < |lines| {
        ResumedPlanDone(w, env, k, order, j);
      } else {
        LinesLocal(env, true);
        RunKeepsAt(w2, Range(0, |lines|), j, Lines(env, true));
      }
    }
    forall i | 0 <= i < |w.journal| && w.journal[i].what.ObjectRow?
      ensures Value(z, w.journal[i].what.key) == Value(w, w.journal[i].what.key) <==> !ShowsTarget(x, env, i)
    {
      ResumedObject(w, env, k, order, env, i);
      ResumedUndoIff(w, env, k, order, env, i);
      SameAnswers(SlotAt(w, i), w.journal[i], AccessTo(env, w.journal[i].what.key));
    }
  }

  // --- an emptied folder -----------------------------------------------------------------------------------

  /** The folders of an emptying that was interrupted and resumed go back like those of one that was not. */
  lemma {:induction false} ResumedFolders(w: World, env: Env, k: nat, fid: Id, kids: seq<Id>, target: Option<Id>, order: seq<Key>)
    requires Posted(w) && Agreed(w, env) && AllDone(Complete(w, env)) && k <= |Writes(w, env)|
    requires CanEmpty(w.tree, fid, target) && KidsOf(w.tree, fid, kids) && fid in w.tree
    requires (forall x :: x in Kids(w.tree, fid) ==> x in kids) && Fresh(w.tree, w.nextId)
    requires EmptyShape(w.tree, fid, kids, target, w.journal)
    ensures var r := Resume(Interrupted(w, env, k), env);
      AllBack(r, order) && FoldersBack(r, order).tree == Hub(w.tree, fid, w.nextId, {}, target)
  {
    hide CanEmpty, Hub, Posted, Agreed, Resume, Interrupted, UndoFolders, Fresh;
    var r := Resume(Interrupted(w, env, k), env);
    ResumedLines(w, env, k);
    EmptiedJournal(w, env, fid, kids, target);
    assert EmptiedMoves(w.tree, fid, kids, target, r.journal);
    KidSetAll(w.tree, fid, kids);
    FoldersReturn(Post(r, UndoLines(r.journal, r, order)), w.tree, fid, kids, target, r.journal);
  }

  /**
   * An emptying interrupted anywhere, resumed, then undone with the same
   * rights: the undo completes, every folder is at its path again, and of the
   * objects exactly the one that the interruption left at its target keeps it.
   */
  lemma {:induction false} ResumedEmptyInto(w: World, env: Env, k: nat, keys: seq<Key>, fid: Id, kids: seq<Id>, target: Option<Id>, order: seq<Key>)
    requires Request(w, keys, fid, kids, target) && AllDone(Emptied(w, env, keys, fid, kids, target))
    requires var w0 := Post(w, EmptyLines(w, keys, fid, kids, target));
      && Agreed(w0, env) && k <= |Writes(w0, env)|
      && OrderOf(Resume(Interrupted(w0, env, k), env).journal, order)
    ensures var w0 := Post(w, EmptyLines(w, keys, fid, kids, target));
      var x := Interrupted(w0, env, k);
      var r := Resume(x, env);
      var z := Undo(r, r.journal, order, env);
      && AllDone(z) && TreeOk(z.tree) && Paths(z.tree) == (Paths(w.tree) - {fid})[w.nextId := Paths(w.tree)[fid]]
      && (forall i :: 0 <= i < |w0.journal| && w0.journal[i].what.ObjectRow? ==>
           (Value(z, w0.journal[i].what.key) == Value(w, w0.journal[i].what.key) <==> !ShowsTarget(x, env, i)))
  {
    hide CanEmpty, Hub, Undo, EmptyLines, Posted, EmptyShape, AllBack, KidsOf, Agreed, Resume, Interrupted, Complete;
    var w0 := Post(w, EmptyLines(w, keys, fid, kids, target));
    var r := Resume(Interrupted(w0, env, k), env);
    RequestHolds(w, keys, fid, kids, target);
    ResumedFolders(w0, env, k, fid, kids, target, order);
    HubHome(w.tree, fid, target, w.nextId);
    UndoKeepsTree(r, order, env);
    ResumedUndoCompletes(w0, env, k, order);
  }
}
