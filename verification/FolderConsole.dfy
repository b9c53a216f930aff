/**
 * The program itself (bin/harvester-folders.py): its stores, updated in place,
 * and its loops, each proved to be the run that the other modules reason about.
 */
module FolderConsole {
  import opened Wrappers
  import opened FolderPaths
  import opened FolderTree
  import opened FolderRuns
  import opened FolderLines
  import opened FolderReplay
  import opened FolderRecovery
  import opened FolderActions
  import opened FolderChangeBack
  import opened FolderCompletes
  import opened FolderFollows
  import opened FolderHub
  import opened FolderReport
  import opened FolderUndo
  import opened FolderRoundTrip
  import Text

  // --- what the loops need of the specification ------------------------------------------------

  lemma {:induction false} NoteApplies(w: World, i: nat, x: Option<Path>, rest: seq<Effect>)
    requires i < |w.journal|
    ensures ApplyAll(w, (if x != w.journal[i].from then [SetFrom(i, x)] else []) + rest)
         == ApplyAll(if x != w.journal[i].from then Apply(w, SetFrom(i, x)) else w, rest)
  {
    if x != w.journal[i].from {
      ApplyAppend(w, [SetFrom(i, x)], rest);
      ApplyOne(w, SetFrom(i, x));
    } else {
      assert [] + rest == rest;
    }
  }

  lemma {:induction false} RetreesApply(w: World, trees: seq<Tree>, i: nat, status: Status)
    requires i < |w.journal| && |trees| <= 2
    ensures ApplyAll(w, Retrees(trees) + [Mark(i, status)]) == Apply(w.(tree := LastTree(w.tree, trees)), Mark(i, status))
  {
    if |trees| == 0 {
      assert Retrees(trees) + [Mark(i, status)] == [Mark(i, status)];
      ApplyOne(w, Mark(i, status));
    } else if |trees| == 1 {
      assert Retrees(trees) + [Mark(i, status)] == [Retree(trees[0]), Mark(i, status)];
      ApplyTwo(w, Retree(trees[0]), Mark(i, status));
    } else {
      assert Retrees(trees) + [Mark(i, status)] == [Retree(trees[0]), Retree(trees[1]), Mark(i, status)];
      ApplyThree(w, Retree(trees[0]), Retree(trees[1]), Mark(i, status));
    }
  }

  lemma {:induction false} RelocateKeys(t: Tree, id: Id, cur: Path, dest: Path)
    ensures LastTree(t, Relocate(t, id, cur, dest).0).Keys <= t.Keys
  {
    var moved := MoveUnder(t, id, cur, Parent(dest));
    var renamed := if moved.Ok? then RenameTo(moved.value, id, cur, Last(dest)) else moved;
    assert moved.Ok? ==> moved.value.Keys <= t.Keys;
    assert renamed.Ok? ==> renamed.value.Keys <= t.Keys;
    TwoStepsEnd(t, moved, renamed, Parent(cur) != Parent(dest), Last(cur) != Last(dest));
  }

  lemma {:induction false} DeleteDrops(t: Tree, filed: set<Path>, id: Id)
    ensures DeleteEmpty(t, filed, id).Ok? ==> DeleteEmpty(t, filed, id).value.Keys <= t.Keys
  {
  }

  /** Replaying a line never creates a folder. */
  lemma {:induction false} ReplayKeys(t: Tree, filed: set<Path>, id: Id, from: Option<Path>, to: Option<Path>)
    ensures LastTree(t, ReplayFolder(t, filed, id, from, to).0).Keys <= t.Keys
  {
    hide Relocate, DeleteEmpty, PathOf;
    if to.None? {
      DeleteDrops(t, filed, id);
    } else if PathOf(t, id).Some? {
      RelocateKeys(t, id, PathOf(t, id).value, to.value);
    }
  }

  lemma {:induction false} FoldersAreValid(t: Tree, p: Path)
    requires TreeOk(t)
    ensures IdOf(t, p).Some? <==> exists x :: x in t && Paths(t)[x] == p
    ensures IdOf(t, p).Some? ==> ValidPath(p)
  {
    forall x | x in t
      ensures PathOf(t, x) == Some(Paths(t)[x])
    {
      IdOfView(t, x);
    }
  }

  lemma {:induction false} MoveMeans(t: Tree, id: Id, parent: Option<Id>)
    ensures Move(t, id, parent).Ok? ==> id in t && (parent.Some? ==> parent.value in t)
    ensures TreeOk(t) && Move(t, id, parent).Ok? ==>
      var t1 := Move(t, id, parent).value;
      TreeOk(t1) && t1.Keys == t.Keys && Paths(t1) == Moved(Paths(t), Paths(t)[id], ParentPath(Paths(t), parent) + [t[id].name])
    ensures TreeOk(t) && id in t && (parent.Some? ==> parent.value in t) ==>
      var v := Paths(t);
      var dest := ParentPath(v, parent) + [t[id].name];
      Move(t, id, parent).Err? <==>
        || (parent.Some? && v[id] <= v[parent.value])
        || (exists x :: x in t && x != id && v[x] == dest)
        || (exists x :: x in t && v[id] <= v[x] && !ValidPath(dest + v[x][|v[id]|..]))
  {
    if TreeOk(t) && Move(t, id, parent).Ok? {
      MoveKeeps(t, id, parent);
    }
    if TreeOk(t) && id in t && (parent.Some? ==> parent.value in t) {
      MoveFailsIff(t, id, parent);
    }
  }

  lemma {:induction false} RenameMeans(t: Tree, id: Id, name: string)
    ensures Rename(t, id, name).Ok? ==> id in t
    ensures TreeOk(t) && Rename(t, id, name).Ok? ==>
      var t1 := Rename(t, id, name).value;
      TreeOk(t1) && t1.Keys == t.Keys && Paths(t1) == Moved(Paths(t), Paths(t)[id], Parent(Paths(t)[id]) + [name])
    ensures TreeOk(t) && id in t ==>
      var v := Paths(t);
      var dest := Parent(v[id]) + [name];
      Rename(t, id, name).Err? <==>
        || (exists x :: x in t && x != id && v[x] == dest)
        || (exists x :: x in t && v[id] <= v[x] && !ValidPath(dest + v[x][|v[id]|..]))
  {
    if TreeOk(t) && Rename(t, id, name).Ok? {
      RenameKeeps(t, id, name);
    }
    if TreeOk(t) && id in t {
      RenameFailsIff(t, id, name);
    }
  }

  class Console {
    var tree: Tree
    var nextId: Id
    var cache: map<Key, Entry>
    var objects: map<Key, Path>
    var journal: seq<Line>

    constructor (w: World)
      requires TreeOk(w.tree) && Fresh(w.tree, w.nextId)
      ensures Valid() && State() == w
    {
      tree, nextId, cache, objects, journal := w.tree, w.nextId, w.cache, w.objects, w.journal;
    }

    ghost function State(): World
      reads this
    {
      World(tree, nextId, cache, objects, journal)
    }

    ghost predicate Valid()
      reads this
    {
      TreeOk(tree) && Fresh(tree, nextId)
    }

    // --- one write each -----------------------------------------------------------------

    /** Adds row `i` of the action, or sets the status of the row that is there. */
    method RecordMove(i: nat, m: Line)
      requires i <= |journal|
      modifies `journal
      ensures State() == if i < |old(journal)| then Apply(old(State()), Mark(i, m.status)) else old(State()).(journal := old(journal) + [m])
    {
      if i < |journal| {
        journal := journal[i := journal[i].(status := m.status)];
      } else {
        journal := journal + [m];
      }
    }

    /** `start_lines` of a new action. */
    method StartLines(lines: seq<Line>)
      modifies `journal
      ensures State() == Post(old(State()), lines)
    {
      journal := [];
      for n := 0 to |lines|
        invariant journal == lines[..n]
      {
        RecordMove(n, lines[n]);
      }
    }

    method SetMoveFrom(i: nat, before: Option<Path>)
      requires i < |journal|
      modifies `journal
      ensures State() == Apply(old(State()), SetFrom(i, before))
    {
      journal := journal[i := journal[i].(from := before)];
    }

    method UpsertMembership(key: Key, path: Option<Path>, source: Source)
      modifies `cache
      ensures State() == Apply(old(State()), File(key, path, source))
    {
      if path.None? {
        cache := cache - {key};
      } else {
        cache := cache[key := Entry(path.value, source)];
      }
    }

    method WriteObject(key: Key, to: Option<Path>)
      modifies `objects
      ensures State() == Apply(old(State()), Carry(key, to))
    {
      objects := Put(objects, key, to);
    }

    // --- the tree ------------------------------------------------------------------------

    /** `id_of` */
    method FindId(p: Path) returns (r: Option<Id>)
      requires TreeOk(tree)
      ensures r == IdOf(tree, p)
    {
      var rest := tree.Keys;
      while rest != {}
        invariant rest <= tree.Keys
        invariant forall x :: x in tree && x !in rest ==> PathOf(tree, x) != Some(p)
        decreases |rest|
      {
        var x :| x in rest;
        if PathOf(tree, x) == Some(p) {
          IdOfView(tree, x);
          return Some(x);
        }
        rest := rest - {x};
      }
      return None;
    }

    /**
     * `move_folder`: refused exactly into itself or below, onto a path that is
     * taken, or where a path would be out of bounds; then nothing changes.
     * Accepted, the subtree is under the new parent and no other path changes.
     */
    method MoveFolder(id: Id, parent: Option<Id>) returns (ok: bool)
      modifies `tree
      ensures ok == Move(old(tree), id, parent).Ok?
      ensures tree == if ok then Move(old(tree), id, parent).value else old(tree)
      ensures old(TreeOk(tree)) ==> TreeOk(tree) && tree.Keys == old(tree).Keys
      ensures ok ==> id in old(tree) && (parent.Some? ==> parent.value in old(tree))
      ensures old(TreeOk(tree)) && id in old(tree) && (parent.Some? ==> parent.value in old(tree)) ==>
        var v := Paths(old(tree));
        var dest := ParentPath(v, parent) + [old(tree)[id].name];
        && (!ok <==>
              || (parent.Some? && v[id] <= v[parent.value])
              || (exists x :: x in v && x != id && v[x] == dest)
              || (exists x :: x in v && v[id] <= v[x] && !ValidPath(dest + v[x][|v[id]|..])))
        && Paths(tree) == if ok then Moved(v, v[id], dest) else v
    {
      ghost var t := tree;
      MoveMeans(t, id, parent);
      match Move(tree, id, parent)
      case Err(_) => ok := false;
      case Ok(t) =>
        tree := t;
        ok := true;
    }

    /**
     * `rename`: refused exactly onto a path that is taken or where a path would
     * be out of bounds; then nothing changes. Accepted, the folder and its
     * subtree have the new name in their paths and no other path changes.
     */
    method RenameFolder(id: Id, name: string) returns (ok: bool)
      modifies `tree
      ensures ok == Rename(old(tree), id, name).Ok?
      ensures tree == if ok then Rename(old(tree), id, name).value else old(tree)
      ensures old(TreeOk(tree)) ==> TreeOk(tree) && tree.Keys == old(tree).Keys
      ensures ok ==> id in old(tree)
      ensures old(TreeOk(tree)) && id in old(tree) ==>
        var v := Paths(old(tree));
        var dest := Parent(v[id]) + [name];
        && (!ok <==>
              || (exists x :: x in v && x != id && v[x] == dest)
              || (exists x :: x in v && v[id] <= v[x] && !ValidPath(dest + v[x][|v[id]|..])))
        && Paths(tree) == if ok then Moved(v, v[id], dest) else v
    {
      ghost var t := tree;
      RenameMeans(t, id, name);
      match Rename(tree, id, name)
      case Err(_) => ok := false;
      case Ok(t) =>
        tree := t;
        ok := true;
    }

    /** The move, then the renaming, towards a path whose parent must exist. */
    method RelocateFolder(id: Id, cur: Path, dest: Path) returns (status: Status)
      requires TreeOk(tree)
      modifies `tree
      ensures var (trees, s) := Relocate(old(tree), id, cur, dest); tree == LastTree(old(tree), trees) && status == s
    {
      hide Move, Rename, Moved, ValidPath, TreeOk, Paths;
      var above, parentId := Parent(dest), None;
      if above != [] {
        parentId := FindId(above);
        if parentId.None? {
          return Failed;
        }
      }
      if Parent(cur) != above {
        var ok := MoveFolder(id, parentId);
        if !ok {
          return Failed;
        }
      }
      if Last(cur) != Last(dest) {
        var ok := RenameFolder(id, Last(dest));
        if !ok {
          return Failed;
        }
      }
      return Done;
    }

    /** `replay_folder_line` */
    method ReplayFolderLine(id: Id, from: Option<Path>, to: Option<Path>) returns (status: Status)
      requires TreeOk(tree)
      modifies `tree
      ensures var (trees, s) := ReplayFolder(old(tree), Filed(old(State())), id, from, to);
        tree == LastTree(old(tree), trees) && status == s
    {
      var cur := PathOf(tree, id);
      if to.None? {
        if cur.None? {
          return Done;
        }
        if cur != from {
          return Failed;
        }
        match DeleteEmpty(tree, set k | k in cache :: cache[k].path, id)
        case Err(_) => return Failed;
        case Ok(t) =>
          tree := t;
          return Done;
      }
      if cur == to {
        return Done;
      }
      if cur != from || cur.None? || to.value == [] {
        return Failed;
      }
      status := RelocateFolder(id, cur.value, to.value);
    }

    // --- run_lines -------------------------------------------------------------------------

    method KeepInConsole(i: nat, key: Key, to: Option<Path>)
      requires i < |journal|
      modifies `cache, `journal
      ensures State() == ApplyAll(old(State()), ConsoleEffects(old(State()), i, key, to))
    {
      ghost var w := State();
      if key in cache && cache[key].source == OnObject {
        RecordMove(i, journal[i].(status := Failed));
        ApplyOne(w, Mark(i, Failed));
      } else {
        UpsertMembership(key, to, ConsoleOnly);
        RecordMove(i, journal[i].(status := Done));
        ApplyTwo(w, File(key, to, ConsoleOnly), Mark(i, Done));
      }
    }

    method AttemptWrite(i: nat, key: Key, to: Option<Path>, writing: Writing)
      requires i < |journal|
      modifies `cache, `objects, `journal
      ensures State() == ApplyAll(old(State()),
        match writing
        case Accepted => [Carry(key, to), File(key, to, OnObject), Mark(i, Done)]
        case Transient => [Carry(key, to), File(key, to, ConsoleOnly), Mark(i, Done)]
        case Denied => ConsoleEffects(old(State()), i, key, to)
        case Broken(applied) => (if applied then [Carry(key, to)] else []) + [Mark(i, Failed)])
    {
      ghost var w := State();
      match writing
      case Accepted =>
        WriteObject(key, to);
        UpsertMembership(key, to, OnObject);
        RecordMove(i, journal[i].(status := Done));
        ApplyThree(w, Carry(key, to), File(key, to, OnObject), Mark(i, Done));
      case Transient =>
        WriteObject(key, to);
        UpsertMembership(key, to, ConsoleOnly);
        RecordMove(i, journal[i].(status := Done));
        ApplyThree(w, Carry(key, to), File(key, to, ConsoleOnly), Mark(i, Done));
      case Denied =>
        KeepInConsole(i, key, to);
      case Broken(applied) =>
        if applied {
          WriteObject(key, to);
        }
        RecordMove(i, journal[i].(status := Failed));
        ApplyOne(w, Mark(i, Failed));
        ApplyTwo(w, Carry(key, to), Mark(i, Failed));
        assert (if applied then [Carry(key, to)] else []) + [Mark(i, Failed)]
            == if applied then [Carry(key, to), Mark(i, Failed)] else [Mark(i, Failed)];
    }

    /** One object line of `run_lines`. */
    method RunObjectLine(i: nat, key: Key, env: Env, strict: bool) returns (moved: Option<Elsewhere>)
      requires i < |journal| && journal[i].what == ObjectRow(key)
      modifies `cache, `objects, `journal
      ensures State() == Step(old(State()), i, Lines(env, strict))
      ensures moved == if strict && Away(old(State()), i, env) then Some(AwayFrom(old(State()), i)) else None
    {
      ghost var w := State();
      var m := journal[i];
      moved := None;
      if key !in env {
        RecordMove(i, journal[i].(status := Failed));
        ApplyOne(w, Mark(i, Failed));
        return;
      }
      if !env[key].write {
        KeepInConsole(i, key, m.to);
        return;
      }
      var before := if key in objects then Some(objects[key]) else None;
      if !env[key].readable || (strict && before != m.from && before != m.to) {
        if env[key].readable {
          moved := Some(Elsewhere(key, m.from, before));
        }
        RecordMove(i, journal[i].(status := Failed));
        ApplyOne(w, Mark(i, Failed));
        return;
      }
      if before != m.from {
        SetMoveFrom(i, before);
      }
      ghost var u := State();
      AttemptWrite(i, key, m.to, env[key].writing);
      WriteNoted(w, u, i, env, strict);
    }

    /** `run_lines`: the lines that are not done, and the objects that a strict run finds elsewhere. */
    method RunLines(todo: seq<nat>, env: Env, strict: bool) returns (failed: nat, moved: seq<Elsewhere>)
      requires Valid() && forall i :: i in todo ==> i < |journal|
      modifies this
      ensures Valid() && State() == Run(old(State()), todo, Lines(env, strict))
      ensures Distinct(todo) ==> failed == NotDone(journal, todo)
      ensures Distinct(todo) && DistinctKeys(old(journal)) ==> moved == if strict then AwayOf(old(State()), todo, env) else []
    {
      ghost var w, line := State(), Lines(env, strict);
      assert todo[..0] == [];
      failed, moved := 0, [];
      for n := 0 to |todo|
        invariant Valid() && |journal| == |w.journal|
        invariant Runnable(w, todo[..n]) && State() == Run(w, todo[..n], line)
        invariant Distinct(todo) ==> failed == NotDone(journal, todo[..n])
        invariant Distinct(todo) && DistinctKeys(w.journal) ==> moved == if strict then AwayOf(w, todo[..n], env) else []
      {
        RunExtends(w, todo, n, line);
        ReportStep(w, todo, n, env, strict);
        var i := todo[n];
        hide LineEffects, NotDone, AwayOf, Run, TreeOk;
        match journal[i].what {
          case ObjectRow(key) =>
            var away := RunObjectLine(i, key, env, strict);
            if away.Some? {
              moved := moved + [away.value];
            }
          case FolderRow(id) =>
            ghost var u := State();
            var status := ReplayFolderLine(id, journal[i].from, journal[i].to);
            RecordMove(i, journal[i].(status := status));
            FolderLineRun(u, i, id, env, strict);
        }
        if journal[i].status != Done {
          failed := failed + 1;
        }
      }
      assert todo[..|todo|] == todo;
    }

    /** `cmd_resume` */
    method Resume(env: Env)
      requires Valid()
      modifies this
      ensures Valid() && State() == FolderRecovery.Resume(old(State()), env)
    {
      var todo: seq<nat> := [];
      for n := 0 to |journal|
        invariant todo == ResumeTodo(State(), n)
      {
        var m := journal[n];
        var now := if m.what.ObjectRow? && m.what.key in cache then Some(cache[m.what.key].path) else None;
        if m.status in {Pending, Failed} && (m.what.FolderRow? || now == m.from || now == m.to) {
          todo := todo + [n];
        }
      }
      var _, _ := RunLines(todo, env, true);
    }

    /** A new action run from its posted lines to its end. */
    method RunAction(lines: seq<Line>, env: Env)
      requires Valid()
      modifies this
      ensures Valid() && State() == Complete(Post(old(State()), lines), env)
    {
      StartLines(lines);
      var _, _ := RunLines(Range(0, |lines|), env, false);
    }

    // --- plans -------------------------------------------------------------------------------

    /** `_rewrite`: what sits at or below `below`, in the order of the keys. */
    method PlanRewrite(keys: seq<Key>, below: Path, place: Path) returns (plan: seq<Line>)
      ensures plan == RewriteLines(State(), keys, below, place)
    {
      plan := [];
      assert keys[0..] == keys;
      for n := 0 to |keys|
        invariant plan + RewriteLines(State(), keys[n..], below, place) == RewriteLines(State(), keys, below, place)
      {
        assert keys[n..][1..] == keys[n + 1..] && keys[n..][0] == keys[n];
        if keys[n] in cache && below <= cache[keys[n]].path {
          var p := cache[keys[n]].path;
          plan := plan + [Pend(ObjectRow(keys[n]), Some(p), Some(place + p[|below|..]))];
        }
      }
    }

    method PlanDirect(keys: seq<Key>, p: Path, to: Option<Path>) returns (plan: seq<Line>)
      ensures plan == DirectLines(State(), keys, p, to)
    {
      plan := [];
      assert keys[0..] == keys;
      for n := 0 to |keys|
        invariant plan + DirectLines(State(), keys[n..], p, to) == DirectLines(State(), keys, p, to)
      {
        assert keys[n..][1..] == keys[n + 1..] && keys[n..][0] == keys[n];
        if keys[n] in cache && cache[keys[n]].path == p {
          plan := plan + [Pend(ObjectRow(keys[n]), Some(p), to)];
        }
      }
    }

    /** `cmd_assign`: refused for an empty request or a folder that does not exist, and nothing changes. */
    method Assign(keys: seq<Key>, to: Option<Path>, env: Env) returns (accepted: bool)
      requires Valid()
      modifies this
      ensures Valid()
      ensures accepted <==> keys != [] && (to.Some? ==> exists x :: x in old(tree) && Paths(old(tree))[x] == to.value)
      ensures State() == if accepted then Complete(Post(old(State()), AssignLines(old(State()), keys, to)), env) else old(State())
      ensures accepted && KeyOrder(keys) ==> forall k :: k in keys && CanWrite(env, k) ==> Value(State(), k) == CachedPath(State(), k) == to
    {
      if to.Some? {
        FoldersAreValid(tree, to.value);
        if !ValidPath(to.value) {
          return false;
        }
        var there := FindId(to.value);
        if there.None? {
          return false;
        }
      }
      if keys == [] {
        return false;
      }
      var plan: seq<Line> := [];
      for n := 0 to |keys|
        invariant |plan| == n && forall i :: 0 <= i < n ==> plan[i] == Pend(ObjectRow(keys[i]), CachedPath(State(), keys[i]), to)
      {
        plan := plan + [Pend(ObjectRow(keys[n]), if keys[n] in cache then Some(cache[keys[n]].path) else None, to)];
      }
      assert plan == AssignLines(State(), keys, to);
      ghost var w := State();
      RunAction(plan, env);
      forall k | KeyOrder(keys) && k in keys && CanWrite(env, k)
        ensures Value(State(), k) == CachedPath(State(), k) == to
      {
        AssignFiles(w, env, keys, to, k);
      }
      return true;
    }

    /** `cmd_rename`: the folder first, then its line and those of the objects below it. */
    method RenameAndRewrite(keys: seq<Key>, id: Id, name: string, env: Env) returns (accepted: bool)
      requires Valid()
      modifies this
      ensures Valid() && accepted == Rename(old(tree), id, name).Ok?
      ensures accepted ==> id in old(tree) && var w, p := old(State()), At(Paths(old(tree)), id);
        State() == Complete(Post(w.(tree := Rename(w.tree, id, name).value),
                                 FolderChangeLines(w, keys, id, p, Parent(p) + [name])), env)
      ensures accepted && Covers(keys, old(cache)) && Writable(old(State()), env, At(Paths(old(tree)), id)) ==>
        Follows(State(), old(State()))
      ensures !accepted ==> State() == old(State())
    {
      hide TreeOk, Follows, Housed, Writable, Moved, Rename, Complete;
      ghost var w := State();
      var p := At(Paths(tree), id);
      accepted := RenameFolder(id, name);
      if accepted {
        RenameKeeps(w.tree, id, name);
        var plan := PlanRewrite(keys, p, Parent(p) + [name]);
        RewriteReadsCache(State(), w, keys, p, Parent(p) + [name]);
        RunAction([Pend(FolderRow(id), Some(p), Some(Parent(p) + [name]))] + plan, env);
        if Covers(keys, w.cache) {
          RenameFollows(w, env, keys, id, name);
        }
      }
    }

    /** `cmd_move_folder`: likewise, under another parent. */
    method MoveAndRewrite(keys: seq<Key>, id: Id, parent: Option<Id>, env: Env) returns (accepted: bool)
      requires Valid()
      modifies this
      ensures Valid() && accepted == Move(old(tree), id, parent).Ok?
      ensures accepted ==> id in old(tree) && var w, p := old(State()), At(Paths(old(tree)), id);
        State() == Complete(Post(w.(tree := Move(w.tree, id, parent).value),
                                 FolderChangeLines(w, keys, id, p, ParentPath(Paths(w.tree), parent) + [w.tree[id].name])), env)
      ensures accepted && Covers(keys, old(cache)) && Writable(old(State()), env, At(Paths(old(tree)), id)) ==>
        Follows(State(), old(State()))
      ensures !accepted ==> State() == old(State())
    {
      hide TreeOk, Follows, Housed, Writable, Moved, Move, Complete;
      ghost var w := State();
      var p, above := At(Paths(tree), id), ParentPath(Paths(tree), parent);
      var name := if id in tree then tree[id].name else "";
      accepted := MoveFolder(id, parent);
      if accepted {
        MoveKeeps(w.tree, id, parent);
        var plan := PlanRewrite(keys, p, above + [name]);
        RewriteReadsCache(State(), w, keys, p, above + [name]);
        RunAction([Pend(FolderRow(id), Some(p), Some(above + [name]))] + plan, env);
        if Covers(keys, w.cache) {
          MoveFollows(w, env, keys, id, parent);
        }
      }
    }

    /** The checks of `cmd_empty_into`: nothing is touched when one fails. */
    method MayEmpty(fid: Id, target: Option<Id>, kids: seq<Id>) returns (accepted: bool)
      requires TreeOk(tree) && KidsOf(tree, fid, kids) && forall k :: k in Kids(tree, fid) ==> k in kids
      ensures accepted == CanEmpty(tree, fid, target)
    {
      var v := Paths(tree);
      if fid !in tree || (target.Some? && (target.value !in tree || v[fid] <= v[target.value])) {
        return false;
      }
      var above := ParentPath(v, target);
      forall i | 0 <= i < |kids|
        ensures kids[i] in tree
      {
        assert kids[i] in kids && kids[i] in Kids(tree, fid);
      }
      for n := 0 to |kids|
        invariant forall i :: 0 <= i < |kids| ==> kids[i] in tree
        invariant forall i, x :: 0 <= i < n && x in tree ==> v[x] != above + [tree[kids[i]].name]
      {
        if exists x :: x in tree && v[x] == above + [tree[kids[n]].name] {
          return false;
        }
      }
      if exists x :: x in tree && v[fid] < v[x] && !ValidPath(above + v[x][|v[fid]|..]) {
        return false;
      }
      return true;
    }

    /** The lines of an accepted request: children, objects, deletion. */
    method PlanEmpty(keys: seq<Key>, fid: Id, kids: seq<Id>, target: Option<Id>) returns (lines: seq<Line>)
      requires tree.Keys == Paths(tree).Keys && fid in tree && (target.Some? ==> target.value in tree)
      requires forall i :: 0 <= i < |kids| ==> kids[i] in tree
      ensures lines == EmptyLines(State(), keys, fid, kids, target)
    {
      hide Paths, RewriteLines, DirectLines;
      var v := Paths(tree);
      var above := ParentPath(v, target);
      var folders: seq<Line>, inside: seq<Line> := [], [];
      ghost var all := KidLines(tree, kids, target);
      assert kids[0..] == kids;
      for n := 0 to |kids|
        invariant folders == all[..n]
        invariant inside + KidObjectLines(State(), keys, kids[n..], target) == KidObjectLines(State(), keys, kids, target)
      {
        assert kids[n..][0] == kids[n] && kids[n..][1..] == kids[n + 1..];
        var k := kids[n];
        var place := above + [tree[k].name];
        folders := folders + [Pend(FolderRow(k), Some(v[k]), Some(place))];
        assert folders == all[..n + 1];
        var plan := PlanRewrite(keys, v[k], place);
        Text.AppendAssoc(inside, plan, KidObjectLines(State(), keys, kids[n + 1..], target));
        inside := inside + plan;
      }
      var direct := PlanDirect(keys, v[fid], if target.None? then None else Some(v[target.value]));
      assert folders == all;
      lines := folders + inside + direct + [Pend(FolderRow(fid), Some(v[fid]), None)];
    }

    /** `cmd_empty_into` */
    method EmptyInto(keys: seq<Key>, fid: Id, kids: seq<Id>, target: Option<Id>, env: Env) returns (accepted: bool)
      requires Valid() && KidsOf(tree, fid, kids) && forall k :: k in Kids(tree, fid) ==> k in kids
      modifies this
      ensures Valid() && accepted == CanEmpty(old(tree), fid, target)
      ensures accepted ==> State() == Emptied(old(State()), env, keys, fid, kids, target)
      ensures accepted && Covers(keys, old(cache)) && Housed(old(State())) && Writable(old(State()), env, At(Paths(old(tree)), fid)) ==>
        && fid !in tree && (target.Some? ==> target.value in Paths(old(tree)))
        && EmptiedFollows(State(), old(State()), fid, target)
      ensures !accepted ==> State() == old(State())
    {
      accepted := MayEmpty(fid, target, kids);
      if accepted {
        assert forall i :: 0 <= i < |kids| ==> kids[i] in kids;
        ghost var w := State();
        var lines := PlanEmpty(keys, fid, kids, target);
        RunAction(lines, env);
        if Covers(keys, w.cache) && Housed(w) && Writable(w, env, At(Paths(w.tree), fid)) {
          EmptyFollows(w, env, keys, fid, kids, target);
        }
      }
    }

    // --- undo -------------------------------------------------------------------------------------

    /** `ensure_path` */
    method EnsureFolder(p: Path) returns (ok: bool)
      requires Valid()
      modifies `tree, `nextId
      ensures Valid() && ok == EnsurePath(old(tree), old(nextId), p).Ok?
      ensures (tree, nextId) == if ok then EnsurePath(old(tree), old(nextId), p).value else (old(tree), old(nextId))
    {
      FirstLevel(tree, nextId, p);
      hide TreeOk, Fresh, ValidPath, LevelIs, EnsureFrom, EnsurePath, IdOf, Paths;
      if !ValidPath(p) {
        return false;
      }
      var parent := None;
      for k := 0 to |p|
        invariant Valid() && LevelIs(tree, p, k, parent)
        invariant EnsureFrom(tree, nextId, p, k, parent) == EnsureFrom(old(tree), old(nextId), p, 0, None)
      {
        var id := FindId(p[..k + 1]);
        NextLevel(tree, nextId, p, k, parent);
        if id.None? {
          tree := tree[nextId := Folder(parent, p[k])];
          parent := Some(nextId);
          nextId := nextId + 1;
        } else {
          parent := id;
        }
      }
      LastLevel(tree, nextId, p, parent);
      return true;
    }

    /** One folder line put back. */
    method UndoFolderLine(m: Line) returns (ok: bool)
      requires Valid() && m.what.FolderRow? && m.from.Some?
      modifies `tree, `nextId, `journal
      ensures Valid() && (State(), ok) == UndoFolder(old(State()), m)
    {
      if m.to.None? {
        ok := EnsureFolder(m.from.value);
        if ok {
          RecordMove(|journal|, Line(m.what, None, m.from, Done));
        }
        return;
      }
      var cur := PathOf(tree, m.what.id);
      if cur != m.to {
        return false;
      }
      RelocateKeepsValid(tree, nextId, m.what.id, cur.value, m.from.value);
      var status := RelocateFolder(m.what.id, cur.value, m.from.value);
      if status == Done {
        RecordMove(|journal|, Line(m.what, m.to, m.from, Done));
      }
      return status == Done;
    }

    /** Where each object with a done line first starts and last ends, in one pass. */
    method FirstAndLast(moves: seq<Line>) returns (first: map<Key, Option<Path>>, last: map<Key, Option<Path>>)
      ensures first.Keys == last.Keys
      ensures forall k :: k in last <==> exists i :: 0 <= i < |moves| && DoneFor(moves[i], k)
      ensures forall k :: k in last ==> first[k] == FirstFrom(moves, k) && last[k] == LastTo(moves, k)
    {
      first, last := map[], map[];
      for n := 0 to |moves|
        invariant forall k :: k in last <==> exists i :: 0 <= i < n && DoneFor(moves[i], k)
        invariant first.Keys == last.Keys
        invariant forall k :: k in last ==> first[k] == FirstFrom(moves[..n], k) && last[k] == LastTo(moves[..n], k)
      {
        var m := moves[n];
        if m.what.ObjectRow? && m.status == Done {
          if m.what.key !in first {
            first := first[m.what.key := m.from];
          }
          last := last[m.what.key := m.to];
        }
        forall k | k in last
          ensures first[k] == FirstFrom(moves[..n + 1], k) && last[k] == LastTo(moves[..n + 1], k)
        {
          OneMoreMove(moves, n, k);
        }
      }
      assert moves[..|moves|] == moves;
    }

    /** `undo_plan`: what to take back, and the objects that are no longer where the action left them. */
    method UndoPlan(moves: seq<Line>, order: seq<Key>) returns (plan: seq<Line>, conflicts: seq<Elsewhere>)
      requires OrderOf(moves, order)
      ensures plan == UndoLines(moves, State(), order) && conflicts == Conflicts(moves, State(), order)
    {
      var first, last := FirstAndLast(moves);
      hide FirstFrom, LastTo, DoneFor, UndoLines, Conflicts;
      PlanEnd(moves, State());
      plan, conflicts := [], [];
      assert order[0..] == order;
      for n := 0 to |order|
        invariant plan + UndoLines(moves, State(), order[n..]) == UndoLines(moves, State(), order)
        invariant conflicts + Conflicts(moves, State(), order[n..]) == Conflicts(moves, State(), order)
      {
        var k := order[n];
        assert k in order;
        var now := if k in cache then Some(cache[k].path) else None;
        ghost var ls, cs := UndoLines(moves, State(), order[n + 1..]), Conflicts(moves, State(), order[n + 1..]);
        PlanStep(moves, State(), order, n);
        if now != last[k] {
          Text.AppendAssoc(conflicts, [Elsewhere(k, last[k], now)], cs);
          conflicts := conflicts + [Elsewhere(k, last[k], now)];
        } else if first[k] != last[k] {
          Text.AppendAssoc(plan, [Pend(ObjectRow(k), last[k], first[k])], ls);
          plan := plan + [Pend(ObjectRow(k), last[k], first[k])];
        }
      }
      assert order[|order|..] == [] && plan + [] == plan && conflicts + [] == conflicts;
    }

    /** The folder lines of the action, last first; the former paths of those that cannot go back. */
    method UndoFolderLines(moves: seq<Line>) returns (stuck: seq<Path>)
      requires Valid()
      modifies `tree, `nextId, `journal
      ensures Valid() && (State(), stuck) == UndoFolders(old(State()), moves, |moves|)
    {
      hide TreeOk, UndoFolder;
      ghost var whole := UndoFolders(State(), moves, |moves|);
      stuck := [];
      assert stuck + whole.1 == whole.1;
      var n := |moves|;
      while n > 0
        invariant 0 <= n <= |moves| && Valid() && cache == old(cache) && objects == old(objects)
        invariant UndoFolders(State(), moves, n).0 == whole.0 && stuck + UndoFolders(State(), moves, n).1 == whole.1
      {
        n := n - 1;
        if UndoesFolder(moves[n]) {
          ghost var w := State();
          var ok := UndoFolderLine(moves[n]);
          UndoFoldersStep(w, moves, n);
          if !ok {
            Text.AppendAssoc(stuck, [moves[n].from.value], UndoFolders(State(), moves, n).1);
            stuck := stuck + [moves[n].from.value];
          }
        }
      }
      assert stuck + [] == stuck;
    }

    /** The first half of `cmd_undo`: the lines of the objects are posted, and the folders go back. */
    method StartUndo(moves: seq<Line>, order: seq<Key>) returns (n: nat, stuck: seq<Path>, conflicts: seq<Elsewhere>)
      requires Valid() && OrderOf(moves, order)
      modifies this
      ensures Valid() && (State(), stuck) == Started(old(State()), moves, order)
      ensures n == |UndoLines(moves, old(State()), order)| && conflicts == Conflicts(moves, old(State()), order)
    {
      hide UndoLines, UndoFolders, Conflicts, OrderOf;
      var lines;
      lines, conflicts := UndoPlan(moves, order);
      n := |lines|;
      StartLines(lines);
      stuck := UndoFolderLines(moves);
    }

    /** `cmd_undo` of the action whose journal is `moves`. */
    method Undo(moves: seq<Line>, order: seq<Key>, env: Env) returns (failed: nat, conflicts: seq<Conflict>, putBack: nat)
      requires Valid() && OrderOf(moves, order)
      modifies this
      ensures State() == FolderUndo.Undo(old(State()), moves, order, env)
      ensures conflicts == UndoConflicts(old(State()), moves, order, env)
      ensures failed == UndoFailures(old(State()), moves, order, env) && putBack == DoneObjects(journal, |journal|)
    {
      OrdersKeys(moves, order);
      hide UndoLines, UndoFolders, Started, FolderUndo.Undo, UnderStuck, SkipStuck, Kept, HomelessOf, AwayOf, NotDone, DoneObjects,
        OrderOf, KeyOrder, Run, DistinctKeys, Distinct, Conflicts,
        UndoConflicts, UndoFailures, AllStrayed, TreeOk;
      ghost var w := State();
      ghost var n0, w1, stuck0, w2, todo := UndoIs(w, moves, order, env);
      ReportParts(w, moves, order, env, n0, w1, stuck0, w2, todo);
      var n, stuck, before := StartUndo(moves, order);
      var kept, homeless := KeepLines(n, stuck);
      conflicts := AllStrayed(before) + homeless;
      failed := |stuck| + |conflicts|;
      var notDone, moved := RunLines(kept, env, true);
      failed, conflicts := failed + notDone, conflicts + AllStrayed(moved);
      putBack := ObjectsDone();
    }

    /** How many objects were put back. */
    method ObjectsDone() returns (c: nat)
      ensures c == DoneObjects(journal, |journal|)
    {
      c := 0;
      for n := 0 to |journal|
        invariant c == DoneObjects(journal, n)
      {
        if journal[n].what.ObjectRow? && journal[n].status == Done {
          c := c + 1;
        }
      }
    }

    /** Lines whose former folder could not go back are marked, reported and left out. */
    method KeepLines(count: nat, stuck: seq<Path>) returns (kept: seq<nat>, homeless: seq<Conflict>)
      requires count <= |journal| && forall i :: 0 <= i < count ==> journal[i].what.ObjectRow?
      modifies `journal
      ensures State() == SkipStuck(old(State()), count, stuck) && kept == Kept(old(State()), count, stuck)
      ensures homeless == HomelessOf(old(journal), count, stuck)
      ensures forall i :: i in kept ==> i < |journal|
    {
      hide UnderStuck, HomeOf;
      kept, homeless := [], [];
      for n := 0 to count
        invariant State() == SkipStuck(old(State()), n, stuck) && kept == Kept(old(State()), n, stuck)
        invariant homeless == HomelessOf(old(journal), n, stuck)
        invariant |journal| == |old(journal)| && forall i :: n <= i < |journal| ==> journal[i] == old(journal)[i]
      {
        NoHomeIff(journal[n], stuck);
        var home := if journal[n].to.Some? then HomeOf(stuck, journal[n].to.value) else None;
        if home.Some? {
          homeless := homeless + [Homeless(journal[n].what.key, journal[n].from, home.value)];
          RecordMove(n, journal[n].(status := Skipped));
        } else {
          kept := kept + [n];
        }
      }
    }
  }

  lemma {:induction false} FirstLevel(t: Tree, next: Id, p: Path)
    ensures LevelIs(t, p, 0, None)
    ensures EnsurePath(t, next, p) == if ValidPath(p) then Ok(EnsureFrom(t, next, p, 0, None)) else Err(Invalid)
  {
  }

  lemma {:induction false} LastLevel(t: Tree, next: Id, p: Path, parent: Option<Id>)
    ensures EnsureFrom(t, next, p, |p|, parent) == (t, next)
  {
  }

  lemma {:induction false} NextLevel(t: Tree, next: Id, p: Path, k: nat, parent: Option<Id>)
    requires TreeOk(t) && Fresh(t, next) && ValidPath(p) && k < |p| && LevelIs(t, p, k, parent)
    ensures match IdOf(t, p[..k + 1])
      case Some(id) => LevelIs(t, p, k + 1, Some(id)) && EnsureFrom(t, next, p, k, parent) == EnsureFrom(t, next, p, k + 1, Some(id))
      case None =>
        var t1 := t[next := Folder(parent, p[k])];
        && TreeOk(t1) && Fresh(t1, next + 1) && LevelIs(t1, p, k + 1, Some(next))
        && EnsureFrom(t, next, p, k, parent) == EnsureFrom(t1, next + 1, p, k + 1, Some(next))
  {
    if IdOf(t, p[..k + 1]).None? {
      EnsureLevel(t, next, p, k, parent);
    }
  }

  lemma {:induction false} OrdersKeys(moves: seq<Line>, order: seq<Key>)
    requires OrderOf(moves, order)
    ensures KeyOrder(order)
  {
  }

  lemma {:induction false} WriteNoted(w: World, u: World, i: nat, env: Env, strict: bool)
    requires i < |w.journal| && w.journal[i].what.ObjectRow?
    requires var m := w.journal[i];
      && m.what.key in env && env[m.what.key].write && env[m.what.key].readable
      && (strict ==> Value(w, m.what.key) == m.from || Value(w, m.what.key) == m.to)
      && u == (if Value(w, m.what.key) != m.from then Apply(w, SetFrom(i, Value(w, m.what.key))) else w)
    ensures var m := w.journal[i];
      var key, to := m.what.key, m.to;
      Step(w, i, Lines(env, strict)) == ApplyAll(u,
        match env[key].writing
        case Accepted => [Carry(key, to), File(key, to, OnObject), Mark(i, Done)]
        case Transient => [Carry(key, to), File(key, to, ConsoleOnly), Mark(i, Done)]
        case Denied => ConsoleEffects(u, i, key, to)
        case Broken(applied) => (if applied then [Carry(key, to)] else []) + [Mark(i, Failed)])
  {
    var m := w.journal[i];
    var key, to := m.what.key, m.to;
    var rest := match env[key].writing
      case Accepted => [Carry(key, to), File(key, to, OnObject), Mark(i, Done)]
      case Transient => [Carry(key, to), File(key, to, ConsoleOnly), Mark(i, Done)]
      case Denied => ConsoleEffects(u, i, key, to)
      case Broken(applied) => (if applied then [Carry(key, to)] else []) + [Mark(i, Failed)];
    NoteApplies(w, i, Value(w, key), rest);
    var note := if Value(w, key) != m.from then [SetFrom(i, Value(w, key))] else [];
    if env[key].writing.Broken? {
      var carry := if env[key].writing.applied then [Carry(key, to)] else [];
      assert note + carry + [Mark(i, Failed)] == note + (carry + [Mark(i, Failed)]);
    }
    assert LineEffects(w, i, env, strict) == note + rest;
  }

  lemma {:induction false} FolderLineRun(u: World, i: nat, id: Id, env: Env, strict: bool)
    requires TreeOk(u.tree) && Fresh(u.tree, u.nextId) && i < |u.journal| && u.journal[i].what == FolderRow(id)
    ensures var m := u.journal[i];
      var (trees, status) := ReplayFolder(u.tree, Filed(u), id, m.from, m.to);
      var s := Step(u, i, Lines(env, strict));
      && s == Apply(u.(tree := LastTree(u.tree, trees)), Mark(i, status))
      && TreeOk(s.tree) && Fresh(s.tree, s.nextId)
  {
    var m := u.journal[i];
    var (trees, status) := ReplayFolder(u.tree, Filed(u), id, m.from, m.to);
    RetreesApply(u, trees, i, status);
    ReplayKeys(u.tree, Filed(u), id, m.from, m.to);
    LineKeepsTree(u, i, env, strict);
    ApplyKeepsTree(u, LineEffects(u, i, env, strict));
  }

  lemma {:induction false} RewriteReadsCache(u: World, w: World, keys: seq<Key>, below: Path, place: Path)
    requires u.cache == w.cache
    ensures RewriteLines(u, keys, below, place) == RewriteLines(w, keys, below, place)
  {
    if keys == [] {
    } else {
      RewriteReadsCache(u, w, keys[1..], below, place);
    }
  }

  lemma {:induction false} UndoFoldersStep(w: World, moves: seq<Line>, n: nat)
    requires n < |moves| && UndoesFolder(moves[n])
    ensures var (w1, ok) := UndoFolder(w, moves[n]);
      && UndoFolders(w, moves, n + 1).0 == UndoFolders(w1, moves, n).0
      && UndoFolders(w, moves, n + 1).1 == (if ok then [] else [moves[n].from.value]) + UndoFolders(w1, moves, n).1
  {
    var (w1, ok) := UndoFolder(w, moves[n]);
    assert [] + UndoFolders(w1, moves, n).1 == UndoFolders(w1, moves, n).1;
  }

  lemma {:induction false} RelocateKeepsValid(t: Tree, next: Id, id: Id, cur: Path, dest: Path)
    requires TreeOk(t) && Fresh(t, next) && PathOf(t, id) == Some(cur)
    ensures var t' := LastTree(t, Relocate(t, id, cur, dest).0); TreeOk(t') && Fresh(t', next)
  {
    hide TreeOk, Move, Rename;
    PathOfOk(t, id);
    var moved := MoveUnder(t, id, cur, Parent(dest));
    var renamed := if moved.Ok? then RenameTo(moved.value, id, cur, Last(dest)) else moved;
    if moved.Ok? {
      MoveUnderKeeps(t, id, cur, Parent(dest));
      if renamed.Ok? {
        NameIsLast(t, id);
        RenameToKeeps(moved.value, id, cur, Last(dest));
      }
    }
    TwoStepsEnd(t, moved, renamed, Parent(cur) != Parent(dest), Last(cur) != Last(dest));
  }

  /** One more journal line changes the ends of its own object only. */
  lemma {:induction false} OneMoreMove(moves: seq<Line>, n: nat, k: Key)
    requires n < |moves|
    ensures LastTo(moves[..n + 1], k) == (if DoneFor(moves[n], k) then moves[n].to else LastTo(moves[..n], k))
    ensures FirstFrom(moves[..n + 1], k)
         == (if DoneFor(moves[n], k) && !(exists i :: 0 <= i < n && DoneFor(moves[i], k)) then moves[n].from else FirstFrom(moves[..n], k))
  {
    assert moves[..n + 1][..n] == moves[..n];
    FirstOfMore(moves[..n], moves[n], k);
    assert moves[..n + 1] == moves[..n] + [moves[n]];
    assert forall i :: 0 <= i < n ==> moves[..n][i] == moves[i];
  }

  lemma {:induction false} FirstOfMore(moves: seq<Line>, m: Line, k: Key)
    ensures FirstFrom(moves + [m], k)
         == (if DoneFor(m, k) && !(exists i :: 0 <= i < |moves| && DoneFor(moves[i], k)) then m.from else FirstFrom(moves, k))
  {
    if moves == [] {
      assert moves + [m] == [m];
    } else if !DoneFor(moves[0], k) {
      assert (moves + [m])[1..] == moves[1..] + [m];
      FirstOfMore(moves[1..], m, k);
      assert forall i :: 0 <= i < |moves| - 1 ==> moves[1..][i] == moves[i + 1];
      assert (exists i :: 0 <= i < |moves| && DoneFor(moves[i], k)) ==> exists i :: 0 <= i < |moves[1..]| && DoneFor(moves[1..][i], k) by {
        if i :| 0 <= i < |moves| && DoneFor(moves[i], k) {
          assert moves[1..][i - 1] == moves[i];
        }
      }
    }
  }
}
