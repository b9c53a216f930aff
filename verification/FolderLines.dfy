/** What one journal line writes (bin/harvester-folders.py, run_lines and replay_folder_line). */
module FolderLines {
  import opened Wrappers
  import opened FolderPaths
  import opened FolderTree
  import opened FolderRuns

  /** What writing an object does: accepted, kept by a transient domain, refused, or failed (perhaps after taking effect). */
  datatype Writing = Accepted | Transient | Denied | Broken(applied: bool)

  /** An object of the request and how the outside answers for it during one run. */
  datatype Access = Access(write: bool, readable: bool, writing: Writing)
  type Env = map<Key, Access>

  // --- one line ----------------------------------------------------------------

  /** The first half: under the parent of the target path, which must exist. */
  ghost function MoveUnder(t: Tree, id: Id, cur: Path, above: Path): Result<Tree, Error> {
    if above != [] && IdOf(t, above).None? then Err(NotFound)
    else if Parent(cur) == above then Ok(t)
    else Move(t, id, if above == [] then None else IdOf(t, above))
  }

  /** The second half: the last name of the target path. */
  ghost function RenameTo(t: Tree, id: Id, cur: Path, name: string): Result<Tree, Error> {
    if Last(cur) == name then Ok(t) else Rename(t, id, name)
  }

  /** The trees committed by two steps, each done or refused, each changing something or not. */
  function TwoSteps(first: Result<Tree, Error>, second: Result<Tree, Error>, firstChanges: bool, secondChanges: bool): (r: (seq<Tree>, Status))
    ensures |r.0| <= 2 && r.1 in {Done, Failed}
  {
    match first
    case Err(_) => ([], Failed)
    case Ok(t1) =>
      var trees := if firstChanges then [t1] else [];
      match second
      case Err(_) => (trees, Failed)
      case Ok(t2) => (trees + (if secondChanges then [t2] else []), Done)
  }

  /** The move, then the renaming, that take a folder from `cur` to `dest`: the trees committed, and the status. */
  ghost function Relocate(t: Tree, id: Id, cur: Path, dest: Path): (r: (seq<Tree>, Status))
    ensures |r.0| <= 2 && r.1 in {Done, Failed}
  {
    var moved := MoveUnder(t, id, cur, Parent(dest));
    var renamed := if moved.Ok? then RenameTo(moved.value, id, cur, Last(dest)) else moved;
    TwoSteps(moved, renamed, Parent(cur) != Parent(dest), Last(cur) != Last(dest))
  }

  /** `replay_folder_line`: the trees it commits, and the status it ends with. */
  ghost function ReplayFolder(t: Tree, filed: set<Path>, id: Id, from: Option<Path>, to: Option<Path>): (r: (seq<Tree>, Status))
    ensures |r.0| <= 2 && r.1 in {Done, Failed}
  {
    var cur := PathOf(t, id);
    match to
    case None =>
      if cur.None? then ([], Done)
      else if cur != from then ([], Failed)
      else
        (match DeleteEmpty(t, filed, id)
         case Err(_) => ([], Failed)
         case Ok(t') => ([t'], Done))
    case Some(dest) =>
      if cur == to then ([], Done)
      else if cur != from || cur.None? || dest == [] then ([], Failed)
      else
        Relocate(t, id, cur.value, dest)
  }

  function Retrees(ts: seq<Tree>): (es: seq<Effect>)
    ensures |es| == |ts|
    ensures forall j :: 0 <= j < |es| ==> es[j] == Retree(ts[j])
  {
    seq(|ts|, j requires 0 <= j < |ts| => Retree(ts[j]))
  }

  /** The filing kept in the console only, unless the object carries its folder. */
  function ConsoleEffects(w: World, i: nat, key: Key, to: Option<Path>): seq<Effect> {
    if Cached(w, key).Some? && w.cache[key].source == OnObject then [Mark(i, Failed)]
    else [File(key, to, ConsoleOnly), Mark(i, Done)]
  }

  /** One object line of `run_lines`. */
  function ObjectEffects(w: World, i: nat, m: Line, env: Env, strict: bool): seq<Effect>
    requires m.what.ObjectRow?
  {
    var key := m.what.key;
    if key !in env then [Mark(i, Failed)]
    else if !env[key].write then ConsoleEffects(w, i, key, m.to)
    else if !env[key].readable then [Mark(i, Failed)]
    else
      var before := Value(w, key);
      if strict && before != m.from && before != m.to then [Mark(i, Failed)]
      else
        var note := if before != m.from then [SetFrom(i, before)] else [];
        match env[key].writing
        case Accepted => note + [Carry(key, m.to), File(key, m.to, OnObject), Mark(i, Done)]
        case Transient => note + [Carry(key, m.to), File(key, m.to, ConsoleOnly), Mark(i, Done)]
        case Denied => note + ConsoleEffects(w, i, key, m.to)
        case Broken(applied) => note + (if applied then [Carry(key, m.to)] else []) + [Mark(i, Failed)]
  }

  ghost function LineEffects(w: World, i: nat, env: Env, strict: bool): seq<Effect> {
    if i >= |w.journal| then [] else
    var m := w.journal[i];
    match m.what
    case ObjectRow(_) => ObjectEffects(w, i, m, env, strict)
    case FolderRow(id) =>
      var (trees, status) := ReplayFolder(w.tree, Filed(w), id, m.from, m.to);
      Retrees(trees) + [Mark(i, status)]
  }

  /** The lines of `run_lines` for this request: `strict` for undo and resume. */
  ghost function Lines(env: Env, strict: bool): Script {
    (w: World, i: nat) => LineEffects(w, i, env, strict)
  }

  lemma {:induction false} LinesLocal(env: Env, strict: bool)
    ensures Local(Lines(env, strict))
  {
    forall w: World, i: nat, e: Effect | i < |w.journal| && e in Lines(env, strict)(w, i)
      ensures Concerns(e, i, w.journal[i].what)
    {
      LineConcerns(w, i, env, strict);
    }
  }

  lemma {:induction false} LineConcerns(w: World, i: nat, env: Env, strict: bool)
    requires i < |w.journal|
    ensures forall e :: e in LineEffects(w, i, env, strict) ==> Concerns(e, i, w.journal[i].what)
  {
  }
}
