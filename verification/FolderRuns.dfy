/**
 * Worlds, writes and runs (bin/harvester-folders.py, bin/lib/folders_db.py).
 * A run goes through journal lines in order; each line commits a short list
 * of writes, one transaction each. A run interrupted between two writes is a
 * prefix of the list of all its writes. Nothing here depends on what a line
 * writes: that is a script, a parameter.
 */
module FolderRuns {
  import opened Wrappers
  import opened FolderPaths
  import opened FolderTree

  type Key = string

  /** Who holds a filing: the object itself, or the console alone. */
  datatype Source = OnObject | ConsoleOnly
  datatype Entry = Entry(path: Path, source: Source)

  datatype Target = FolderRow(id: Id) | ObjectRow(key: Key)
  datatype Status = Pending | Done | Failed | Skipped

  /** One row of `moves`; its `seq` is its index in the action's journal. */
  datatype Line = Line(what: Target, from: Option<Path>, to: Option<Path>, status: Status)

  /** Tree, cache of filings, value carried by each object, journal of the action. */
  datatype World = World(tree: Tree, nextId: Id, cache: map<Key, Entry>, objects: map<Key, Path>, journal: seq<Line>)

  function Put<V>(m: map<Key, V>, k: Key, v: Option<V>): map<Key, V> {
    if v.None? then m - {k} else m[k := v.value]
  }

  function Value(w: World, k: Key): Option<Path> {
    if k in w.objects then Some(w.objects[k]) else None
  }

  function Cached(w: World, k: Key): Option<Entry> {
    if k in w.cache then Some(w.cache[k]) else None
  }

  function CachedPath(w: World, k: Key): Option<Path> {
    if k in w.cache then Some(w.cache[k].path) else None
  }

  function Filed(w: World): set<Path> {
    set k | k in w.cache :: w.cache[k].path
  }

  // --- writes ----------------------------------------------------------------

  datatype Effect =
    | SetFrom(at: nat, from: Option<Path>)
    | Carry(key: Key, value: Option<Path>)
    | File(key: Key, path: Option<Path>, source: Source)
    | Retree(tree: Tree)
    | Mark(at: nat, status: Status)

  function Apply(w: World, e: Effect): (r: World)
    ensures |r.journal| == |w.journal| && r.nextId == w.nextId
  {
    match e
    case SetFrom(at, from) =>
      if at < |w.journal| then w.(journal := w.journal[at := w.journal[at].(from := from)]) else w
    case Carry(key, value) => w.(objects := Put(w.objects, key, value))
    case File(key, path, source) =>
      w.(cache := Put(w.cache, key, if path.None? then None else Some(Entry(path.value, source))))
    case Retree(tree) => w.(tree := tree)
    case Mark(at, status) =>
      if at < |w.journal| then w.(journal := w.journal[at := w.journal[at].(status := status)]) else w
  }

  function ApplyAll(w: World, es: seq<Effect>): (r: World)
    ensures |r.journal| == |w.journal| && r.nextId == w.nextId
    decreases |es|
  {
    if es == [] then w else ApplyAll(Apply(w, es[0]), es[1..])
  }

  lemma {:induction false} ApplyAppend(w: World, a: seq<Effect>, b: seq<Effect>)
    ensures ApplyAll(w, a + b) == ApplyAll(ApplyAll(w, a), b)
    decreases |a|
  {
    if a == [] {
      assert a + b == b;
    } else {
      assert (a + b)[1..] == a[1..] + b;
      ApplyAppend(Apply(w, a[0]), a[1..], b);
    }
  }

  /** What each line commits, from the world it starts in. */
  type Script = (World, nat) -> seq<Effect>

  ghost function Step(w: World, i: nat, line: Script): (s: World)
    ensures |s.journal| == |w.journal| && s.nextId == w.nextId
  {
    ApplyAll(w, line(w, i))
  }

  // --- runs ----------------------------------------------------------------

  ghost predicate Runnable(w: World, todo: seq<nat>) {
    forall i :: i in todo ==> i < |w.journal|
  }

  predicate Tail(todo: seq<nat>)
    requires todo != []
  {
    todo[0] in todo && forall i :: i in todo[1..] ==> i in todo
  }

  /** `run_lines` over the given lines, in order. */
  ghost function Run(w: World, todo: seq<nat>, line: Script): (r: World)
    requires Runnable(w, todo)
    ensures |r.journal| == |w.journal| && r.nextId == w.nextId
    decreases |todo|
  {
    if todo == [] then w
    else
      assert Tail(todo);
      Run(Step(w, todo[0], line), todo[1..], line)
  }

  /** Every write of a run, in order. */
  ghost function RunEffects(w: World, todo: seq<nat>, line: Script): seq<Effect>
    requires Runnable(w, todo)
    decreases |todo|
  {
    if todo == [] then []
    else
      assert Tail(todo);
      line(w, todo[0]) + RunEffects(Step(w, todo[0], line), todo[1..], line)
  }

  lemma {:induction false} RunIsItsEffects(w: World, todo: seq<nat>, line: Script)
    requires Runnable(w, todo)
    ensures Run(w, todo, line) == ApplyAll(w, RunEffects(w, todo, line))
    decreases |todo|
  {
    if todo == [] {
    } else {
      assert Tail(todo);
      var s := Step(w, todo[0], line);
      RunIsItsEffects(s, todo[1..], line);
      ApplyAppend(w, line(w, todo[0]), RunEffects(s, todo[1..], line));
    }
  }

  lemma {:induction false} RunAppend(w: World, a: seq<nat>, b: seq<nat>, line: Script)
    requires Runnable(w, a) && Runnable(w, b)
    ensures Runnable(Run(w, a, line), b)
    ensures Runnable(w, a + b)
    ensures Run(w, a + b, line) == Run(Run(w, a, line), b, line)
    decreases |a|
  {
    if a == [] {
      assert a + b == b;
    } else {
      assert Tail(a);
      assert (a + b)[1..] == a[1..] + b && (a + b)[0] == a[0];
      RunAppend(Step(w, a[0], line), a[1..], b, line);
    }
  }

  // --- what a line leaves alone ---------------------------------------------------

  /** No object has two lines. */
  ghost predicate DistinctKeys(journal: seq<Line>) {
    forall a, b :: 0 <= a < b < |journal| && journal[a].what.ObjectRow? ==> journal[a].what != journal[b].what
  }

  /** Line `i` and, when it is an object line, its filing and value are the same in both worlds. */
  ghost predicate SameAt(u: World, w: World, i: nat) {
    && |u.journal| == |w.journal| && i < |w.journal|
    && u.journal[i] == w.journal[i]
    && (w.journal[i].what.ObjectRow? ==>
          var key := w.journal[i].what.key; Cached(u, key) == Cached(w, key) && Value(u, key) == Value(w, key))
  }

  /** The lines of a journal keep what they are about. */
  ghost predicate SameLines(u: World, w: World) {
    && |u.journal| == |w.journal|
    && forall i :: 0 <= i < |w.journal| ==> u.journal[i].what == w.journal[i].what && u.journal[i].to == w.journal[i].to
  }

  /** An effect of line `i` touches that line, that line's object, or the tree. */
  ghost predicate Concerns(e: Effect, i: nat, what: Target) {
    match e
    case SetFrom(at, _) => at == i
    case Mark(at, _) => at == i
    case Carry(key, _) => what == ObjectRow(key)
    case File(key, _, _) => what == ObjectRow(key)
    case Retree(_) => what.FolderRow?
  }

  /** From `w` to `s` only line `i` and what it is about may have changed. */
  ghost predicate Framed(s: World, w: World, i: nat) {
    && i < |w.journal| && SameLines(s, w)
    && (forall j :: 0 <= j < |w.journal| && j != i ==> s.journal[j] == w.journal[j])
    && (forall k {:trigger Cached(s, k)} {:trigger Value(s, k)} :: w.journal[i].what != ObjectRow(k) ==>
          Cached(s, k) == Cached(w, k) && Value(s, k) == Value(w, k))
    && (w.journal[i].what.ObjectRow? ==> s.tree == w.tree)
    && (w.journal[i].what.FolderRow? ==> s.cache == w.cache && s.objects == w.objects)
  }

  lemma {:induction false} ApplyFrame(w: World, e: Effect, i: nat)
    requires i < |w.journal| && Concerns(e, i, w.journal[i].what)
    ensures Framed(Apply(w, e), w, i)
  {
  }

  lemma {:induction false} ApplyAllFrame(w: World, es: seq<Effect>, i: nat)
    requires i < |w.journal|
    requires forall e :: e in es ==> Concerns(e, i, w.journal[i].what)
    ensures Framed(ApplyAll(w, es), w, i)
    decreases |es|
  {
    if es == [] {
    } else {
      assert es[0] in es;
      assert forall e :: e in es[1..] ==> e in es;
      ApplyFrame(w, es[0], i);
      ApplyAllFrame(Apply(w, es[0]), es[1..], i);
    }
  }

  /** A line only touches itself, its object, or the tree for a folder line. */
  ghost predicate Local(line: Script) {
    forall w: World, i: nat, e :: i < |w.journal| && e in line(w, i) ==> Concerns(e, i, w.journal[i].what)
  }

  lemma {:induction false} StepFrame(w: World, i: nat, line: Script)
    requires Local(line) && i < |w.journal|
    ensures Framed(Step(w, i, line), w, i)
  {
    ApplyAllFrame(w, line(w, i), i);
  }

  lemma {:induction false} StepKeepsAt(w: World, i: nat, j: nat, line: Script)
    requires Local(line) && DistinctKeys(w.journal) && i < |w.journal| && j < |w.journal| && i != j
    ensures SameAt(Step(w, i, line), w, j) && DistinctKeys(Step(w, i, line).journal)
  {
    StepFrame(w, i, line);
    if w.journal[j].what.ObjectRow? {
      assert w.journal[i].what != w.journal[j].what;
    }
  }

  /** A run leaves the lines it does not hold, and their objects, as they are. */
  lemma {:induction false} RunKeepsAt(w: World, todo: seq<nat>, j: nat, line: Script)
    requires Local(line) && Runnable(w, todo) && DistinctKeys(w.journal) && j < |w.journal| && j !in todo
    ensures SameAt(Run(w, todo, line), w, j)
    decreases |todo|
  {
    if todo == [] {
    } else {
      assert Tail(todo);
      StepKeepsAt(w, todo[0], j, line);
      RunKeepsAt(Step(w, todo[0], line), todo[1..], j, line);
    }
  }

  lemma {:induction false} RunKeepsLines(w: World, todo: seq<nat>, line: Script)
    requires Local(line) && Runnable(w, todo)
    ensures SameLines(Run(w, todo, line), w)
    ensures DistinctKeys(w.journal) ==> DistinctKeys(Run(w, todo, line).journal)
    decreases |todo|
  {
    if todo == [] {
    } else {
      assert Tail(todo);
      StepFrame(w, todo[0], line);
      RunKeepsLines(Step(w, todo[0], line), todo[1..], line);
    }
  }

  ghost predicate Distinct(todo: seq<nat>) {
    forall a, b :: 0 <= a < b < |todo| ==> todo[a] != todo[b]
  }

  /** Around line `todo[p]`: the run reaches it with that line untouched and never comes back to it. */
  lemma {:induction false} RunThroughLine(w: World, todo: seq<nat>, p: nat, line: Script)
    requires Local(line) && Runnable(w, todo) && Distinct(todo) && DistinctKeys(w.journal) && p < |todo|
    ensures todo[p] in todo && todo[p] < |w.journal| && Runnable(w, todo[..p])
    ensures var u := Run(w, todo[..p], line);
      && SameAt(u, w, todo[p])
      && SameAt(Run(w, todo, line), Step(u, todo[p], line), todo[p])
    decreases |todo|
  {
    assert Tail(todo) && todo[p] in todo;
    assert forall x :: x in todo[..p] ==> x in todo;
    var s := Step(w, todo[0], line);
    if p == 0 {
      assert todo[..p] == [] && Run(w, [], line) == w;
      StepFrame(w, todo[0], line);
      assert todo[0] !in todo[1..];
      RunKeepsAt(s, todo[1..], todo[0], line);
    } else {
      StepKeepsAt(w, todo[0], todo[p], line);
      assert todo[1..][..p - 1] == todo[..p][1..];
      RunThroughLine(s, todo[1..], p - 1, line);
    }
  }

  lemma {:induction false} IndexOf(todo: seq<nat>, i: nat) returns (p: nat)
    requires i in todo
    ensures p < |todo| && todo[p] == i
  {
    p :| p < |todo| && todo[p] == i;
  }

  lemma {:induction false} ApplyOne(w: World, a: Effect)
    ensures ApplyAll(w, [a]) == Apply(w, a)
  {
    assert [a][1..] == [];
  }

  lemma {:induction false} ApplyTwo(w: World, a: Effect, b: Effect)
    ensures ApplyAll(w, [a, b]) == Apply(Apply(w, a), b)
  {
    assert [a, b][1..] == [b];
    ApplyOne(Apply(w, a), b);
  }

  lemma {:induction false} ApplyThree(w: World, a: Effect, b: Effect, c: Effect)
    ensures ApplyAll(w, [a, b, c]) == Apply(Apply(Apply(w, a), b), c)
  {
    assert [a, b, c][1..] == [b, c];
    ApplyTwo(Apply(w, a), b, c);
  }

  /** The indices from `lo` up to `hi`, in order. */
  function Range(lo: nat, hi: nat): (s: seq<nat>)
    requires lo <= hi
    ensures |s| == hi - lo && forall i :: 0 <= i < |s| ==> s[i] == lo + i
    ensures forall i :: i in s <==> lo <= i < hi
    ensures Distinct(s)
    decreases hi - lo
  {
    if lo == hi then [] else [lo] + Range(lo + 1, hi)
  }

  lemma {:induction false} RangeSplit(lo: nat, mid: nat, hi: nat)
    requires lo <= mid <= hi
    ensures Range(lo, hi) == Range(lo, mid) + Range(mid, hi)
    ensures Range(lo, hi)[..mid - lo] == Range(lo, mid)
  {
  }

  ghost predicate AllDone(w: World) {
    forall i :: 0 <= i < |w.journal| ==> w.journal[i].status == Done
  }

  lemma {:induction false} CutAt(w: World, first: seq<Effect>, rest: seq<Effect>, k: nat)
    requires k <= |first| + |rest|
    ensures k < |first| ==> (first + rest)[..k] == first[..k]
    ensures k >= |first| ==> ApplyAll(w, (first + rest)[..k]) == ApplyAll(ApplyAll(w, first), rest[..k - |first|])
  {
    if k >= |first| {
      assert (first + rest)[..k] == first + rest[..k - |first|];
      ApplyAppend(w, first, rest[..k - |first|]);
    }
  }

  /** The world of a run cut inside its line `p`, after `j` writes of that line. */
  ghost function CutWorld(w: World, todo: seq<nat>, line: Script, p: nat, j: nat): World
    requires Runnable(w, todo) && p < |todo|
    decreases |todo|
  {
    assert Tail(todo);
    if p == 0 then
      var es := line(w, todo[0]);
      ApplyAll(w, if j <= |es| then es[..j] else es)
    else CutWorld(Step(w, todo[0], line), todo[1..], line, p - 1, j)
  }

  lemma {:induction false} CutWorldIs(w: World, todo: seq<nat>, line: Script, p: nat, j: nat)
    requires Runnable(w, todo) && p < |todo|
    ensures todo[p] in todo && todo[p] < |w.journal| && Runnable(w, todo[..p])
    ensures var u := Run(w, todo[..p], line);
      j <= |line(u, todo[p])| ==>
        CutWorld(w, todo, line, p, j) == ApplyAll(u, line(u, todo[p])[..j])
    decreases |todo|
  {
    assert Tail(todo) && todo[p] in todo;
    assert forall i :: i in todo[..p] ==> i in todo;
    if p == 0 {
      assert todo[..p] == [];
    } else {
      assert todo[..p][0] == todo[0] && todo[..p][1..] == todo[1..][..p - 1];
      CutWorldIs(Step(w, todo[0], line), todo[1..], line, p - 1, j);
    }
  }

  /** A cut run stopped inside one line, all before it finished. */
  lemma {:induction false} CutInsideALine(w: World, todo: seq<nat>, line: Script, k: nat) returns (p: nat, j: nat)
    requires Runnable(w, todo) && k <= |RunEffects(w, todo, line)|
    ensures p <= |todo|
    ensures var x := ApplyAll(w, RunEffects(w, todo, line)[..k]);
      if p == |todo| then x == Run(w, todo, line) else x == CutWorld(w, todo, line, p, j)
    ensures p < |todo| ==> todo[p] in todo && Runnable(w, todo[..p])
    ensures p < |todo| ==> j < |line(Run(w, todo[..p], line), todo[p])|
    decreases |todo|
  {
    if todo == [] {
      p, j := 0, 0;
    } else {
      assert Tail(todo);
      var first, s := line(w, todo[0]), Step(w, todo[0], line);
      CutAt(w, first, RunEffects(s, todo[1..], line), k);
      if k < |first| {
        p, j := 0, k;
        assert todo[..0] == [];
      } else {
        p, j := CutInsideALine(s, todo[1..], line, k - |first|);
        p := p + 1;
        if p < |todo| {
          CutWorldIs(w, todo, line, p, j);
          assert todo[..p][0] == todo[0] && todo[..p][1..] == todo[1..][..p - 1];
        }
      }
    }
  }

  /** Every such cut is reached after some number of writes. */
  lemma {:induction false} CutIsReached(w: World, todo: seq<nat>, line: Script, p: nat, j: nat) returns (k: nat)
    requires Runnable(w, todo) && p < |todo|
    ensures k <= |RunEffects(w, todo, line)|
    ensures ApplyAll(w, RunEffects(w, todo, line)[..k]) == CutWorld(w, todo, line, p, j)
    decreases |todo|
  {
    assert Tail(todo);
    var first, s := line(w, todo[0]), Step(w, todo[0], line);
    if p == 0 {
      k := if j <= |first| then j else |first|;
      assert RunEffects(w, todo, line)[..k] == first[..k];
      assert first[..|first|] == first;
    } else {
      k := CutIsReached(s, todo[1..], line, p - 1, j);
      k := |first| + k;
      CutAt(w, first, RunEffects(s, todo[1..], line), k);
    }
  }

  /** Half way through a run whose lines all end done: the first `p` are done, the others untouched. */
  lemma {:induction false} HalfWay(w: World, line: Script, p: nat)
    requires Local(line) && DistinctKeys(w.journal) && AllDone(Run(w, Range(0, |w.journal|), line)) && p <= |w.journal|
    ensures var u := Run(w, Range(0, p), line);
      && DistinctKeys(u.journal)
      && (forall i :: 0 <= i < p ==> u.journal[i].status == Done)
      && (forall i :: p <= i < |w.journal| ==> SameAt(u, w, i))
      && (p < |w.journal| ==> Step(u, p, line).journal[p].status == Done)
  {
    var n := |w.journal|;
    var a, b := Range(0, p), Range(p, n);
    var u := Run(w, a, line);
    RangeSplit(0, p, n);
    RunAppend(w, a, b, line);
    RunKeepsLines(w, a, line);
    forall i | 0 <= i < p
      ensures u.journal[i].status == Done
    {
      RunKeepsAt(u, b, i, line);
    }
    forall i | p <= i < n
      ensures SameAt(u, w, i)
    {
      RunKeepsAt(w, a, i, line);
    }
    if p < n {
      RunThroughLine(w, Range(0, n), p, line);
    }
  }

  // --- two runs side by side ---------------------------------------------------------

  ghost predicate SameStores(r: World, w: World) {
    r.tree == w.tree && r.cache == w.cache && r.objects == w.objects
  }

  /** Equal but for the `from` of lines up to `c`. */
  ghost predicate Alike(y: World, v: World, c: nat) {
    && SameStores(y, v)
    && |y.journal| == |v.journal| && c < |v.journal|
    && (forall i :: c < i < |v.journal| ==> y.journal[i] == v.journal[i])
    && (forall i :: 0 <= i <= c ==> y.journal[i].status == v.journal[i].status)
  }

  lemma {:induction false} AlikeTrans(a: World, b: World, c: World, first: nat, second: nat)
    requires Alike(a, b, first) && Alike(b, c, second)
    ensures Alike(a, c, if first <= second then second else first)
  {
  }

  lemma {:induction false} FramedAlike(y: World, x: World, v: World, u: World, p: nat)
    requires Framed(y, x, p) && Framed(v, u, p) && SameStores(y, v)
    requires |x.journal| == |u.journal| && forall i :: 0 <= i < |u.journal| && i != p ==> x.journal[i] == u.journal[i]
    requires y.journal[p].status == v.journal[p].status
    ensures Alike(y, v, p)
  {
  }

  lemma {:induction false} ApplyAllAlike(y: World, v: World, es: seq<Effect>, c: nat, i: nat, what: Target)
    requires Alike(y, v, c) && i > c && forall e :: e in es ==> Concerns(e, i, what)
    ensures Alike(ApplyAll(y, es), ApplyAll(v, es), c)
    decreases |es|
  {
    if es == [] {
    } else {
      assert es[0] in es;
      assert forall e :: e in es[1..] ==> e in es;
      assert Alike(Apply(y, es[0]), Apply(v, es[0]), c);
      ApplyAllAlike(Apply(y, es[0]), Apply(v, es[0]), es[1..], c, i, what);
    }
  }

  /** A condition on a line that depends on nothing but that line and its object. */
  ghost predicate Stable(ready: (World, nat) -> bool) {
    forall u: World, w: World, i: nat :: SameAt(u, w, i) && ready(w, i) ==> ready(u, i)
  }

  /** Where `ready` holds, the two scripts write the same. */
  ghost predicate Mimics(other: Script, line: Script, ready: (World, nat) -> bool) {
    forall y: World, v: World, c: nat, i: nat :: Alike(y, v, c) && c < i < |v.journal| && ready(v, i) ==> other(y, i) == line(v, i)
  }

  lemma {:induction false} RunAlike(y: World, v: World, todo: seq<nat>, c: nat, other: Script, line: Script, ready: (World, nat) -> bool)
    requires Local(line) && Stable(ready) && Mimics(other, line, ready)
    requires Alike(y, v, c) && Runnable(v, todo) && Distinct(todo) && DistinctKeys(v.journal)
    requires forall i :: i in todo ==> c < i && ready(v, i)
    ensures Alike(Run(y, todo, other), Run(v, todo, line), c)
    decreases |todo|
  {
    if todo == [] {
    } else {
      assert Tail(todo);
      var i := todo[0];
      var v' := Step(v, i, line);
      assert other(y, i) == line(v, i);
      ApplyAllAlike(y, v, line(v, i), c, i, v.journal[i].what);
      forall j | j in todo[1..]
        ensures ready(v', j)
      {
        StepKeepsAt(v, i, j, line);
      }
      RunKeepsLines(v, [i], line);
      assert Run(v, [i], line) == v';
      RunAlike(Step(y, i, other), v', todo[1..], c, other, line, ready);
    }
  }

  lemma {:induction false} RunFirst(x: World, line: Script, p: nat, hi: nat)
    requires p < hi <= |x.journal|
    ensures Run(x, Range(p, hi), line) == Run(Step(x, p, line), Range(p + 1, hi), line)
  {
    assert Range(p, hi)[1..] == Range(p + 1, hi) && Tail(Range(p, hi));
  }

  lemma {:induction false} RunThenStep(w: World, todo: seq<nat>, i: nat, line: Script)
    requires Runnable(w, todo) && i < |w.journal|
    ensures i < |Run(w, todo, line).journal| && Runnable(w, todo + [i])
    ensures Run(w, todo + [i], line) == Step(Run(w, todo, line), i, line)
  {
    RunAppend(w, todo, [i], line);
    var u := Run(w, todo, line);
    assert Run(u, [i], line) == Run(Step(u, i, line), [i][1..], line);
  }

  lemma {:induction false} RunExtends(w: World, todo: seq<nat>, p: nat, line: Script)
    requires Runnable(w, todo) && p < |todo|
    ensures todo[p] in todo && todo[p] < |w.journal| && Runnable(w, todo[..p]) && Runnable(w, todo[..p + 1])
    ensures Run(w, todo[..p + 1], line) == Step(Run(w, todo[..p], line), todo[p], line)
  {
    assert todo[p] in todo && forall i :: i in todo[..p] ==> i in todo;
    assert todo[..p + 1] == todo[..p] + [todo[p]];
    RunThenStep(w, todo[..p], todo[p], line);
  }

  lemma {:induction false} RunOneMore(w: World, line: Script, n: nat)
    requires n < |w.journal|
    ensures Run(w, Range(0, n + 1), line) == Step(Run(w, Range(0, n), line), n, line)
  {
    RangeSplit(0, n, n + 1);
    assert Range(n, n + 1) == [n];
    RunThenStep(w, Range(0, n), n, line);
  }

  lemma {:induction false} RunFromLine(w: World, line: Script, p: nat, hi: nat)
    requires p < hi <= |w.journal|
    ensures Run(w, Range(0, hi), line) == Run(Step(Run(w, Range(0, p), line), p, line), Range(p + 1, hi), line)
  {
    RangeSplit(0, p, hi);
    RunAppend(w, Range(0, p), Range(p, hi), line);
    RunFirst(Run(w, Range(0, p), line), line, p, hi);
  }

  /** Two runs alike after line `p` stay alike as far as they go. */
  lemma {:induction false} RunSuffixAlike(w: World, u: World, x: World, p: nat, hi: nat, other: Script, line: Script, ready: (World, nat) -> bool)
    requires Local(line) && Stable(ready) && Mimics(other, line, ready)
    requires p < hi <= |w.journal| == |x.journal| && DistinctKeys(u.journal)
    requires u == Run(w, Range(0, p), line)
    requires Alike(Step(x, p, other), Step(u, p, line), p)
    requires forall i :: p < i < hi ==> ready(u, i)
    ensures Alike(Run(x, Range(p, hi), other), Run(w, Range(0, hi), line), p)
  {
    RunFromLine(w, line, p, hi);
    RunFirst(x, other, p, hi);
    forall i | p < i < hi
      ensures ready(Step(u, p, line), i)
    {
      StepKeepsAt(u, p, i, line);
    }
    RunKeepsLines(u, [p], line);
    assert Run(u, [p], line) == Step(u, p, line);
    RunAlike(Step(x, p, other), Step(u, p, line), Range(p + 1, hi), p, other, line, ready);
  }
}
