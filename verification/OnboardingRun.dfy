/**
 * The onboarding run (web/baremetal_onboarding_runtime.py: patch, cordon,
 * guard, finish). The node changes under it: between any two calls the
 * promotion controller and other writers may have written it, deleted it or
 * registered another one; each write gives the node a version never used.
 */
module OnboardingRun {
  import opened Wrappers
  import opened OnboardingGuard
  import opened StorageCards

  const PATCH_ATTEMPTS := 5
  const POLL_SECONDS := 5
  const READINESS_TIMEOUT := 1800
  const CALL_SECONDS := 25   // every call has a timeout, of 25 seconds at most
  const TURN_CALLS := 15

  /** How a patch is answered: the object, a refusal for the user, another error exit, or nothing that can be read in time. */
  datatype Reply = Answered | Refused | Errored | Lost

  /**
   * One write of the console that took effect: the snapshot that called for it,
   * the one it was made from, the node just before and just after, and how it
   * was answered.
   */
  datatype Write = Write(cause: Node, seen: Node, before: Node, after: Node, reply: Reply)

  /**
   * What the outside does at each call: the node it leaves, how long it takes,
   * whether a read succeeds, how a patch is answered (an error exit or a lost
   * answer says nothing of whether it took effect), and the other inventories.
   */
  datatype Outside = Outside(
    drift: (nat, Option<Node>) -> Option<Node>, took: nat -> nat, readable: nat -> bool,
    reply: nat -> Reply, applied: nat -> bool, cancelled: nat -> bool,
    links: nat -> seq<Link>, configs: nat -> Option<seq<Config>>, disks: nat -> seq<StorageDisk>, pods: nat -> Option<seq<Pod>>)

  /** What the job was started for. */
  datatype Job = Job(installId: string, native: bool, profile: string, csi: Option<Csi>, ports: seq<Port>)

  /** Why a job stops: the node or the answer at these calls. */
  datatype Stop =
    | Foreign(n: Node)
    | PatchRefused(call: nat)
    | PatchLost(call: nat)
    | PatchRepeated(since: nat)
    | PromotionEnded(n: Node)
    | Uncordoned(n: Node)
    | CardMissing(links: nat)
    | CardTaken(n: Node, links: nat, configs: nat)
    | Cancelled(call: nat)

  /** Why it takes another turn. */
  datatype Wait =
    | NodeUnread(call: nat)
    | NativePending(n: Node)
    | Promoting(n: Node)
    | CardsUnlisted(links: nat)
    | ConfigsUnread(configs: nat)
    | PodsUnread(pods: nat)
    | NotReady(n: Node, disks: nat, pods: nat)

  /** The node that others leave during a call: another state has a version that was not given yet. */
  ghost function Left(outside: Outside, calls: nat, node: Option<Node>, revision: nat): Option<Node> {
    match outside.drift(calls, node)
    case None => None
    case Some(n) => if node == Some(n) then node else Some(n.(version := revision + 1))
  }

  ghost function Took(outside: Outside, calls: nat): nat {
    if outside.took(calls) < 25 then outside.took(calls) else 25
  }

  datatype Cordoning = Written(node: Node) | NotRead | Stopped(why: Stop)
  datatype Round = Again(wait: Wait) | GiveUp(why: Stop) | Joined(node: Node)
  datatype Cards = AllPlaced | NotListed(wait: Wait) | Misplaced(why: Stop)
  datatype Verdict = Later(wait: Wait) | Fail(why: Stop) | Passed(node: Node, disks: seq<StorageDisk>, pods: seq<Pod>)
  datatype Outcome = Ready(node: Node, disks: seq<StorageDisk>, pods: seq<Pod>) | Failed(why: Stop) | TimedOut

  /** A promotion that neither runs nor is complete was given up. */
  predicate GivenUp(n: Node) {
    n.promote.Some? && n.promote != Some(RUNNING) && n.promote != Some(COMPLETE)
  }

  /** Nothing is written for a state whose promotion runs or was given up. */
  ghost predicate Checked(w: Write, installId: string) {
    && w.before == w.seen && w.before.installId == Some(installId) && w.cause.version <= w.seen.version
    && w.after == Guarded(w.before).(version := w.after.version)
    && w.cause.promote != Some(RUNNING) && !GivenUp(w.cause)
  }

  /** The writes that were not answered by an error exit: the run knows of them, or stops. */
  ghost function Known(writes: seq<Write>): (known: seq<Write>)
    ensures |known| <= |writes| && forall w :: w in known ==> w in writes
    ensures (forall w :: w in writes ==> !w.reply.Errored?) ==> known == writes
  {
    if writes == [] then []
    else
      var n := |writes| - 1;
      assert writes == writes[..n] + [writes[n]];
      Known(writes[..n]) + (if writes[n].reply.Errored? then [] else [writes[n]])
  }

  /** `cause` is a state, later than `a`, where a promotion that was not complete then is, and has lifted the cordon. */
  ghost predicate Lifts(a: Write, cause: Node) {
    && a.after.promote != Some(COMPLETE)
    && cause.promote == Some(COMPLETE) && !Cordoned(cause)
    && a.after.version < cause.version
  }

  ghost predicate Follows(known: seq<Write>, cause: Node) {
    known == [] || (|known| == 1 && Lifts(known[0], cause))
  }

  /**
   * After a write the run knows of, it writes only for a promotion that
   * completed in between, and after a second one no more.
   */
  ghost predicate Measured(writes: seq<Write>) {
    forall j :: 0 <= j < |writes| ==> Follows(Known(writes[..j]), writes[j].cause)
  }

  lemma {:induction false} MeasuredBefore(writes: seq<Write>, n: nat)
    requires Measured(writes) && n <= |writes|
    ensures Measured(writes[..n])
  {
    hide Known, Follows;
    forall j | 0 <= j < n
      ensures Follows(Known(writes[..n][..j]), writes[..n][j].cause)
    {
      assert writes[..n][..j] == writes[..j];
    }
  }

  function Unanswered(writes: seq<Write>): nat {
    if writes == [] then 0
    else Unanswered(writes[..|writes| - 1]) + (if writes[|writes| - 1].reply.Errored? then 1 else 0)
  }

  /**
   * How many writes, exactly: those the run knows of, at most two, and one for
   * each error exit that had taken effect. At most two if none had.
   */
  lemma {:induction false} WritesCounted(writes: seq<Write>)
    requires Measured(writes)
    ensures |Known(writes)| <= 2 && |writes| == |Known(writes)| + Unanswered(writes)
    ensures |writes| <= 2 + Unanswered(writes)
  {
    if writes == [] {
    } else {
      var n := |writes| - 1;
      MeasuredBefore(writes, n);
      assert Follows(Known(writes[..n]), writes[n].cause);
      hide Measured;
      WritesCounted(writes[..n]);
    }
  }

  /** What a run remembers matches what it wrote. */
  ghost predicate Remembers(guarded: bool, promoteSeen: Option<string>, writes: seq<Write>, installId: string, native: bool) {
    && Careful(writes, installId, native)
    && (!native ==> (guarded <==> Known(writes) != []))
    && (|Known(writes)| == 1 ==> promoteSeen == Known(writes)[0].after.promote)
    && (|Known(writes)| >= 2 ==> promoteSeen == Some(COMPLETE))
  }

  /** All that may be said of a run's writes, even one that stopped with an uncertain write. */
  ghost predicate Careful(writes: seq<Write>, installId: string, native: bool) {
    && Measured(writes) && (forall w :: w in writes ==> Checked(w, installId))
    && (native ==> writes == [])
  }

  /** `more` is `writes` and checked writes called for by `cause`, all but perhaps the last answered by an error exit. */
  ghost predicate Adds(more: seq<Write>, writes: seq<Write>, cause: Node, installId: string) {
    && writes <= more
    && (forall i :: |writes| <= i < |more| ==> more[i].cause == cause && Checked(more[i], installId))
    && (forall i :: |writes| <= i < |more| - 1 ==> more[i].reply.Errored?)
  }

  lemma {:induction false} KnownLast(writes: seq<Write>, w: Write)
    ensures Known(writes + [w]) == Known(writes) + (if w.reply.Errored? then [] else [w])
  {
    assert (writes + [w])[..|writes|] == writes;
  }

  lemma {:induction false} KnownOfAdded(more: seq<Write>, writes: seq<Write>, cause: Node, installId: string, j: nat)
    requires Adds(more, writes, cause, installId) && |writes| <= j <= |more|
    ensures Known(more[..j]) == Known(writes) + (if j == |more| > |writes| && !more[j - 1].reply.Errored? then [more[j - 1]] else [])
    decreases j
  {
    hide Checked, Known;
    if j == |writes| {
      assert more[..j] == writes;
    } else {
      KnownOfAdded(more, writes, cause, installId, j - 1);
      assert more[..j] == more[..j - 1] + [more[j - 1]];
      KnownLast(more[..j - 1], more[j - 1]);
    }
  }

  lemma {:induction false} AddedMeasured(more: seq<Write>, writes: seq<Write>, cause: Node, installId: string)
    requires Measured(writes) && Adds(more, writes, cause, installId)
    requires Follows(Known(writes), cause)
    ensures Measured(more)
  {
    forall j | 0 <= j < |more|
      ensures Follows(Known(more[..j]), more[j].cause)
    {
      if j < |writes| {
        assert more[..j] == writes[..j] && more[j] == writes[j];
      } else {
        KnownOfAdded(more, writes, cause, installId, j);
      }
    }
  }

  lemma {:induction false} AddedChecked(more: seq<Write>, writes: seq<Write>, cause: Node, installId: string)
    requires Adds(more, writes, cause, installId) && forall w :: w in writes ==> Checked(w, installId)
    ensures forall w :: w in more ==> Checked(w, installId)
  {
    forall i | 0 <= i < |more|
      ensures Checked(more[i], installId)
    {
      if i < |writes| {
        assert more[i] == writes[i] && writes[i] in writes;
      }
    }
  }

  /** The last write added, if the run knows of it. */
  ghost predicate Ends(more: seq<Write>, writes: seq<Write>) {
    |more| > |writes| && !more[|more| - 1].reply.Errored?
  }

  lemma {:induction false} NothingAdded(writes: seq<Write>, cause: Node, installId: string)
    ensures Adds(writes, writes, cause, installId) && !Ends(writes, writes)
  {
  }

  /** Added to writes that were all hidden since, they are added to the whole. */
  lemma {:induction false} AddsOn(more: seq<Write>, mid: seq<Write>, writes: seq<Write>, cause: Node, installId: string)
    requires Adds(mid, writes, cause, installId) && !Ends(mid, writes) && Adds(more, mid, cause, installId)
    ensures Adds(more, writes, cause, installId)
    ensures Ends(more, mid) <==> Ends(more, writes)
  {
    hide Checked;
  }

  /** Writes called for by a state that follows what the run knows. */
  lemma {:induction false} AddedCareful(more: seq<Write>, writes: seq<Write>, cause: Node, installId: string)
    requires Careful(writes, installId, false) && Adds(more, writes, cause, installId) && Follows(Known(writes), cause)
    ensures Careful(more, installId, false)
    ensures Known(more) == if Ends(more, writes) then Known(writes) + [more[|more| - 1]] else Known(writes)
  {
    hide Measured, Checked, Known, Follows;
    assert more[..|more|] == more && |writes| <= |more|;
    KnownOfAdded(more, writes, cause, installId, |more|);
    AddedMeasured(more, writes, cause, installId);
    AddedChecked(more, writes, cause, installId);
  }

  lemma {:induction false} FirstWrites(more: seq<Write>, writes: seq<Write>, cause: Node, installId: string, seen: Option<string>)
    requires Remembers(false, seen, writes, installId, false) && Adds(more, writes, cause, installId)
    ensures Careful(more, installId, false)
    ensures !Ends(more, writes) ==> Remembers(false, seen, more, installId, false)
    ensures Ends(more, writes) ==> Remembers(true, more[|more| - 1].after.promote, more, installId, false)
  {
    hide Careful, Adds, Known;
    AddedCareful(more, writes, cause, installId);
  }

  lemma {:induction false} SecondWrites(more: seq<Write>, writes: seq<Write>, cause: Node, installId: string, seen: Option<string>)
    requires Remembers(true, seen, writes, installId, false) && Adds(more, writes, cause, installId)
    requires seen != Some(COMPLETE) && cause.promote == Some(COMPLETE) && !Cordoned(cause)
    requires forall i :: 0 <= i < |writes| ==> writes[i].after.version < cause.version
    ensures Careful(more, installId, false)
    ensures !Ends(more, writes) ==> Remembers(true, seen, more, installId, false)
    ensures Ends(more, writes) ==> Remembers(true, Some(COMPLETE), more, installId, false)
  {
    assert Known(writes)[0] in writes;
    hide Careful, Adds, Known;
    AddedCareful(more, writes, cause, installId);
  }

  lemma {:induction false} CheckedCordon(writes: seq<Write>, installId: string)
    requires forall w :: w in writes ==> Checked(w, installId)
    ensures forall i :: 0 <= i < |writes| ==> Cordoned(writes[i].after)
  {
    forall i | 0 <= i < |writes|
      ensures Cordoned(writes[i].after)
    {
      assert Checked(writes[i], installId);
    }
  }

  /** A write that an error exit hid is made again from the state it left: the re-read node calls for a patch that takes effect. */
  lemma {:induction false} HiddenWriteRepeats(n: Node, version: nat)
    ensures var after := Guarded(n).(version := version);
      ApplyPatch(after, GuardPatch(after)) == Some(Guarded(after)) && after.installId == n.installId
  {
    var after := Guarded(n).(version := version);
    GuardPatchIff(after, after);
  }

  /** Read at these calls, the storage cards of the cordoned node were in place. */
  ghost predicate CardsAt(ports: seq<Port>, installId: string, n: Node, i: nat, j: nat, outside: Outside) {
    && Cordoned(n) && n.installId == Some(installId) && i < j
    && outside.configs(j).Some? && InPlace(ports, n.labels, outside.links(i), outside.configs(j).value)
  }

  /** They were, at some calls so far. */
  ghost predicate SeenInPlace(ports: seq<Port>, installId: string, outside: Outside, count: nat) {
    exists n: Node, i: nat, j: nat :: j <= count && CardsAt(ports, installId, n, i, j, outside)
  }

  lemma {:induction false} RememberedIsCareful(guarded: bool, seen: Option<string>, writes: seq<Write>, installId: string, native: bool)
    requires Remembers(guarded, seen, writes, installId, native)
    ensures Careful(writes, installId, native)
  {
  }

  ghost predicate Before(n: Node, past: set<Node>, node: Option<Node>) {
    n in past && (node.Some? ==> node.value.version >= n.version)
  }

  ghost predicate AllBefore(ws: seq<Write>, past: set<Node>, node: Option<Node>) {
    forall i :: 0 <= i < |ws| ==> Before(ws[i].after, past, node)
  }

  /** A version names one state of the node. */
  ghost predicate OneStatePerVersion(node: Option<Node>, past: set<Node>, revision: nat) {
    && (node.Some? ==> node.value in past)
    && (forall n :: n in past ==> n.version <= revision)
    && (forall a, b :: a in past && b in past && a.version == b.version ==> a == b)
  }

  // --- what the calls of a turn show --------------------------------------------------------

  /** The node as it was at the end of each call, and at the start. */
  ghost predicate Recorded(node: Option<Node>, history: seq<Option<Node>>, calls: nat) {
    |history| == calls + 1 && history[calls] == node
  }

  /** `n` was the node at a call after the first `from`. */
  ghost predicate SeenAfter(n: Node, from: nat, history: seq<Option<Node>>) {
    exists c :: from < c < |history| && history[c] == Some(n)
  }

  ghost predicate Unread(c: nat, history: seq<Option<Node>>, outside: Outside) {
    0 < c < |history| && (!outside.readable(c) || history[c].None?)
  }

  /** The patch after `c` calls was answered by an error exit or found the node changed, and the node was then read again. */
  ghost predicate Missed(c: nat, history: seq<Option<Node>>, outside: Outside) {
    && c + 2 < |history|
    && (outside.reply(c + 1).Errored? || (outside.reply(c + 1).Answered? && history[c + 1] != history[c]))
    && !Unread(c + 2, history, outside)
  }

  ghost predicate MissedFrom(c: nat, count: nat, history: seq<Option<Node>>, outside: Outside) {
    forall k: nat :: k < count ==> Missed(c + 2 * k, history, outside)
  }

  /** A write the run knows of left a node whose promotion was complete, or followed one. */
  ghost predicate SawComplete(writes: seq<Write>) {
    |Known(writes)| >= 2 || (|Known(writes)| == 1 && Known(writes)[0].after.promote == Some(COMPLETE))
  }

  /** The reason to stop is there, in the turn that began after `from` calls. */
  ghost predicate StopHolds(why: Stop, from: nat, history: seq<Option<Node>>, outside: Outside, job: Job, writes: seq<Write>) {
    match why
    case Foreign(n) => SeenAfter(n, from, history) && n.installId != Some(job.installId)
    case PatchRefused(c) => from < c < |history| && outside.reply(c).Refused?
    case PatchLost(c) => from < c < |history| && outside.reply(c).Lost?
    case PatchRepeated(c) => from < c && MissedFrom(c, PATCH_ATTEMPTS, history, outside)
    case PromotionEnded(n) => SeenAfter(n, from, history) && GivenUp(n)
    case Uncordoned(n) =>
      && SeenAfter(n, from, history) && !Cordoned(n)
      && if job.native then n.nativeDone else n.promote != Some(COMPLETE) || SawComplete(writes)
    case CardMissing(i) => from < i < |history| && outside.links(i) != [] && exists p :: p in job.ports && !OneCard(outside.links(i), p.mac)
    case CardTaken(n, i, j) =>
      && SeenAfter(n, from, history) && from < i < j < |history| && outside.configs(j).Some?
      && !InPlace(job.ports, n.labels, outside.links(i), outside.configs(j).value)
    case Cancelled(c) => c == from && outside.cancelled(c)
  }

  /** The reason to wait is there. */
  ghost predicate WaitHolds(why: Wait, from: nat, history: seq<Option<Node>>, outside: Outside, job: Job) {
    match why
    case NodeUnread(c) => from < c && Unread(c, history, outside)
    case NativePending(n) => SeenAfter(n, from, history) && job.native && !n.nativeDone
    case Promoting(n) => SeenAfter(n, from, history) && n.promote == Some(RUNNING)
    case CardsUnlisted(i) => from < i < |history| && outside.links(i) == []
    case ConfigsUnread(j) => from < j < |history| && outside.configs(j).None?
    case PodsUnread(c) => from < c < |history| && job.csi.Some? && outside.pods(c).None?
    case NotReady(n, d, c) =>
      && SeenAfter(n, from, history) && from < d < |history|
      && (var pods := PodsAt(c, from, history, outside, job);
          pods.Some? && !AllReady(n, outside.disks(d), pods.value, job.profile, job.csi))
  }

  /** The pods as listed at a call, none being asked for without a profile that needs them. */
  ghost function PodsAt(c: nat, from: nat, history: seq<Option<Node>>, outside: Outside, job: Job): Option<seq<Pod>> {
    if job.csi.None? then Some([]) else if from < c < |history| then outside.pods(c) else None
  }

  /** What a turn may pass with: a state of the node in this turn, cordoned, out of any promotion, and ready by what it listed. */
  ghost predicate PassHolds(n: Node, disks: seq<StorageDisk>, pods: seq<Pod>, from: nat, history: seq<Option<Node>>, outside: Outside, job: Job) {
    && SeenAfter(n, from, history) && Cordoned(n) && n.installId == Some(job.installId)
    && n.promote != Some(RUNNING) && !GivenUp(n) && (job.native ==> n.nativeDone)
    && AllReady(n, disks, pods, job.profile, job.csi)
    && (exists d :: from < d < |history| && outside.disks(d) == disks)
    && (exists c: nat :: PodsAt(c, from, history, outside, job) == Some(pods))
  }

  ghost predicate VerdictHolds(r: Verdict, from: nat, history: seq<Option<Node>>, outside: Outside, job: Job, writes: seq<Write>) {
    match r
    case Later(wait) => WaitHolds(wait, from, history, outside, job)
    case Fail(why) => StopHolds(why, from, history, outside, job, writes)
    case Passed(n, disks, pods) => PassHolds(n, disks, pods, from, history, outside, job)
  }

  /** A turn that was followed by another: the calls and the time it took, and why. */
  datatype Span = Span(from: nat, to: nat, began: int, ended: int, why: Wait)

  /** Turns that follow each other, each for a reason, none cancelled and none begun past the limit. */
  ghost predicate TurnAt(turns: seq<Span>, k: nat, count: nat, time: int, limit: int, history: seq<Option<Node>>, outside: Outside, job: Job)
    requires k < |turns|
  {
    var t := turns[k];
    && t.from == CallsBefore(turns[..k], count) <= t.to < |history|
    && t.began == NextTurn(turns[..k], time) < limit && t.began <= t.ended <= t.began + CALL_SECONDS * TURN_CALLS
    && !outside.cancelled(t.from) && WaitHolds(t.why, t.from, history[..t.to + 1], outside, job)
  }

  ghost predicate Polled(turns: seq<Span>, count: nat, time: int, limit: int, history: seq<Option<Node>>, outside: Outside, job: Job) {
    forall k: nat :: k < |turns| ==> TurnAt(turns, k, count, time, limit, history, outside, job)
  }

  ghost function CallsBefore(turns: seq<Span>, count: nat): nat {
    if turns == [] then count else turns[|turns| - 1].to
  }

  ghost function NextTurn(turns: seq<Span>, time: int): int {
    if turns == [] then time else turns[|turns| - 1].ended + POLL_SECONDS
  }

  lemma {:induction false} OneMoreTurn(turns: seq<Span>, t: Span, count: nat, time: int, limit: int,
                                       was: seq<Option<Node>>, history: seq<Option<Node>>, outside: Outside, job: Job)
    requires Polled(turns, count, time, limit, was, outside, job) && was <= history && |history| == t.to + 1
    requires t.from == CallsBefore(turns, count) <= t.to && t.began == NextTurn(turns, time) < limit
    requires t.began <= t.ended <= t.began + CALL_SECONDS * TURN_CALLS
    requires !outside.cancelled(t.from) && WaitHolds(t.why, t.from, history, outside, job)
    ensures Polled(turns + [t], count, time, limit, history, outside, job)
  {
    hide WaitHolds, CallsBefore, NextTurn;
    forall k: nat | k < |turns| + 1
      ensures TurnAt(turns + [t], k, count, time, limit, history, outside, job)
    {
      if k < |turns| {
        assert TurnAt(turns, k, count, time, limit, was, outside, job);
        assert (turns + [t])[..k] == turns[..k] && (turns + [t])[k] == turns[k];
        assert history[..turns[k].to + 1] == was[..turns[k].to + 1];
      } else {
        assert (turns + [t])[..k] == turns && history[..t.to + 1] == history;
      }
    }
  }

  lemma {:induction false} LaterPolled(turns: seq<Span>, count: nat, time: int, limit: int,
                                       was: seq<Option<Node>>, history: seq<Option<Node>>, outside: Outside, job: Job)
    requires Polled(turns, count, time, limit, was, outside, job) && was <= history
    ensures Polled(turns, count, time, limit, history, outside, job)
  {
    hide WaitHolds, CallsBefore, NextTurn;
    forall k: nat | k < |turns|
      ensures TurnAt(turns, k, count, time, limit, history, outside, job)
    {
      assert TurnAt(turns, k, count, time, limit, was, outside, job);
      assert history[..turns[k].to + 1] == was[..turns[k].to + 1];
    }
  }

  lemma {:induction false} SeenStays(n: Node, from: nat, was: seq<Option<Node>>, history: seq<Option<Node>>)
    requires SeenAfter(n, from, was) && was <= history
    ensures SeenAfter(n, from, history)
  {
    var c :| from < c < |was| && was[c] == Some(n);
    assert history[c] == Some(n);
  }

  lemma {:induction false} SeenLast(n: Node, from: nat, history: seq<Option<Node>>)
    requires from < |history| - 1 && history[|history| - 1] == Some(n)
    ensures SeenAfter(n, from, history)
  {
  }

  lemma {:induction false} NoneMissed(c: nat, history: seq<Option<Node>>, outside: Outside)
    ensures MissedFrom(c, 0, history, outside)
  {
  }

  lemma {:induction false} NoTurn(count: nat, time: int, limit: int, history: seq<Option<Node>>, outside: Outside, job: Job)
    ensures Polled([], count, time, limit, history, outside, job)
  {
  }

  function Limit(deadline: int, time: int): int {
    if deadline < time + READINESS_TIMEOUT then deadline else time + READINESS_TIMEOUT
  }

  /** A patch that was not answered as made, and the node read again. */
  lemma {:induction false} MissedOnce(was: seq<Option<Node>>, patched: seq<Option<Node>>, history: seq<Option<Node>>, outside: Outside)
    requires was != [] && was <= patched <= history && |patched| == |was| + 1 && |history| == |was| + 2
    requires outside.reply(|was|).Errored? || (outside.reply(|was|).Answered? && patched[|was|] != was[|was| - 1])
    requires !Unread(|was| + 1, history, outside)
    ensures Missed(|was| - 1, history, outside)
  {
  }

  lemma {:induction false} MissedAgain(c: nat, count: nat, was: seq<Option<Node>>, history: seq<Option<Node>>, outside: Outside)
    requires MissedFrom(c, count, was, outside) && was <= history && Missed(c + 2 * count, history, outside)
    ensures MissedFrom(c, count + 1, history, outside)
  {
    forall k: nat | k < count + 1
      ensures Missed(c + 2 * k, history, outside)
    {
      if k < count {
        assert Missed(c + 2 * k, was, outside);
      }
    }
  }

  lemma {:induction false} ForeignHolds(n: Node, from: nat, history: seq<Option<Node>>, outside: Outside, job: Job, writes: seq<Write>)
    requires from < |history| - 1 && history[|history| - 1] == Some(n) && n.installId != Some(job.installId)
    ensures StopHolds(Foreign(n), from, history, outside, job, writes)
  {
    hide GivenUp;
    SeenLast(n, from, history);
  }

  lemma {:induction false} EndedHolds(n: Node, from: nat, history: seq<Option<Node>>, outside: Outside, job: Job, writes: seq<Write>)
    requires SeenAfter(n, from, history) && GivenUp(n)
    ensures StopHolds(PromotionEnded(n), from, history, outside, job, writes)
  {
    hide SeenAfter, GivenUp;
  }

  lemma {:induction false} AnswerHolds(c: nat, from: nat, history: seq<Option<Node>>, outside: Outside, job: Job, writes: seq<Write>)
    requires from < c < |history|
    ensures outside.reply(c).Refused? ==> StopHolds(PatchRefused(c), from, history, outside, job, writes)
    ensures outside.reply(c).Lost? ==> StopHolds(PatchLost(c), from, history, outside, job, writes)
  {
    hide GivenUp;
  }

  lemma {:induction false} RepeatedHolds(c: nat, from: nat, history: seq<Option<Node>>, outside: Outside, job: Job, writes: seq<Write>)
    requires from < c && MissedFrom(c, PATCH_ATTEMPTS, history, outside)
    ensures StopHolds(PatchRepeated(c), from, history, outside, job, writes)
  {
    hide MissedFrom;
  }

  /** What is concluded of a cordoned node out of any promotion, by what was listed at these calls. */
  ghost function ByReadiness(n: Node, d: nat, c: nat, from: nat, history: seq<Option<Node>>, outside: Outside, job: Job): Verdict {
    var pods := PodsAt(c, from, history, outside, job);
    if pods.None? then Later(PodsUnread(c))
    else if AllReady(n, outside.disks(d), pods.value, job.profile, job.csi) then Passed(n, outside.disks(d), pods.value)
    else Later(NotReady(n, d, c))
  }

  lemma {:induction false} ReadyHolds(n: Node, d: nat, c: nat, from: nat, history: seq<Option<Node>>, outside: Outside, job: Job, writes: seq<Write>)
    requires SeenAfter(n, from, history) && from < d < |history| && from < c < |history|
    requires Cordoned(n) && n.installId == Some(job.installId) && n.promote != Some(RUNNING) && !GivenUp(n) && (job.native ==> n.nativeDone)
    ensures VerdictHolds(ByReadiness(n, d, c, from, history, outside, job), from, history, outside, job, writes)
  {
    hide SeenAfter, AllReady, GivenUp, Cordoned;
    var pods := PodsAt(c, from, history, outside, job);
    if pods.Some? {
      assert PodsAt(c, from, history, outside, job) == Some(pods.value);
    }
  }

  lemma {:induction false} StillBefore(n: Node, was: Option<Node>, known: set<Node>, rev: nat, node: Option<Node>, past: set<Node>)
    requires Before(n, known, was) && OneStatePerVersion(was, known, rev) && known <= past
    requires node == was || node.None? || node.value.version > rev
    ensures Before(n, past, node)
  {
  }

  /** A write gives the node a version that was not given yet. */
  lemma {:induction false} StateWritten(node: Option<Node>, past: set<Node>, rev: nat, after: Node)
    requires OneStatePerVersion(node, past, rev) && after.version == rev + 1
    ensures OneStatePerVersion(Some(after), past + {after}, rev + 1)
  {
  }

  lemma {:induction false} WriteAdded(writes: seq<Write>, w: Write, installId: string)
    requires Checked(w, installId)
    ensures Adds(writes + [w], writes, w.cause, installId) && (Ends(writes + [w], writes) <==> !w.reply.Errored?)
  {
    hide Checked;
  }

  lemma {:induction false} WritePlaced(ws: seq<Write>, w: Write, past: set<Node>, was: Option<Node>, rev: nat)
    requires AllBefore(ws, past, was) && OneStatePerVersion(was, past, rev) && w.after.version == rev + 1
    ensures AllBefore(ws + [w], past + {w.after}, Some(w.after))
  {
    forall i | 0 <= i < |ws| + 1
      ensures Before((ws + [w])[i].after, past + {w.after}, Some(w.after))
    {
      if i < |ws| {
        assert Before(ws[i].after, past, was);
      }
    }
  }

  /** With the same uid and version it is the state that was seen. */
  lemma {:induction false} SeenIsOne(seen: Node, node: Option<Node>, past: set<Node>, rev: nat)
    requires OneStatePerVersion(node, past, rev) && seen in past
    ensures node.Some? && node.value.version == seen.version ==> node.value == seen
  {
  }

  class Run {
    const job: Job
    var guarded: bool
    var promoteSeen: Option<string>

    var node: Option<Node>
    var revision: nat
    var now: int
    var calls: nat

    ghost var past: set<Node>
    ghost var history: seq<Option<Node>>
    ghost var began: nat   // the calls made before this turn
    ghost var writes: seq<Write>

    constructor (job: Job, now: int)
      ensures Live() && Told() && writes == [] && this.job == job
    {
      this.job, this.now := job, now;
      guarded, promoteSeen, node, revision, calls, past, writes := false, None, None, 0, 0, {}, [];
      history, began := [None], 0;
    }

    ghost predicate Live()
      reads `node, `past, `revision, `history, `calls
    {
      OneStatePerVersion(node, past, revision) && Recorded(node, history, calls)
    }

    /** `n` was the node, and the node, if there is one, is no older. */
    ghost predicate Since(n: Node)
      reads `past, `node
    {
      Before(n, past, node)
    }

    ghost predicate Told()
      reads `guarded, `promoteSeen, `writes, `past, `node
    {
      && Remembers(guarded, promoteSeen, writes, job.installId, job.native)
      && Placed(writes)
    }

    ghost predicate Placed(ws: seq<Write>)
      reads `past, `node
    {
      AllBefore(ws, past, node)
    }

    /** The node is as it was, is gone, or has a version that was not given yet. */
    ghost predicate Newer(was: Option<Node>, rev: nat, known: set<Node>, log: seq<Option<Node>>)
      reads `node, `past, `revision, `history, `calls
    {
      && Live() && known <= past && revision >= rev && log <= history
      && (node == was || node.None? || node.value.version > rev)
    }

    /** At most so many calls since, and no more time than they may take. */
    ghost predicate Spent(time: int, count: nat, most: nat)
      reads `calls, `now
    {
      count <= calls <= count + most && time <= now <= time + CALL_SECONDS * (calls - count)
    }

    /** `n` was the node in this turn. */
    ghost predicate Seen(n: Node)
      reads `began, `history
    {
      SeenAfter(n, began, history)
    }

    ghost predicate StopTrue(why: Stop, outside: Outside)
      reads `began, `history, `writes
    {
      StopHolds(why, began, history, outside, job, writes)
    }

    ghost predicate WaitTrue(why: Wait, outside: Outside)
      reads `began, `history
    {
      WaitHolds(why, began, history, outside, job)
    }

    /** Whatever others do during a call. */
    method Meanwhile(outside: Outside)
      requires Live()
      modifies `node, `revision, `now, `calls, `past, `history
      ensures Newer(old(node), old(revision), old(past), old(history)) && Spent(old(now), old(calls), 1) && calls == old(calls) + 1
      ensures old(Placed(writes)) ==> Placed(writes)
      ensures node == Left(outside, old(calls), old(node), old(revision)) && now == old(now) + Took(outside, old(calls))
    {
      var want := outside.drift(calls, node);
      if want.None? {
        node := None;
      } else if want != node {
        revision := revision + 1;
        node := Some(want.value.(version := revision));
        past := past + {node.value};
      }
      now := now + (if outside.took(calls) < CALL_SECONDS then outside.took(calls) else CALL_SECONDS);
      calls := calls + 1;
      history := history + [node];
    }

    /** `kubectl get node`: None for a failed read as for an absent node. */
    method ReadNode(outside: Outside) returns (seen: Option<Node>)
      requires Live()
      modifies `node, `revision, `now, `calls, `past, `history
      ensures Newer(old(node), old(revision), old(past), old(history)) && Spent(old(now), old(calls), 1) && calls == old(calls) + 1
      ensures old(Placed(writes)) ==> Placed(writes)
      ensures if Unread(calls, history, outside) then seen.None? else seen == node && seen.Some? && Since(seen.value)
    {
      hide Left, Took;
      Meanwhile(outside);
      seen := if outside.readable(calls) then node else None;
    }

    /**
     * `patch`: written, not written as far as the answer says, or stopped. It
     * takes effect only on the very state it was made from; an error exit other
     * than a refusal for the user is taken for a write that was not made.
     */
    method Patch(cause: Node, seen: Node, outside: Outside) returns (r: Cordoning)
      requires Live() && Since(seen) && cause.version <= seen.version && seen.installId == Some(job.installId)
      requires cause.promote != Some(RUNNING) && !GivenUp(cause)
      modifies `node, `revision, `now, `calls, `past, `history, `writes
      ensures Newer(old(node), old(revision), old(past), old(history)) && Spent(old(now), old(calls), 1) && calls == old(calls) + 1
      ensures Adds(writes, old(writes), cause, job.installId) && |writes| <= |old(writes)| + 1
      ensures old(Placed(writes)) ==> Placed(writes)
      ensures r.Written? ==> Ends(writes, old(writes)) && r.node == writes[|writes| - 1].after && node == Some(r.node)
      ensures r.Written? ==> Cordoned(r.node) && r.node.installId == Some(job.installId) && outside.reply(calls).Answered?
      ensures writes != old(writes) <==>
        && !outside.reply(calls).Refused? && (outside.reply(calls).Answered? || outside.applied(calls))
        && Left(outside, old(calls), old(node), old(revision)) == Some(seen)
      ensures r.NotRead? ==> !Ends(writes, old(writes))
      ensures r.NotRead? ==> outside.reply(calls).Errored? || (outside.reply(calls).Answered? && node != Some(seen))
      ensures r == Stopped(PatchRefused(calls)) <==> outside.reply(calls).Refused?
      ensures r == Stopped(PatchLost(calls)) <==> outside.reply(calls).Lost?
      ensures r.Stopped? ==> r.why == PatchRefused(calls) || r.why == PatchLost(calls)
    {
      hide Left, Took, Guarded, ApplyPatch, GuardPatch, Adds, Ends, OneStatePerVersion, AllBefore;
      NothingAdded(writes, cause, job.installId);
      Meanwhile(outside);
      SeenIsOne(seen, node, past, revision);
      var reply := outside.reply(calls);
      if reply.Refused? {
        return Stopped(PatchRefused(calls));
      }
      var out := if node.None? then None else ApplyPatch(node.value, GuardPatch(seen));
      if node.Some? {
        PatchTakesEffect(node.value, seen);
      }
      if out.None? || (!reply.Answered? && !outside.applied(calls)) {
        return if reply.Lost? then Stopped(PatchLost(calls)) else NotRead;
      }
      var after := out.value.(version := revision + 1);
      var write := Write(cause, seen, node.value, after, reply);
      StateWritten(node, past, revision, after);
      WriteAdded(writes, write, job.installId);
      if old(Placed(writes)) {
        WritePlaced(writes, write, past, node, revision);
      }
      revision := revision + 1;
      writes := writes + [write];
      node := Some(after);
      past := past + {after};
      history := history[..calls] + [node];
      return match reply case Answered => Written(after) case Errored => NotRead case _ => Stopped(PatchLost(calls));
    }

    /** `cordon`: each write on the state it last checked; written again only after an error exit. */
    method Cordon(first: Node, outside: Outside) returns (r: Cordoning)
      requires Live() && Since(first) && node == Some(first) && began < calls && first.promote != Some(RUNNING) && !GivenUp(first)
      modifies `node, `revision, `now, `calls, `past, `history, `writes
      ensures Newer(old(node), old(revision), old(past), old(history)) && Spent(old(now), old(calls), 2 * PATCH_ATTEMPTS)
      ensures Adds(writes, old(writes), first, job.installId) && |writes| <= |old(writes)| + PATCH_ATTEMPTS
      ensures old(Placed(writes)) ==> Placed(writes)
      ensures r.Written? ==> Ends(writes, old(writes)) && r.node == writes[|writes| - 1].after && node == Some(r.node)
      ensures r.Written? ==> Cordoned(r.node) && r.node.installId == Some(job.installId)
      ensures r.NotRead? ==> !Ends(writes, old(writes)) && Unread(calls, history, outside)
      ensures r.Stopped? ==> StopTrue(r.why, outside)
    {
      hide Left, Took, Adds, Ends, Missed, MissedFrom, StopHolds, SeenAfter, OneStatePerVersion, AllBefore, Before, Cordoned, GivenUp, Unread;
      var seen, start := first, calls;
      NothingAdded(writes, first, job.installId);
      NoneMissed(calls, history, outside);
      for attempt := 0 to PATCH_ATTEMPTS
        invariant Newer(old(node), old(revision), old(past), old(history))
        invariant Spent(old(now), old(calls), 2 * attempt) && calls == old(calls) + 2 * attempt
        invariant Adds(writes, old(writes), first, job.installId) && !Ends(writes, old(writes)) && |writes| <= |old(writes)| + attempt
        invariant old(Placed(writes)) ==> Placed(writes)
        invariant node == Some(seen) && Since(first) && Since(seen) && first.version <= seen.version
        invariant MissedFrom(old(calls), attempt, history, outside)
      {
        if seen.installId != Some(job.installId) {
          ForeignHolds(seen, began, history, outside, job, writes);
          return Stopped(Foreign(seen));
        }
        ghost var mid, was := writes, history;
        ghost var node0, past0, rev0 := node, past, revision;
        r := Patch(first, seen, outside);
        AddsOn(writes, mid, old(writes), first, job.installId);
        if !r.NotRead? {
          AnswerHolds(calls, began, history, outside, job, writes);
          return;
        }
        StillBefore(first, node0, past0, rev0, node, past);
        ghost var patched := history;
        ghost var node1, past1, rev1 := node, past, revision;
        var again := ReadNode(outside);
        if again.None? {
          return NotRead;
        }
        StillBefore(first, node1, past1, rev1, node, past);
        MissedOnce(was, patched, history, outside);
        MissedAgain(old(calls), attempt, was, history, outside);
        seen := again.value;
      }
      RepeatedHolds(start, began, history, outside, job, writes);
      return Stopped(PatchRepeated(start));
    }

    /** `guard`: protects the node as soon as it may, and not while its promotion runs; an error stops the job. */
    method Guard(first: Node, outside: Outside) returns (r: Result<Node, Stop>)
      requires Live() && Told() && Since(first) && node == Some(first) && began < calls
      modifies `node, `revision, `now, `calls, `past, `history, `writes, `guarded, `promoteSeen
      ensures Live() && Spent(old(now), old(calls), 2 * PATCH_ATTEMPTS) && Careful(writes, job.installId, job.native) && old(history) <= history
      ensures first.installId != Some(job.installId) ==> r == Err(Foreign(first))
      ensures r.Ok? ==> Told() && r.value.installId == Some(job.installId) && Seen(r.value)
      ensures r.Err? ==> StopTrue(r.error, outside)
      ensures first.installId == Some(job.installId) && (job.native || old(guarded) || first.promote == Some(RUNNING)) ==> r == Ok(first)
      ensures first.installId == Some(job.installId) && !job.native && !old(guarded) && GivenUp(first) ==> r == Err(PromotionEnded(first))
      ensures first.installId != Some(job.installId) || job.native || old(guarded) || first.promote == Some(RUNNING) || GivenUp(first) ==>
        unchanged(this)
      ensures r.Ok? && guarded && !old(guarded) ==> Cordoned(r.value) && node == Some(r.value)
      ensures r.Ok? && !job.native && !guarded && first.promote != Some(RUNNING) ==>
        r.value == first && began < calls && Unread(calls, history, outside)
    {
      hide Measured, Checked, Known, OneStatePerVersion;
      SeenLast(first, began, history);
      if first.installId != Some(job.installId) {
        return Err(Foreign(first));
      }
      if job.native || guarded {
        return Ok(first);
      }
      if first.promote == Some(RUNNING) {
        return Ok(first);
      }
      if first.promote.Some? && first.promote != Some(COMPLETE) {
        return Err(PromotionEnded(first));
      }
      ghost var before := writes;
      var out := Cordon(first, outside);
      FirstWrites(writes, before, first, job.installId, promoteSeen);
      match out
      case Stopped(why) => return Err(why);
      case NotRead => return Ok(first);
      case Written(n) =>
        guarded := true;
        promoteSeen := n.promote;
        return Ok(n);
    }

    /** The cordon that a promotion lifted is put back; any other uncordoning stops the job. */
    method CordonAgain(seen: Node, outside: Outside) returns (r: Cordoning)
      requires Live() && Told() && !job.native && guarded && Since(seen) && node == Some(seen) && began < calls && !Cordoned(seen)
      modifies `node, `revision, `now, `calls, `past, `history, `writes, `promoteSeen
      ensures Live() && Spent(old(now), old(calls), 2 * PATCH_ATTEMPTS) && Careful(writes, job.installId, job.native) && old(history) <= history
      ensures seen.promote != Some(COMPLETE) || SawComplete(old(writes)) ==> r == Stopped(Uncordoned(seen)) && writes == old(writes)
      ensures !r.Stopped? ==> Told()
      ensures r.Written? ==> node == Some(r.node) && Cordoned(r.node) && r.node.installId == Some(job.installId) && calls > old(calls)
      ensures r.NotRead? ==> began < calls && Unread(calls, history, outside)
      ensures r.Stopped? ==> StopTrue(r.why, outside)
    {
      hide Measured, Checked, Known;
      if seen.promote != Some(COMPLETE) || promoteSeen == Some(COMPLETE) {
        SeenLast(seen, began, history);
        return Stopped(Uncordoned(seen));
      }
      ghost var before := writes;
      CheckedCordon(before, job.installId);
      forall i | 0 <= i < |before|
        ensures before[i].after.version < seen.version
      {
        assert Since(before[i].after) && before[i].after != seen;
      }
      r := Cordon(seen, outside);
      SecondWrites(writes, before, seen, job.installId, promoteSeen);
      if r.Written? {
        promoteSeen := Some(COMPLETE);
      }
    }

    /** The node of this turn, guarded and cordoned, or another turn, or the end. */
    method Observe(outside: Outside) returns (r: Round)
      requires Live() && Told() && began == calls
      modifies `node, `revision, `now, `calls, `past, `history, `writes, `guarded, `promoteSeen
      ensures Live() && Spent(old(now), old(calls), TURN_CALLS - 4) && Careful(writes, job.installId, job.native) && (!r.GiveUp? ==> Told())
      ensures old(history) <= history && began < calls
      ensures r.Again? ==> WaitTrue(r.wait, outside)
      ensures r.GiveUp? ==> StopTrue(r.why, outside)
      ensures r.Joined? ==> Cordoned(r.node) && r.node.installId == Some(job.installId) && node == Some(r.node)
      ensures r.Joined? ==> if job.native then r.node.nativeDone else guarded && Known(writes) != []
    {
      hide Careful, Known, OneStatePerVersion;
      var seen := ReadNode(outside);
      if seen.None? {
        return Again(NodeUnread(calls));
      }
      var kept := Guard(seen.value, outside);
      if kept.Err? {
        return GiveUp(kept.error);
      }
      var current := kept.value;
      if job.native {
        return
          if !current.nativeDone then Again(NativePending(current))
          else if !Cordoned(current) then GiveUp(Uncordoned(current)) else Joined(current);
      }
      if !guarded {
        return Again(if current.promote == Some(RUNNING) then Promoting(current) else NodeUnread(calls));
      }
      if !Cordoned(current) {
        var again := CordonAgain(current, outside);
        return match again
          case Stopped(why) => GiveUp(why)
          case NotRead => Again(NodeUnread(calls))
          case Written(n) => Joined(n);
      }
      return Joined(current);
    }

    ghost predicate CardsSeen(outside: Outside, count: nat) {
      SeenInPlace(job.ports, job.installId, outside, count)
    }

    /** `_verify_nics`, and the inventory it reads: in place, or to be read again, or not as planned. */
    method VerifyCards(n: Node, outside: Outside) returns (r: Cards)
      requires Live() && Told() && Seen(n) && began < calls && Cordoned(n) && n.installId == Some(job.installId)
      modifies `node, `revision, `now, `calls, `past, `history
      ensures Live() && Told() && Spent(old(now), old(calls), 2) && old(history) <= history
      ensures r.AllPlaced? ==> calls == old(calls) + 2 && CardsAt(job.ports, job.installId, n, old(calls) + 1, calls, outside)
      ensures r.NotListed? ==> WaitTrue(r.wait, outside)
      ensures r.Misplaced? ==> StopTrue(r.why, outside)
    {
      hide Left, Took, Remembers, InPlace, OneCard, Bears, Applies, OneStatePerVersion, SeenAfter;
      Meanwhile(outside);
      var i, links := calls, outside.links(calls);
      if links == [] {
        return NotListed(CardsUnlisted(i));
      }
      var names := CardNames(job.ports, links);
      if names.None? {
        return Misplaced(CardMissing(i));
      }
      Meanwhile(outside);
      var configs := outside.configs(calls);
      if configs.None? {
        return NotListed(ConfigsUnread(calls));
      }
      var alone := LeftAlone(configs.value, n.labels, names.value);
      InPlaceIff(job.ports, n.labels, links, configs.value, names.value);
      if !alone {
        SeenStays(n, began, old(history), history);
        return Misplaced(CardTaken(n, i, calls));
      }
      assert CardsAt(job.ports, job.installId, n, i, calls, outside);
      return AllPlaced;
    }

    /** The rest of a turn: promotion, storage cards, readiness. */
    method Judge(n: Node, verified: bool, outside: Outside) returns (r: Verdict, known: bool)
      requires Live() && Told() && Seen(n) && began < calls && Cordoned(n) && n.installId == Some(job.installId) && (job.native ==> n.nativeDone)
      modifies `node, `revision, `now, `calls, `past, `history
      ensures Live() && Told() && Spent(old(now), old(calls), if verified then 2 else 4) && old(history) <= history
      ensures VerdictHolds(r, began, history, outside, job, writes)
      ensures r.Passed? ==> r.node == n && calls == old(calls) + (if verified then 0 else 2) + (if job.csi.Some? then 2 else 1)
      ensures (r.Passed? || verified ==> known) && (known && !verified ==> CardsSeen(outside, calls))
    {
      hide Left, Took, Remembers, CardsAt, AllReady, OneStatePerVersion, SeenAfter, PassHolds, OneCard, InPlace, StopHolds;
      known := verified;
      if n.promote == Some(RUNNING) {
        return Later(Promoting(n)), known;
      }
      if n.promote.Some? && n.promote != Some(COMPLETE) {
        EndedHolds(n, began, history, outside, job, writes);
        return Fail(PromotionEnded(n)), known;
      }
      if !known {
        var cards := VerifyCards(n, outside);
        match cards {
          case NotListed(wait) => return Later(wait), known;
          case Misplaced(why) => return Fail(why), known;
          case AllPlaced => known := true;
        }
      }
      Meanwhile(outside);
      var d, disks, pods := calls, outside.disks(calls), Some([]);
      if job.csi.Some? {
        Meanwhile(outside);
        pods := outside.pods(calls);
      }
      SeenStays(n, began, old(history), history);
      ReadyHolds(n, d, calls, began, history, outside, job, writes);
      if pods.None? {
        return Later(PodsUnread(calls)), known;
      }
      var latest := Readiness(n, disks, pods.value, job.profile, job.csi);
      r := if forall k :: k in latest ==> latest[k] then Passed(n, disks, pods.value) else Later(NotReady(n, d, calls));
    }

    /** One turn of the loop: the end, or another turn, for a reason that is there. */
    method Turn(verified: bool, outside: Outside) returns (r: Verdict, known: bool)
      requires Live() && Told() && (verified ==> CardsSeen(outside, calls))
      modifies `node, `revision, `now, `calls, `past, `history, `writes, `guarded, `promoteSeen, `began
      ensures Live() && Careful(writes, job.installId, job.native) && Spent(old(now), old(calls), TURN_CALLS)
      ensures began == old(calls) && old(history) <= history
      ensures VerdictHolds(r, began, history, outside, job, writes) && (r.Later? ==> Told())
      ensures outside.cancelled(old(calls)) <==> r == Fail(Cancelled(old(calls)))
      ensures outside.cancelled(old(calls)) ==> writes == old(writes) && calls == old(calls)
      ensures r.Passed? && !job.native ==> Known(writes) != []
      ensures (known ==> CardsSeen(outside, calls)) && (r.Passed? || verified ==> known)
    {
      hide Careful, Checked, AllReady, Known, CardsAt, OneStatePerVersion, SeenAfter, AllBefore;
      known, began := verified, calls;
      if outside.cancelled(calls) {
        return Fail(Cancelled(calls)), known;
      }
      var round := Observe(outside);
      match round {
        case Again(wait) => return Later(wait), known;
        case GiveUp(why) => return Fail(why), known;
        case Joined(n) =>
          SeenLast(n, began, history);
          r, known := Judge(n, verified, outside);
      }
    }

    /**
     * `finish`: polls until the deadline. It returns only a finished state of
     * the last turn, the storage cards having been found in place on the
     * cordoned node before; it fails only for a reason that the last turn
     * found; and every other turn was taken POLL_SECONDS after the one before,
     * which found a reason to wait. Every write on the way was measured and made
     * on the node checked. No turn starts at or after the deadline, and a turn
     * makes at most fifteen calls.
     */
    method Finish(deadline: int, outside: Outside) returns (r: Outcome, ghost turns: seq<Span>)
      requires Live() && Told()
      modifies `node, `revision, `now, `calls, `past, `history, `writes, `guarded, `promoteSeen, `began
      ensures Careful(writes, job.installId, job.native)
      ensures Polled(turns, old(calls), old(now), Limit(deadline, old(now)), history, outside, job)
      ensures r.TimedOut? <==> NextTurn(turns, old(now)) >= Limit(deadline, old(now))
      ensures r.TimedOut? ==> now == NextTurn(turns, old(now))
      ensures !r.TimedOut? ==> began == CallsBefore(turns, old(calls)) && now <= NextTurn(turns, old(now)) + CALL_SECONDS * TURN_CALLS
      ensures r.Ready? ==>
        && PassHolds(r.node, r.disks, r.pods, began, history, outside, job)
        && CardsSeen(outside, calls) && (job.native || Known(writes) != [])
      ensures r.Failed? ==> StopTrue(r.why, outside)
      ensures now == old(now) || now < Limit(deadline, old(now)) + CALL_SECONDS * TURN_CALLS + POLL_SECONDS
    {
      hide Careful, AllReady, Remembers, Known, SeenInPlace, OneStatePerVersion, AllBefore, Polled, WaitHolds, StopHolds, PassHolds;
      RememberedIsCareful(guarded, promoteSeen, writes, job.installId, job.native);
      var limit := Limit(deadline, now);
      var verified := false;
      turns := [];
      NoTurn(calls, now, limit, history, outside, job);
      while now < limit
        invariant Live() && Told() && Careful(writes, job.installId, job.native) && (verified ==> CardsSeen(outside, calls))
        invariant Polled(turns, old(calls), old(now), limit, history, outside, job)
        invariant calls == CallsBefore(turns, old(calls)) && now == NextTurn(turns, old(now))
        invariant now == old(now) || now < limit + CALL_SECONDS * TURN_CALLS + POLL_SECONDS
        decreases limit - now
      {
        ghost var start, count, was := now, calls, history;
        var verdict;
        verdict, verified := Turn(verified, outside);
        match verdict {
          case Fail(why) =>
            LaterPolled(turns, old(calls), old(now), limit, was, history, outside, job);
            return Failed(why), turns;
          case Passed(n, disks, pods) =>
            LaterPolled(turns, old(calls), old(now), limit, was, history, outside, job);
            return Ready(n, disks, pods), turns;
          case Later(wait) =>
            var t := Span(count, calls, start, now, wait);
            OneMoreTurn(turns, t, old(calls), old(now), limit, was, history, outside, job);
            turns := turns + [t];
        }
        now := now + POLL_SECONDS;
      }
      return TimedOut, turns;
    }
  }
}
