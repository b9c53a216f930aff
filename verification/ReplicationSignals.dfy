/**
 * Signals received by a replication command (bin/harvester-replication.py,
 * _on_cancel_signal, _on_suspend_signal, _on_suspend_alarm, _block_signals;
 * bin/lib/replication_run.py, Ctx.safe_point and Ctx.begin_undo), in any order
 * and at any moment of the command.
 */
module ReplicationSignals {
  import opened Wrappers

  const UNDO_TOTAL := 240

  datatype Raise = Cancelled(name: string) | Suspended(reason: string)

  /** `undoTotal` is the context's own setting; zero or absent falls back to the default. */
  datatype Context = Context(undoTotal: nat, undoUntil: Option<int>, suspended: bool)

  /** `_CANCEL`, the clock, and what the command has been through. */
  datatype State = State(
    signal: Option<string>, deadline: Option<int>, suspend: Option<string>, finished: bool,
    ctx: Option<Context>, now: int, raised: seq<Raise>, killed: bool)

  datatype Event =
    | CancelSignal(name: string)      // SIGTERM, SIGHUP, SIGINT
    | SuspendSignal(reason: string)   // SIGUSR2
    | SuspendAlarm                    // SIGALRM
    | SafePoint
    | MakeContext(undoTotal: nat)
    | BeginUndo
    | BlockSignals
    | Tick(seconds: nat)

  function Configured(now: int): State {
    State(None, None, None, false, None, now, [], false)
  }

  predicate Undoing(s: State) {
    s.ctx.Some? && s.ctx.value.undoUntil.Some?
  }

  function UndoTotal(s: State): nat {
    if s.ctx.Some? && s.ctx.value.undoTotal != 0 then s.ctx.value.undoTotal else UNDO_TOTAL
  }

  function NextCancel(s: State, name: string): State {
    if s.finished || s.suspend.Some? then s
    else if s.signal.None? && !Undoing(s) then
      s.(signal := Some(name), deadline := Some(s.now + UndoTotal(s)), raised := s.raised + [Cancelled(name)])
    else
      var deadline := if Undoing(s) then s.ctx.value.undoUntil else s.deadline;
      if deadline.Some? && s.now < deadline.value then s else s.(killed := true)
  }

  function NextSuspend(s: State, reason: string): State {
    if s.finished || s.signal.Some? || s.suspend.Some? || Undoing(s) then s else s.(suspend := Some(reason))
  }

  function Stopped(s: State): State
    requires s.suspend.Some? && s.ctx.Some?
  {
    s.(ctx := Some(s.ctx.value.(suspended := true)), raised := s.raised + [Suspended(s.suspend.value)])
  }

  function NextAlarm(s: State): State {
    if s.finished || s.suspend.None? || s.ctx.None? || s.ctx.value.suspended || Undoing(s) then s else Stopped(s)
  }

  function NextSafePoint(s: State): State {
    if s.ctx.None? || s.ctx.value.suspended || Undoing(s) || s.suspend.None? then s else Stopped(s)
  }

  /** A killed process receives nothing more. */
  function Next(s: State, e: Event): State {
    if s.killed then s
    else
      match e
      case CancelSignal(name) => NextCancel(s, name)
      case SuspendSignal(reason) => NextSuspend(s, reason)
      case SuspendAlarm => NextAlarm(s)
      case SafePoint => NextSafePoint(s)
      case MakeContext(undoTotal) => if s.ctx.Some? then s else s.(ctx := Some(Context(undoTotal, None, false)))
      case BeginUndo =>
        if s.ctx.None? || Undoing(s) then s
        else s.(ctx := Some(s.ctx.value.(undoUntil := Some(s.now + UndoTotal(s)))))
      case BlockSignals => s.(finished := true)
      case Tick(seconds) => s.(now := s.now + seconds)
  }

  function Run(s: State, es: seq<Event>): State
    decreases |es|
  {
    if es == [] then s else Run(Next(s, es[0]), es[1..])
  }

  lemma {:induction false} RunAppend(s: State, a: seq<Event>, b: seq<Event>)
    ensures Run(s, a + b) == Run(Run(s, a), b)
    decreases |a|
  {
    if a == [] {
      assert a + b == b;
    } else {
      assert (a + b)[0] == a[0] && (a + b)[1..] == a[1..] + b;
      RunAppend(Next(s, a[0]), a[1..], b);
    }
  }

  // --- the invariant ----------------------------------------------------------------------

  /** Cancelled or suspended, never both; raised once at most, and for that reason. */
  predicate Valid(s: State) {
    && !(s.signal.Some? && s.suspend.Some?)
    && (s.signal.Some? ==> s.deadline.Some? && s.raised == [Cancelled(s.signal.value)])
    && (s.signal.None? ==>
          s.raised == if s.ctx.Some? && s.ctx.value.suspended && s.suspend.Some? then [Suspended(s.suspend.value)] else [])
    && (s.ctx.Some? && s.ctx.value.suspended ==> s.suspend.Some?)
  }

  lemma {:induction false} NextKeepsValid(s: State, e: Event)
    requires Valid(s)
    ensures Valid(Next(s, e))
  {
    assert [] + [Cancelled(if e.CancelSignal? then e.name else "")] == [Cancelled(if e.CancelSignal? then e.name else "")];
    if s.suspend.Some? {
      assert [] + [Suspended(s.suspend.value)] == [Suspended(s.suspend.value)];
    }
  }

  lemma {:induction false} RunKeepsValid(s: State, es: seq<Event>)
    requires Valid(s)
    ensures Valid(Run(s, es))
    decreases |es|
  {
    if es == [] {
    } else {
      NextKeepsValid(s, es[0]);
      RunKeepsValid(Next(s, es[0]), es[1..]);
    }
  }

  /** Over any sequence of signals and progress of a command: one exception at most, of one kind. */
  lemma {:induction false} OneReasonToStop(now: int, es: seq<Event>)
    ensures var s := Run(Configured(now), es);
      && !(s.signal.Some? && s.suspend.Some?)
      && |s.raised| <= 1
      && (s.signal.Some? <==> exists name :: s.raised == [Cancelled(name)])
      && (s.ctx.Some? && s.ctx.value.suspended <==> exists reason :: s.raised == [Suspended(reason)])
  {
    RunKeepsValid(Configured(now), es);
    var s := Run(Configured(now), es);
    assert s.signal.Some? ==> s.raised == [Cancelled(s.signal.value)];
    assert s.ctx.Some? && s.ctx.value.suspended ==> s.raised == [Suspended(s.suspend.value)];
  }

  // --- once the result is built ----------------------------------------------------------------

  lemma {:induction false} QuietOnceFinished(s: State, es: seq<Event>)
    requires s.finished && !s.killed
    ensures var r := Run(s, es);
      && !r.killed && r.finished && r.signal == s.signal && r.suspend == s.suspend
      && (r.raised == s.raised || (SafePoint in es && s.suspend.Some?))
    decreases |es|
  {
    if es == [] {
    } else {
      assert es[0] in es && forall e :: e in es[1..] ==> e in es;
      QuietOnceFinished(Next(s, es[0]), es[1..]);
    }
  }

  /** A safe point comes while there is a context, before any rollback begins in it. */
  predicate ReachesSafePoint(context: bool, es: seq<Event>)
    decreases |es|
  {
    es != []
    && match es[0]
       case SafePoint => context || ReachesSafePoint(context, es[1..])
       case BeginUndo => !context && ReachesSafePoint(context, es[1..])
       case MakeContext(_) => ReachesSafePoint(true, es[1..])
       case _ => ReachesSafePoint(context, es[1..])
  }

  /** Nothing but such a safe point raises any more, and that only on a shutdown asked for before. */
  lemma {:induction false} RaisesIff(s: State, es: seq<Event>)
    requires s.finished && !s.killed
    ensures Run(s, es).raised != s.raised
       <==> s.suspend.Some? && !Undoing(s) && !(s.ctx.Some? && s.ctx.value.suspended) && ReachesSafePoint(s.ctx.Some?, es)
    ensures |s.raised| <= |Run(s, es).raised|
    decreases |es|
  {
    if es == [] {
    } else {
      RaisesIff(Next(s, es[0]), es[1..]);
    }
  }

  /**
   * The handlers alone: no signal kills or changes the verdict of a command
   * whose result is built, and none raises; something is still raised if and
   * only if a shutdown was asked for before, none was raised nor is a rollback
   * under way, and a safe point comes before any rollback. No command has one
   * there (NothingAfterResult).
   */
  lemma {:induction false} FinishedIsFinal(now: int, before: seq<Event>, after: seq<Event>)
    requires !Run(Configured(now), before).killed
    ensures var s := Run(Configured(now), before + [BlockSignals]);
      var r := Run(Configured(now), before + [BlockSignals] + after);
      && !r.killed && r.signal == s.signal && r.suspend == s.suspend
      && (r.raised != s.raised <==>
            s.suspend.Some? && !Undoing(s) && !(s.ctx.Some? && s.ctx.value.suspended) && ReachesSafePoint(s.ctx.Some?, after))
  {
    var s := Run(Configured(now), before);
    RunAppend(Configured(now), before, [BlockSignals]);
    assert Run(s, [BlockSignals]) == Run(Next(s, BlockSignals), [BlockSignals][1..]) == Next(s, BlockSignals);
    RunAppend(Configured(now), before + [BlockSignals], after);
    QuietOnceFinished(Next(s, BlockSignals), after);
    RaisesIff(Next(s, BlockSignals), after);
  }

  lemma {:induction false} NoneReached(context: bool, es: seq<Event>)
    requires SafePoint !in es
    ensures !ReachesSafePoint(context, es)
    decreases |es|
  {
    if es == [] {
    } else {
      assert es[0] in es && forall e :: e in es[1..] ==> e in es;
      NoneReached(true, es[1..]);
      NoneReached(false, es[1..]);
    }
  }

  /**
   * Every command builds its result after its last safe point: from then on
   * nothing is raised, nothing kills it and its verdict stands, whatever
   * arrives and even if a rollback begins.
   */
  lemma {:induction false} NothingAfterResult(now: int, before: seq<Event>, after: seq<Event>)
    requires !Run(Configured(now), before).killed && SafePoint !in after
    ensures var s := Run(Configured(now), before);
      var r := Run(Configured(now), before + [BlockSignals] + after);
      !r.killed && r.signal == s.signal && r.suspend == s.suspend && r.raised == s.raised
  {
    var s := Run(Configured(now), before);
    RunAppend(Configured(now), before, [BlockSignals]);
    assert Run(s, [BlockSignals]) == Run(Next(s, BlockSignals), [BlockSignals][1..]) == Next(s, BlockSignals);
    FinishedIsFinal(now, before, after);
    NoneReached(s.ctx.Some?, after);
  }

  // --- a console shutdown ------------------------------------------------------------------------

  lemma {:induction false} SuspendedStays(s: State, es: seq<Event>)
    requires Valid(s) && s.suspend.Some? && !s.killed
    ensures var r := Run(s, es);
      r.suspend == s.suspend && r.signal.None? && !r.killed && forall name :: Cancelled(name) !in r.raised
    decreases |es|
  {
    if es == [] {
    } else {
      NextKeepsValid(s, es[0]);
      SuspendedStays(Next(s, es[0]), es[1..]);
    }
  }

  /** Once the console's shutdown is asked for, no signal cancels the command or kills it. */
  lemma {:induction false} ShutdownIsNoRollback(now: int, before: seq<Event>, after: seq<Event>)
    requires Run(Configured(now), before).suspend.Some? && !Run(Configured(now), before).killed
    ensures var r := Run(Configured(now), before + after);
      r.signal.None? && !r.killed && forall name :: Cancelled(name) !in r.raised
  {
    RunAppend(Configured(now), before, after);
    RunKeepsValid(Configured(now), before);
    SuspendedStays(Run(Configured(now), before), after);
  }

  // --- a rollback under way ------------------------------------------------------------------------

  lemma {:induction false} UndoStays(s: State, es: seq<Event>, until: int)
    requires s.ctx.Some? && s.ctx.value.undoUntil == Some(until) && !s.killed
    ensures var r := Run(s, es);
      && r.now >= s.now && r.ctx.Some? && r.ctx.value.undoUntil == Some(until)
      && (r.killed ==> r.now >= until) && |r.raised| == |s.raised|
    decreases |es|
  {
    if es == [] {
    } else {
      var s1 := Next(s, es[0]);
      if s1.killed {
        KilledStays(s1, es[1..]);
      } else {
        UndoStays(s1, es[1..], until);
      }
    }
  }

  lemma {:induction false} KilledStays(s: State, es: seq<Event>)
    requires s.killed
    ensures Run(s, es) == s
    decreases |es|
  {
    if es == [] {
    } else {
      KilledStays(s, es[1..]);
    }
  }

  /** A rollback has all its time: whatever arrives, nothing is raised in it, and nothing kills it before its deadline. */
  lemma {:induction false} RollbackHasItsTime(now: int, before: seq<Event>, after: seq<Event>)
    requires var s := Run(Configured(now), before); s.ctx.Some? && !Undoing(s) && !s.killed
    ensures var s := Run(Configured(now), before);
      var r := Run(Configured(now), before + [BeginUndo] + after);
      (r.killed ==> r.now >= s.now + UndoTotal(s)) && |r.raised| == |s.raised|
  {
    var s := Run(Configured(now), before);
    RunAppend(Configured(now), before, [BeginUndo]);
    assert Run(s, [BeginUndo]) == Run(Next(s, BeginUndo), [BeginUndo][1..]) == Next(s, BeginUndo);
    RunAppend(Configured(now), before + [BeginUndo], after);
    UndoStays(Next(s, BeginUndo), after, s.now + UndoTotal(s));
  }

  /** A signal kills only a command already cancelled or undoing, past that deadline. */
  lemma {:induction false} KilledOnlyPastDeadline(now: int, before: seq<Event>, e: Event)
    requires !Run(Configured(now), before).killed && Next(Run(Configured(now), before), e).killed
    ensures var s := Run(Configured(now), before);
      && e.CancelSignal? && !s.finished && s.suspend.None?
      && (if Undoing(s) then s.now >= s.ctx.value.undoUntil.value
          else s.signal.Some? && s.deadline.Some? && s.now >= s.deadline.value)
  {
    RunKeepsValid(Configured(now), before);
  }

  // --- the handlers themselves ------------------------------------------------------------------------

  class Command {
    var signal: Option<string>
    var deadline: Option<int>
    var suspend: Option<string>
    var finished: bool
    var ctx: Option<Context>
    var now: int
    var raised: seq<Raise>
    var killed: bool

    ghost function View(): State
      reads this
    {
      State(signal, deadline, suspend, finished, ctx, now, raised, killed)
    }

    /** `configure` */
    constructor (now: int)
      ensures View() == Configured(now)
    {
      signal, deadline, suspend, finished := None, None, None, false;
      this.now, ctx, raised, killed := now, None, [], false;
    }

    method OnCancelSignal(name: string)
      modifies this
      ensures View() == NextCancel(old(View()), name)
    {
      if finished {
        return;
      }
      if suspend.Some? {
        return;
      }
      var undoing := ctx.Some? && ctx.value.undoUntil.Some?;
      if signal.None? && !undoing {
        var total := if ctx.Some? && ctx.value.undoTotal != 0 then ctx.value.undoTotal else UNDO_TOTAL;
        signal := Some(name);
        deadline := Some(now + total);
        raised := raised + [Cancelled(name)];
        return;
      }
      var limit := if undoing then ctx.value.undoUntil else deadline;
      if limit.Some? && now < limit.value {
        return;
      }
      killed := true;
    }

    method OnSuspendSignal(reason: string)
      modifies this
      ensures View() == NextSuspend(old(View()), reason)
    {
      if finished || signal.Some? || suspend.Some? {
        return;
      }
      if ctx.Some? && ctx.value.undoUntil.Some? {
        return;
      }
      suspend := Some(reason);
    }

    method OnSuspendAlarm()
      modifies this
      ensures View() == NextAlarm(old(View()))
    {
      if finished || suspend.None? || ctx.None? || ctx.value.suspended || ctx.value.undoUntil.Some? {
        return;
      }
      ctx := Some(ctx.value.(suspended := true));
      raised := raised + [Suspended(suspend.value)];
    }

    method AtSafePoint()
      modifies this
      ensures View() == NextSafePoint(old(View()))
    {
      if ctx.None? || ctx.value.suspended || ctx.value.undoUntil.Some? {
        return;
      }
      if suspend.Some? {
        ctx := Some(ctx.value.(suspended := true));
        raised := raised + [Suspended(suspend.value)];
      }
    }
  }
}
