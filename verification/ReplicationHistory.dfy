/**
 * What a replication command has been through, told from the events alone:
 * which request to stop counts, when it is honoured, and what it is given to
 * roll back. The state of the handlers is this, after any events.
 */
module ReplicationHistory {
  import opened ReplicationSignals
  import opened Wrappers

  const MINUTES := 60

  ghost predicate ResultBuilt(es: seq<Event>) {
    exists i :: 0 <= i < |es| && es[i].BlockSignals?
  }

  ghost predicate Contexted(es: seq<Event>) {
    exists i :: 0 <= i < |es| && es[i].MakeContext?
  }

  /** A rollback of the command begins here: the first one asked for once there is a context. */
  ghost predicate UndoAt(es: seq<Event>, j: int) {
    && 0 <= j < |es| && es[j].BeginUndo? && Contexted(es[..j])
    && forall k :: 0 <= k < j && es[k].BeginUndo? ==> !Contexted(es[..k])
  }

  ghost predicate UndoBegun(es: seq<Event>) {
    exists j :: UndoAt(es, j)
  }

  /** A request to stop still counts. */
  ghost predicate Stoppable(es: seq<Event>) {
    !ResultBuilt(es) && !UndoBegun(es)
  }

  predicate Asks(e: Event) {
    e.CancelSignal? || e.SuspendSignal?
  }

  /** The request that counts: the first, if it came in time. */
  ghost predicate AskAt(es: seq<Event>, i: int) {
    && 0 <= i < |es| && Asks(es[i]) && Stoppable(es[..i])
    && forall k :: 0 <= k < i ==> !Asks(es[k])
  }

  ghost predicate ToCancel(es: seq<Event>, name: string) {
    exists i :: AskAt(es, i) && es[i] == CancelSignal(name)
  }

  ghost predicate ToSuspend(es: seq<Event>, reason: string) {
    exists i :: AskAt(es, i) && es[i] == SuspendSignal(reason)
  }

  /** A shutdown asked for before is honoured here: at a safe point, or by the alarm as long as the result is not built. */
  ghost predicate HonouredAt(es: seq<Event>, k: int, reason: string) {
    && 0 <= k < |es| && ToSuspend(es[..k], reason) && Contexted(es[..k]) && !UndoBegun(es[..k])
    && (es[k].SafePoint? || (es[k].SuspendAlarm? && !ResultBuilt(es[..k])))
  }

  ghost predicate Honoured(es: seq<Event>, reason: string) {
    exists k :: HonouredAt(es, k, reason)
  }

  function Clock(es: seq<Event>): nat {
    if es == [] then 0
    else Clock(es[..|es| - 1]) + (if es[|es| - 1].Tick? then es[|es| - 1].seconds else 0)
  }

  /** The context's own setting is that of the first context; without one, or with none set, a rollback has four minutes. */
  ghost predicate Grants(es: seq<Event>, total: nat) {
    if exists i :: SetAt(es, i) then exists i :: SetAt(es, i) && total == (if es[i].undoTotal == 0 then 4 * MINUTES else es[i].undoTotal)
    else total == 4 * MINUTES
  }

  ghost predicate SetAt(es: seq<Event>, i: int) {
    0 <= i < |es| && es[i].MakeContext? && forall k :: 0 <= k < i ==> !es[k].MakeContext?
  }

  /** What is granted at the i-th event lasts until then. */
  ghost predicate Until(es: seq<Event>, i: int, now: int, limit: int)
    requires 0 <= i < |es|
  {
    exists total: nat :: Grants(es[..i], total) && limit == now + Clock(es[..i]) + total
  }

  /** A second signal takes its default effect here: the time granted for the rollback is over. */
  ghost predicate KilledAt(es: seq<Event>, k: int, now: int) {
    && 0 <= k < |es| && es[k].CancelSignal? && !ResultBuilt(es[..k]) && (forall reason :: !ToSuspend(es[..k], reason))
    && exists i, limit: int :: 0 <= i < k && Until(es, i, now, limit) && limit <= now + Clock(es[..k])
         && if UndoBegun(es[..k]) then UndoAt(es[..k], i) else AskAt(es[..k], i)
  }

  // --- one event more --------------------------------------------------------------------------

  lemma {:induction false} PrefixOfPrefix(es: seq<Event>, e: Event)
    ensures (es + [e])[..|es|] == es && forall i :: 0 <= i <= |es| ==> (es + [e])[..i] == es[..i]
    ensures forall i :: 0 <= i < |es| ==> (es + [e])[i] == es[i]
  {
  }

  lemma {:induction false} ContextedMore(es: seq<Event>, e: Event)
    ensures Contexted(es + [e]) <==> Contexted(es) || e.MakeContext?
  {
    var all := es + [e];
    assert all[|es|] == e;
    if i :| 0 <= i < |es| && es[i].MakeContext? {
      assert all[i].MakeContext?;
    }
  }

  lemma {:induction false} SetMore(es: seq<Event>, e: Event)
    ensures forall i :: SetAt(es + [e], i) <==> SetAt(es, i) || (i == |es| && e.MakeContext? && !Contexted(es))
  {
    PrefixOfPrefix(es, e);
  }

  lemma {:induction false} FirstSet(es: seq<Event>)
    ensures Contexted(es) <==> exists i :: SetAt(es, i)
  {
    if es == [] {
    } else {
      var n := |es| - 1;
      assert es == es[..n] + [es[n]];
      FirstSet(es[..n]);
      ContextedMore(es[..n], es[n]);
      SetMore(es[..n], es[n]);
      if Contexted(es) {
        if i :| SetAt(es[..n], i) {
          assert SetAt(es, i);
        } else {
          assert SetAt(es, n);
        }
      }
    }
  }

  lemma {:induction false} UndoMore(es: seq<Event>, e: Event)
    ensures forall j :: UndoAt(es + [e], j) <==> UndoAt(es, j) || (j == |es| && e.BeginUndo? && Contexted(es) && !UndoBegun(es))
  {
    hide Contexted;
    PrefixOfPrefix(es, e);
    FirstUndo(es);
  }

  lemma {:induction false} FirstUndo(es: seq<Event>)
    ensures UndoBegun(es) <==> exists k :: 0 <= k < |es| && es[k].BeginUndo? && Contexted(es[..k])
    decreases |es|
  {
    hide Contexted;
    if k :| 0 <= k < |es| && es[k].BeginUndo? && Contexted(es[..k]) {
      if i :| 0 <= i < k && es[i].BeginUndo? && Contexted(es[..i]) {
        PrefixesOf(es, k);
        FirstUndo(es[..k]);
        assert es[..k][i].BeginUndo? && Contexted(es[..k][..i]);
        var j :| UndoAt(es[..k], j);
        assert UndoAt(es, j);
      } else {
        assert UndoAt(es, k);
      }
    }
  }

  lemma {:induction false} PrefixesOf(es: seq<Event>, k: nat)
    requires k <= |es|
    ensures forall i :: 0 <= i <= k ==> es[..k][..i] == es[..i]
    ensures forall i :: 0 <= i < k ==> es[..k][i] == es[i]
  {
  }

  lemma {:induction false} UndoBegunMore(es: seq<Event>, e: Event)
    ensures UndoBegun(es + [e]) <==> UndoBegun(es) || (e.BeginUndo? && Contexted(es))
  {
    hide UndoAt, Contexted;
    UndoMore(es, e);
    if e.BeginUndo? && Contexted(es) && !UndoBegun(es) {
      assert UndoAt(es + [e], |es|);
    }
    if j :| UndoAt(es, j) {
      assert UndoAt(es + [e], j);
    }
  }

  lemma {:induction false} ResultMore(es: seq<Event>, e: Event)
    ensures ResultBuilt(es + [e]) <==> ResultBuilt(es) || e.BlockSignals?
  {
    var all := es + [e];
    assert all[|es|] == e;
    if i :| 0 <= i < |es| && es[i].BlockSignals? {
      assert all[i].BlockSignals?;
    }
  }

  /** Once too late, always too late. */
  lemma {:induction false} StoppableBefore(es: seq<Event>, i: nat)
    requires i <= |es| && Stoppable(es)
    ensures Stoppable(es[..i])
    decreases |es|
  {
    hide UndoBegun, ResultBuilt;
    if i < |es| {
      var n := |es| - 1;
      assert es == es[..n] + [es[n]];
      UndoBegunMore(es[..n], es[n]);
      ResultMore(es[..n], es[n]);
      StoppableBefore(es[..n], i);
      assert es[..n][..i] == es[..i];
    } else {
      assert es[..i] == es;
    }
  }

  ghost predicate NoAsk(es: seq<Event>) {
    forall k :: 0 <= k < |es| ==> !Asks(es[k])
  }

  lemma {:induction false} AskMore(es: seq<Event>, e: Event)
    ensures forall i :: AskAt(es + [e], i) <==> AskAt(es, i) || (i == |es| && Asks(e) && Stoppable(es) && NoAsk(es))
  {
    hide Stoppable;
    PrefixOfPrefix(es, e);
  }

  /** While it is not too late, a request that came counts. */
  lemma {:induction false} SomeAsk(es: seq<Event>)
    requires Stoppable(es) && !NoAsk(es)
    ensures exists i :: AskAt(es, i)
    decreases |es|
  {
    hide Stoppable;
    var n := |es| - 1;
    assert es == es[..n] + [es[n]];
    StoppableBefore(es, n);
    AskMore(es[..n], es[n]);
    if NoAsk(es[..n]) {
      assert AskAt(es, n);
    } else {
      SomeAsk(es[..n]);
    }
  }

  lemma {:induction false} OneAsk(es: seq<Event>, i: int, j: int)
    requires AskAt(es, i) && AskAt(es, j)
    ensures i == j
  {
    hide Stoppable;
  }

  lemma {:induction false} CancelMore(es: seq<Event>, e: Event, name: string)
    ensures ToCancel(es + [e], name) <==> ToCancel(es, name) || (e == CancelSignal(name) && Stoppable(es) && NoAsk(es))
  {
    hide Stoppable, AskAt, NoAsk;
    var all := es + [e];
    AskMore(es, e);
    AskInside(es);
    assert all[|es|] == e;
    if i :| AskAt(es, i) && es[i] == CancelSignal(name) {
      assert AskAt(all, i) && all[i] == es[i];
    }
    if e == CancelSignal(name) && Stoppable(es) && NoAsk(es) {
      assert AskAt(all, |es|);
    }
  }

  lemma {:induction false} AskInside(es: seq<Event>)
    ensures forall i :: AskAt(es, i) ==> 0 <= i < |es|
  {
  }

  lemma {:induction false} SuspendMore(es: seq<Event>, e: Event, reason: string)
    ensures ToSuspend(es + [e], reason) <==> ToSuspend(es, reason) || (e == SuspendSignal(reason) && Stoppable(es) && NoAsk(es))
  {
    hide Stoppable, AskAt, NoAsk;
    var all := es + [e];
    AskMore(es, e);
    AskInside(es);
    assert all[|es|] == e;
    if i :| AskAt(es, i) && es[i] == SuspendSignal(reason) {
      assert AskAt(all, i) && all[i] == es[i];
    }
    if e == SuspendSignal(reason) && Stoppable(es) && NoAsk(es) {
      assert AskAt(all, |es|);
    }
  }

  ghost predicate HonouredNow(es: seq<Event>, e: Event, reason: string) {
    && ToSuspend(es, reason) && Contexted(es) && !UndoBegun(es)
    && (e.SafePoint? || (e.SuspendAlarm? && !ResultBuilt(es)))
  }

  lemma {:induction false} HonouredMore(es: seq<Event>, e: Event, reason: string)
    ensures Honoured(es + [e], reason) <==> Honoured(es, reason) || HonouredNow(es, e, reason)
  {
    hide ToSuspend, Contexted, UndoBegun, ResultBuilt;
    PrefixOfPrefix(es, e);
    var all := es + [e];
    assert all[|es|] == e;
    if k :| HonouredAt(es, k, reason) {
      assert HonouredAt(all, k, reason);
    }
    if HonouredNow(es, e, reason) {
      assert HonouredAt(all, |es|, reason);
    }
    if k :| HonouredAt(all, k, reason) && k < |es| {
      assert HonouredAt(es, k, reason);
    }
  }

  lemma {:induction false} ClockMore(es: seq<Event>, e: Event)
    ensures Clock(es + [e]) == Clock(es) + (if e.Tick? then e.seconds else 0)
  {
    assert (es + [e])[..|es|] == es;
  }

  // --- the state is the history -----------------------------------------------------------------

  ghost predicate Flags(s: State, now: int, es: seq<Event>) {
    && s.finished == ResultBuilt(es) && s.ctx.Some? == Contexted(es) && Undoing(s) == UndoBegun(es) && s.now == now + Clock(es)
    && Grants(es, UndoTotal(s))
  }

  /** Stopped for the request that counts, and for it alone; raised at once for a cancellation, when honoured for a shutdown. */
  ghost predicate Stops(s: State, es: seq<Event>) {
    && (forall name :: s.signal == Some(name) <==> ToCancel(es, name))
    && (forall reason :: s.suspend == Some(reason) <==> ToSuspend(es, reason))
    && (forall name :: Cancelled(name) in s.raised <==> ToCancel(es, name))
    && (forall reason :: Suspended(reason) in s.raised <==> Honoured(es, reason))
  }

  ghost predicate Limits(s: State, now: int, es: seq<Event>) {
    && (s.signal.Some? ==> s.deadline.Some? && exists i :: AskAt(es, i) && Until(es, i, now, s.deadline.value))
    && (Undoing(s) ==> exists j :: UndoAt(es, j) && Until(es, j, now, s.ctx.value.undoUntil.value))
  }

  lemma {:induction false} GrantsMore(es: seq<Event>, e: Event, total: nat)
    ensures Grants(es + [e], total) <==>
      if e.MakeContext? && !Contexted(es) then total == (if e.undoTotal == 0 then 4 * MINUTES else e.undoTotal) else Grants(es, total)
  {
    hide SetAt;
    var all := es + [e];
    FirstSet(es);
    SetMore(es, e);
    SetInside(es);
    assert all[|es|] == e && forall i :: 0 <= i < |es| ==> all[i] == es[i];
    if e.MakeContext? && !Contexted(es) {
      assert SetAt(all, |es|);
    } else {
      assert forall i :: SetAt(all, i) <==> SetAt(es, i);
    }
  }

  lemma {:induction false} SetInside(es: seq<Event>)
    ensures forall i :: SetAt(es, i) ==> 0 <= i < |es| && es[i].MakeContext?
  {
  }

  lemma {:induction false} FlagsMore(s: State, now: int, es: seq<Event>, e: Event)
    requires Flags(s, now, es) && !s.killed
    ensures Flags(Next(s, e), now, es + [e])
  {
    hide ResultBuilt, Contexted, UndoBegun, Grants, Clock;
    ResultMore(es, e);
    ContextedMore(es, e);
    UndoBegunMore(es, e);
    ClockMore(es, e);
    GrantsMore(es, e, UndoTotal(Next(s, e)));
  }

  lemma {:induction false} NothingYet(s: State, now: int, es: seq<Event>)
    requires Flags(s, now, es) && Stops(s, es)
    ensures !s.finished && !Undoing(s) && s.signal.None? && s.suspend.None? <==> Stoppable(es) && NoAsk(es)
  {
    hide ResultBuilt, Contexted, UndoBegun, Grants, Clock, Honoured, NoAsk;
    NoneAsked(es);
    if Stoppable(es) && !NoAsk(es) {
      SomeAsk(es);
      AskIsEither(es);
    }
  }

  lemma {:induction false} NoneAsked(es: seq<Event>)
    ensures NoAsk(es) ==> (forall name :: !ToCancel(es, name)) && forall reason :: !ToSuspend(es, reason)
  {
    hide Stoppable;
  }

  lemma {:induction false} AskIsEither(es: seq<Event>)
    requires exists i :: AskAt(es, i)
    ensures (exists name :: ToCancel(es, name)) || exists reason :: ToSuspend(es, reason)
  {
    hide Stoppable;
    var i :| AskAt(es, i);
    match es[i] {
      case CancelSignal(name) => assert ToCancel(es, name);
      case SuspendSignal(reason) => assert ToSuspend(es, reason);
      case _ =>
    }
  }

  lemma {:induction false} StopsMore(s: State, now: int, es: seq<Event>, e: Event)
    requires Flags(s, now, es) && Stops(s, es) && Valid(s) && !s.killed
    ensures Stops(Next(s, e), es + [e])
  {
    hide ResultBuilt, Contexted, UndoBegun, Grants, Clock, Honoured, NoAsk, ToCancel, ToSuspend;
    var s' := Next(s, e);
    NothingYet(s, now, es);
    NextKeepsValid(s, e);
    forall name
      ensures s'.signal == Some(name) <==> ToCancel(es + [e], name)
      ensures Cancelled(name) in s'.raised <==> ToCancel(es + [e], name)
    {
      CancelMore(es, e, name);
    }
    forall reason
      ensures s'.suspend == Some(reason) <==> ToSuspend(es + [e], reason)
    {
      SuspendMore(es, e, reason);
    }
    forall reason
      ensures Suspended(reason) in s'.raised <==> Honoured(es + [e], reason)
    {
      HonouredMore(es, e, reason);
    }
  }

  lemma {:induction false} UntilMore(es: seq<Event>, e: Event, i: int, now: int, limit: int)
    requires 0 <= i < |es|
    ensures Until(es + [e], i, now, limit) <==> Until(es, i, now, limit)
  {
    PrefixOfPrefix(es, e);
  }

  lemma {:induction false} LimitsMore(s: State, now: int, es: seq<Event>, e: Event)
    requires Flags(s, now, es) && Stops(s, es) && Valid(s) && !s.killed && Limits(s, now, es)
    ensures Limits(Next(s, e), now, es + [e])
  {
    hide ResultBuilt, Contexted, Grants, Clock, Honoured, NoAsk, ToCancel, ToSuspend, AskAt, UndoAt, Until;
    var s', all := Next(s, e), es + [e];
    NothingYet(s, now, es);
    AskMore(es, e);
    UndoMore(es, e);
    AskInside(es);
    UndoInside(es);
    UntilNow(s, now, es, e);
    if s.signal.Some? {
      var i :| AskAt(es, i) && Until(es, i, now, s.deadline.value);
      UntilMore(es, e, i, now, s.deadline.value);
    }
    if Undoing(s) {
      var j :| UndoAt(es, j) && Until(es, j, now, s.ctx.value.undoUntil.value);
      UntilMore(es, e, j, now, s.ctx.value.undoUntil.value);
    }
  }

  lemma {:induction false} UndoInside(es: seq<Event>)
    ensures forall i :: UndoAt(es, i) ==> 0 <= i < |es|
  {
  }

  /** What is granted now. */
  lemma {:induction false} UntilNow(s: State, now: int, es: seq<Event>, e: Event)
    requires Flags(s, now, es)
    ensures Until(es + [e], |es|, now, s.now + UndoTotal(s))
  {
    hide Grants, Clock, UndoTotal;
    PrefixOfPrefix(es, e);
  }

  lemma {:induction false} OneGrant(es: seq<Event>, a: nat, b: nat)
    requires Grants(es, a) && Grants(es, b)
    ensures a == b
  {
  }

  lemma {:induction false} OneLimit(es: seq<Event>, i: int, now: int, a: int, b: int)
    requires 0 <= i < |es| && Until(es, i, now, a) && Until(es, i, now, b)
    ensures a == b
  {
    hide Grants, Clock;
    var m: nat :| Grants(es[..i], m) && a == now + Clock(es[..i]) + m;
    var n: nat :| Grants(es[..i], n) && b == now + Clock(es[..i]) + n;
    OneGrant(es[..i], m, n);
  }

  lemma {:induction false} OneUndo(es: seq<Event>, i: int, j: int)
    requires UndoAt(es, i) && UndoAt(es, j)
    ensures i == j
  {
    hide Contexted;
  }

  /** A second signal past the limit, and it alone. */
  lemma {:induction false} KillsNow(s: State, now: int, es: seq<Event>, e: Event)
    requires Flags(s, now, es) && Stops(s, es) && Valid(s) && !s.killed && Limits(s, now, es)
    ensures Next(s, e).killed <==> KilledAt(es + [e], |es|, now)
  {
    hide ResultBuilt, Contexted, Grants, Clock, Honoured, NoAsk, ToCancel, ToSuspend, AskAt, UndoAt, Until;
    var all := es + [e];
    PrefixOfPrefix(es, e);
    NothingYet(s, now, es);
    AskInside(es);
    UndoInside(es);
    assert all[|es|] == e;
    if Next(s, e).killed {
      if Undoing(s) {
        var j :| UndoAt(es, j) && Until(es, j, now, s.ctx.value.undoUntil.value);
        UntilMore(es, e, j, now, s.ctx.value.undoUntil.value);
      } else {
        var i :| AskAt(es, i) && Until(es, i, now, s.deadline.value);
        UntilMore(es, e, i, now, s.deadline.value);
      }
    }
    if KilledAt(all, |es|, now) {
      var i, limit: int :| 0 <= i < |es| && Until(all, i, now, limit) && limit <= now + Clock(es)
        && if UndoBegun(es) then UndoAt(es, i) else AskAt(es, i);
      UntilMore(es, e, i, now, limit);
      if Undoing(s) {
        var j :| UndoAt(es, j) && Until(es, j, now, s.ctx.value.undoUntil.value);
        OneUndo(es, i, j);
        OneLimit(es, i, now, limit, s.ctx.value.undoUntil.value);
      } else {
        AskedIs(s, es, i);
        var j :| AskAt(es, j) && Until(es, j, now, s.deadline.value);
        OneAsk(es, i, j);
        OneLimit(es, i, now, limit, s.deadline.value);
      }
    }
  }

  lemma {:induction false} AskedIs(s: State, es: seq<Event>, i: int)
    requires Stops(s, es) && AskAt(es, i) && forall reason :: !ToSuspend(es, reason)
    ensures s.signal.Some?
  {
    hide Honoured, Stoppable;
    AskIsEither(es);
    var name :| ToCancel(es, name);
  }

  lemma {:induction false} KilledMore(es: seq<Event>, e: Event, k: int, now: int)
    requires 0 <= k < |es|
    ensures KilledAt(es + [e], k, now) <==> KilledAt(es, k, now)
  {
    hide ResultBuilt, ToSuspend, UndoBegun, UndoAt, AskAt, Clock, Until;
    PrefixOfPrefix(es, e);
    forall i, limit: int | 0 <= i < k
      ensures Until(es + [e], i, now, limit) <==> Until(es, i, now, limit)
    {
      UntilMore(es, e, i, now, limit);
    }
  }

  /**
   * After any events: killed if and only if some cancelling signal came past
   * the time granted; and as long as it is not, the handlers hold exactly what
   * the events tell.
   */
  lemma {:induction false} HistoryTells(now: int, es: seq<Event>)
    ensures var s := Run(Configured(now), es);
      && (s.killed <==> exists k :: KilledAt(es, k, now))
      && (!s.killed ==> Flags(s, now, es) && Stops(s, es) && Limits(s, now, es))
    decreases |es|
  {
    hide Flags, Stops, Limits, KilledAt, Configured;
    if es == [] {
      Beginning(now);
    } else {
      var n := |es| - 1;
      var before, e := es[..n], es[n];
      assert es == before + [e];
      HistoryTells(now, before);
      RunAppend(Configured(now), before, [e]);
      var s := Run(Configured(now), before);
      assert Run(s, [e]) == Next(s, e) by {
        assert [e][1..] == [];
      }
      forall k | 0 <= k < n
        ensures KilledAt(es, k, now) <==> KilledAt(before, k, now)
      {
        KilledMore(before, e, k, now);
      }
      KilledInside(es, now);
      KilledInside(before, now);
      if !s.killed {
        StartValid(now);
        RunKeepsValid(Configured(now), before);
        FlagsMore(s, now, before, e);
        StopsMore(s, now, before, e);
        LimitsMore(s, now, before, e);
        KillsNow(s, now, before, e);
      }
    }
  }

  lemma {:induction false} StartValid(now: int)
    ensures Valid(Configured(now))
  {
  }

  lemma {:induction false} KilledInside(es: seq<Event>, now: int)
    ensures forall k :: KilledAt(es, k, now) ==> 0 <= k < |es|
  {
  }

  lemma {:induction false} Beginning(now: int)
    ensures var s := Configured(now); Run(s, []) == s && !s.killed && Flags(s, now, []) && Stops(s, []) && Limits(s, now, [])
    ensures forall k :: !KilledAt([], k, now)
  {
  }
}
