/**
 * Following a virtual machine until it reaches a state (bin/harvester-kvm.py,
 * follow_state). Times are in seconds; the host answers as it likes, within
 * the time it was given.
 */
module KvmFollow {
  const POLL_INTERVAL := 2.0
  const MIN_CALL_TIMEOUT := 5.0
  const RETRY_KINDS := {"unreachable", "timeout"}

  datatype Reply = State(state: string) | Refused(kind: string)
  datatype Answer = Answer(took: real, reply: Reply)

  datatype Outcome =
    | Reached(state: string, elapsed: real)
    | TimedOut(state: string, elapsed: real)
    | Raised(kind: string)

  /** What happened, in order, with the times at which it began and ended. */
  datatype Event =
    | Slept(from: real, until: real)
    | Called(from: real, until: real, budget: int, reply: Reply)

  function Ceil(x: real): (n: int)
    ensures x <= n as real < x + 1.0
  {
    -(-x).Floor
  }

  function Min(a: real, b: real): real {
    if a < b then a else b
  }

  function Max(a: real, b: real): real {
    if a < b then b else a
  }

  /** An error that is worth asking again for. */
  ghost predicate Passing(kind: string) {
    kind == "unreachable" || kind == "timeout"
  }

  /** The answer goes on being awaited: an accepted state, another error, or the deadline end the wait. */
  ghost predicate Inconclusive(e: Event, accept: set<string>, deadline: real) {
    e.Called? ==>
      && e.until < deadline
      && (match e.reply case State(s) => s !in accept case Refused(kind) => Passing(kind))
  }

  /**
   * A sleep of the interval, cut at the deadline; a call that is given the time
   * left, no more than the host's own and no less than the minimum, in whole
   * seconds rounded up.
   */
  ghost predicate AsLongAs(e: Event, deadline: real, hostTimeout: real) {
    match e
    case Slept(from, until) =>
      if deadline <= from then until == from else if deadline < from + 2.0 then until == deadline else until == from + 2.0
    case Called(from, until, budget, _) =>
      && budget >= 5 && (budget as real >= hostTimeout || budget as real >= deadline - from)
      && (budget > 5 ==> budget as real < hostTimeout + 1.0 && budget as real < deadline - from + 1.0)
      && from <= until <= from + budget as real
  }

  /** A stretch of the wait: each part as long as it should be, and nothing yet to stop on. */
  ghost predicate Quiet(run: seq<Event>, accept: set<string>, deadline: real, hostTimeout: real) {
    forall e :: e in run ==> AsLongAs(e, deadline, hostTimeout) && Inconclusive(e, accept, deadline)
  }

  /** Calls and sleeps in turn, each beginning where the one before ended; the first sleeps if so asked. */
  ghost predicate InTurn(all: seq<Event>, start: real, waitFirst: bool) {
    forall i :: 0 <= i < |all| ==> TurnOf(all, i, start, waitFirst)
  }

  ghost predicate TurnOf(all: seq<Event>, i: int, start: real, waitFirst: bool)
    requires 0 <= i < |all|
  {
    && all[i].from == (if i == 0 then start else all[i - 1].until)
    && (all[i].Slept? <==> (i % 2 == 0 <==> waitFirst))
  }

  /** How a wait that began at `start` ends: on its first conclusive answer, in time. */
  ghost predicate Ended(run: seq<Event>, last: Event, outcome: Outcome, start: real, now: real,
                        accept: set<string>, deadline: real, hostTimeout: real) {
    && Quiet(run, accept, deadline, hostTimeout)
    && last.Called? && last.until == now && AsLongAs(last, deadline, hostTimeout)
    && now <= Max(start, deadline) + 5.0
    && (match last.reply
        case State(s) =>
          if s in accept then outcome == Reached(s, now - start)
          else outcome == TimedOut(s, now - start) && now >= deadline
        case Refused(kind) => outcome == Raised(kind) && (!Passing(kind) || now >= deadline))
  }

  function CallBudget(now: real, deadline: real, hostTimeout: real): int {
    Ceil(Max(MIN_CALL_TIMEOUT, Min(hostTimeout, deadline - now)))
  }

  function Pause(now: real, deadline: real): real {
    Max(0.0, Min(POLL_INTERVAL, deadline - now))
  }

  lemma {:induction false} CallBounds(start: real, now: real, until: real, deadline: real, hostTimeout: real, reply: Reply)
    requires now <= Max(start, deadline)
    requires now <= until <= now + CallBudget(now, deadline, hostTimeout) as real
    ensures AsLongAs(Called(now, until, CallBudget(now, deadline, hostTimeout), reply), deadline, hostTimeout)
    ensures until <= Max(start, deadline) + 5.0
  {
    var budget := Max(MIN_CALL_TIMEOUT, Min(hostTimeout, deadline - now));
    assert CallBudget(now, deadline, hostTimeout) as real < budget + 1.0;
    if budget <= MIN_CALL_TIMEOUT {
      assert CallBudget(now, deadline, hostTimeout) == 5;
    }
  }

  lemma {:induction false} SleepBounds(start: real, now: real, deadline: real, hostTimeout: real)
    requires now <= Max(start, deadline)
    ensures Pause(now, deadline) >= 0.0 && now + Pause(now, deadline) <= Max(start, deadline)
    ensures AsLongAs(Slept(now, now + Pause(now, deadline)), deadline, hostTimeout)
    ensures now < deadline ==> now + Pause(now, deadline) == deadline || Pause(now, deadline) == 2.0
  {
  }

  lemma {:induction false} OneMore(all: seq<Event>, e: Event, start: real, waitFirst: bool)
    requires InTurn(all, start, waitFirst)
    requires e.from == if |all| == 0 then start else all[|all| - 1].until
    requires e.Slept? <==> (|all| % 2 == 0 <==> waitFirst)
    ensures InTurn(all + [e], start, waitFirst)
  {
    var more := all + [e];
    forall i | 0 <= i < |more|
      ensures TurnOf(more, i, start, waitFirst)
    {
      assert i < |all| ==> TurnOf(all, i, start, waitFirst);
      assert more[i] == (if i < |all| then all[i] else e) && (i > 0 ==> more[i - 1] == all[i - 1]);
    }
  }

  lemma {:induction false} QuietMore(run: seq<Event>, call: Event, sleep: Event, accept: set<string>, deadline: real, hostTimeout: real)
    requires Quiet(run, accept, deadline, hostTimeout) && AsLongAs(call, deadline, hostTimeout) && AsLongAs(sleep, deadline, hostTimeout)
    requires Inconclusive(call, accept, deadline) && sleep.Slept?
    ensures Quiet(run + [call] + [sleep], accept, deadline, hostTimeout)
  {
    hide AsLongAs;
  }

  lemma {:induction false} BudgetPositive(now: real, deadline: real, hostTimeout: real)
    ensures CallBudget(now, deadline, hostTimeout) >= 0
  {
  }

  lemma {:induction false} NothingHappened(start: real, accept: set<string>, deadline: real, hostTimeout: real, waitFirst: bool)
    ensures Quiet([], accept, deadline, hostTimeout) && InTurn([], start, waitFirst)
  {
  }

  lemma {:induction false} SleptFirst(sleep: Event, accept: set<string>, deadline: real, hostTimeout: real)
    requires sleep.Slept? && AsLongAs(sleep, deadline, hostTimeout)
    ensures Quiet([sleep], accept, deadline, hostTimeout) && InTurn([sleep], sleep.from, true)
  {
    hide AsLongAs;
  }

  class Session {
    var now: real
    var calls: nat
    ghost var log: seq<Event>
    const answers: (nat, int) -> Answer

    /** The host keeps to the time each call is given. */
    ghost predicate Respectful() {
      forall n: nat, budget: int {:trigger answers(n, budget)} :: budget >= 0 ==>
        0.0 <= answers(n, budget).took <= budget as real
    }

    constructor (now: real, answers: (nat, int) -> Answer)
      ensures this.now == now && this.answers == answers && log == []
    {
      this.now, this.answers, calls, log := now, answers, 0, [];
    }

    method Sleep(seconds: real)
      requires seconds >= 0.0
      modifies `now, `log
      ensures now == old(now) + seconds && log == old(log) + [Slept(old(now), now)]
    {
      log := log + [Slept(now, now + seconds)];
      now := now + seconds;
    }

    /** `domstate` */
    method DomState(budget: int) returns (reply: Reply)
      requires Respectful() && budget >= 0
      modifies `now, `calls, `log
      ensures old(now) <= now <= old(now) + budget as real
      ensures log == old(log) + [Called(old(now), now, budget, reply)]
      ensures calls == old(calls) + 1 && now == old(now) + answers(old(calls), budget).took && reply == answers(old(calls), budget).reply
    {
      var answer := answers(calls, budget);
      reply := answer.reply;
      calls := calls + 1;
      log := log + [Called(now, now + answer.took, budget, reply)];
      now := now + answer.took;
    }

    /**
     * `follow_state`: ends on the first conclusive answer, which is the last
     * event: an accepted state; another state once the deadline is reached; an
     * error that is not worth retrying, or any error at the deadline. It never
     * ends later than the minimum call time after the deadline.
     */
    method Follow(accept: set<string>, timeout: real, hostTimeout: real, waitFirst: bool) returns (outcome: Outcome)
      requires Respectful()
      modifies `now, `calls, `log
      ensures exists run: seq<Event>, last: Event ::
        && log == old(log) + run + [last] && InTurn(run + [last], old(now), waitFirst)
        && Ended(run, last, outcome, old(now), now, accept, old(now) + timeout, hostTimeout)
    {
      hide AsLongAs, InTurn, Quiet, Pause, CallBudget;
      var start := now;
      var deadline := start + timeout;
      NothingHappened(start, accept, deadline, hostTimeout, waitFirst);
      ghost var before, run: seq<Event> := log, [];
      if waitFirst {
        SleepBounds(start, now, deadline, hostTimeout);
        Sleep(Pause(now, deadline));
        SleptFirst(Slept(start, now), accept, deadline, hostTimeout);
        run := [Slept(start, now)];
      }
      while true
        invariant start <= now <= Max(start, deadline)
        invariant log == before + run && Quiet(run, accept, deadline, hostTimeout) && InTurn(run, start, waitFirst)
        invariant |run| % 2 == (if waitFirst then 1 else 0) && now == if run == [] then start else run[|run| - 1].until
        decreases deadline > now, deadline - now
      {
        ghost var from := now;
        BudgetPositive(now, deadline, hostTimeout);
        var reply := DomState(CallBudget(now, deadline, hostTimeout));
        ghost var call := Called(from, now, CallBudget(from, deadline, hostTimeout), reply);
        CallBounds(start, from, now, deadline, hostTimeout, reply);
        OneMore(run, call, start, waitFirst);
        assert log == before + run + [call];
        match reply {
          case Refused(kind) =>
            if kind !in RETRY_KINDS || deadline - now <= 0.0 {
              return Raised(kind);
            }
          case State(state) =>
            if state in accept {
              return Reached(state, now - start);
            }
            if deadline - now <= 0.0 {
              return TimedOut(state, now - start);
            }
        }
        ghost var rested := now;
        SleepBounds(start, now, deadline, hostTimeout);
        Sleep(Pause(now, deadline));
        QuietMore(run, call, Slept(rested, now), accept, deadline, hostTimeout);
        OneMore(run + [call], Slept(rested, now), start, waitFirst);
        run := run + [call] + [Slept(rested, now)];
        assert log == before + run;
      }
    }
  }
}
