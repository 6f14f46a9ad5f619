/** The termination state machine of the sentry: which signals the child is sent, in which order. */
module Escalation {
  import opened Common
  import opened Timers

  const SIGABRT := 6
  const SIGKILL := 9
  const SIGTERM := 15

  datatype Cause = Terminate | Abort

  /** A signal plan as the code stores it: the signals in order, ended by a zero. */
  function SignalPlan(cause: Cause): seq<int> {
    match cause
    case Terminate => [SIGTERM, SIGKILL, 0]
    case Abort => [SIGABRT, SIGKILL, 0]
  }

  /** A pointer into a signal plan. */
  datatype Pointer = Pointer(cause: Cause, step: nat)

  /** The pointer and its timer; the period is the configured delay between signals. */
  datatype Termination = Termination(plan: Option<Pointer>, timer: Timer, period: nat)

  function NewTermination(period: nat): Termination {
    Termination(None, Timer(0, 0), period)
  }

  /** activateFdTimerTermination_: only the first activation has an effect. */
  function Activate(t: Termination, cause: Cause, now: int): Termination {
    if t.timer.Armed() then t
    else Termination(Some(Pointer(cause, 0)), Timer(0, t.period).Triggered(now), t.period)
  }

  predicate PointsAtSignal(t: Termination) {
    t.plan.Some? && t.plan.value.step < 2
  }

  /** pollFdTimerTermination_: the signal that is sent. */
  function SignalSent(t: Termination): int
    requires PointsAtSignal(t)
  {
    SignalPlan(t.plan.value.cause)[t.plan.value.step]
  }

  function Advanced(t: Termination, now: int): Termination
    requires PointsAtSignal(t)
  {
    var p := t.plan.value;
    t.(timer := t.timer.Lapped(now),
       plan := Some(if SignalPlan(p.cause)[p.step + 1] != 0 then p.(step := p.step + 1) else p))
  }

  // ------------------------------------------------------------------------------------------
  // Sequences of activations and timer firings

  datatype Event = Activates(cause: Cause, now: int) | Fires(now: int)

  predicate Possible(t: Termination, e: Event) {
    e.Fires? ==> t.timer.Armed() && PointsAtSignal(t)
  }

  function Next(t: Termination, e: Event): Termination
    requires Possible(t, e)
  {
    match e
    case Activates(cause, now) => Activate(t, cause, now)
    case Fires(now) => Advanced(t, now)
  }

  ghost predicate AllPossible(t: Termination, events: seq<Event>)
    decreases |events|
  {
    events != [] ==> Possible(t, events[0]) && AllPossible(Next(t, events[0]), events[1..])
  }

  /** The signals sent in the course of the events. */
  ghost function Signals(t: Termination, events: seq<Event>): seq<int>
    requires AllPossible(t, events)
    decreases |events|
  {
    if events == [] then []
    else (if events[0].Fires? then [SignalSent(t)] else []) + Signals(Next(t, events[0]), events[1..])
  }

  function Firings(events: seq<Event>): nat {
    if events == [] then 0 else (if events[0].Fires? then 1 else 0) + Firings(events[1..])
  }

  /** The first n signals of a plan that ends by repeating its last signal. */
  function Escalating(first: int, n: nat): seq<int> {
    if n == 0 then [] else [first] + Repeat(SIGKILL, n - 1)
  }

  predicate Active(t: Termination) {
    t.timer.Armed() && PointsAtSignal(t)
  }

  lemma {:induction false} ActivePlanEscalates(t: Termination, events: seq<Event>)
    requires Active(t) && AllPossible(t, events)
    ensures Signals(t, events) == Escalating(SignalSent(t), Firings(events))
    decreases |events|
  {
    if events == [] {
    } else if events[0].Activates? {
      ActivePlanEscalates(t, events[1..]);
    } else {
      var u := Next(t, events[0]);
      ActivePlanEscalates(u, events[1..]);
      assert SignalSent(u) == SIGKILL;
      assert Escalating(SIGKILL, Firings(events[1..])) == Repeat(SIGKILL, Firings(events[1..]));
    }
  }

  /** For every sequence of parent deaths, umbilical losses, tether timeouts and timer firings: the child
      is sent the signal of the first cause once and then only SIGKILL, one signal for each firing;
      before the first cause there is nothing to fire. */
  lemma SignalsEscalate(period: nat, events: seq<Event>)
    requires period > 0 && AllPossible(NewTermination(period), events)
    ensures events == [] || events[0].Activates?
    ensures Signals(NewTermination(period), events) ==
            if events == [] then [] else Escalating(SignalPlan(events[0].cause)[0], Firings(events[1..]))
  {
    if events != [] {
      ActivePlanEscalates(Next(NewTermination(period), events[0]), events[1..]);
    }
  }

  ghost function After(t: Termination, events: seq<Event>): Termination
    requires AllPossible(t, events)
    decreases |events|
  {
    if events == [] then t else After(Next(t, events[0]), events[1..])
  }

  /** The plan is set exactly when the timer is active, so the assertion in the activation holds, and the
      pointer never reaches the sentinel. */
  lemma {:induction false} PlanIffTimer(t: Termination, events: seq<Event>)
    requires t.period > 0 && AllPossible(t, events)
    requires (t.plan.Some? <==> t.timer.Armed()) && (t.plan.Some? ==> PointsAtSignal(t))
    ensures var u := After(t, events);
            (u.plan.Some? <==> u.timer.Armed()) && (u.plan.Some? ==> PointsAtSignal(u)) && u.period == t.period
    decreases |events|
  {
    if events != [] {
      PlanIffTimer(Next(t, events[0]), events[1..]);
    }
  }

  /** The first signal is due at once, each further one a period after the one before, as long as the
      timer fires less than a period late; and a later cause changes nothing. */
  lemma PlanKeepsItsPace(t: Termination, cause: Cause, later: Cause, now: int, firing: int)
    requires !t.timer.Armed() && t.period > 0
    ensures var u := Activate(t, cause, now);
            && u.timer.Due() == now && Activate(u, later, firing) == u
            && (now <= firing < now + t.period ==> Advanced(u, firing).timer.Due() == now + t.period)
  {
    var u := Activate(t, cause, now);
    if now <= firing < now + t.period {
      LapKeepsPhase(u.timer, firing);
    }
  }

  /** The assertion in the activation: no plan is set while the timer is not active. */
  ghost predicate AssertionsHold(t: Termination, events: seq<Event>)
    requires AllPossible(t, events)
    decreases |events|
  {
    events != [] ==>
      && (events[0].Activates? && !t.timer.Armed() ==> t.plan.None?)
      && AssertionsHold(Next(t, events[0]), events[1..])
  }

  lemma {:induction false} DelayKeepsAssertions(t: Termination, events: seq<Event>)
    requires t.period > 0 && AllPossible(t, events) && (t.plan.Some? <==> t.timer.Armed())
    ensures AssertionsHold(t, events)
    decreases |events|
  {
    if events != [] {
      DelayKeepsAssertions(Next(t, events[0]), events[1..]);
    }
  }

  lemma ActivateFirst(t: Termination, cause: Cause, now: int, later: seq<Event>)
    requires AllPossible(Activate(t, cause, now), later)
    ensures var events := [Activates(cause, now)] + later;
            AllPossible(t, events) &&
            (AssertionsHold(t, events) <==>
             (!t.timer.Armed() ==> t.plan.None?) && AssertionsHold(Activate(t, cause, now), later))
  {
    assert ([Activates(cause, now)] + later)[1..] == later;
  }

  /** With no delay the second activation finds a plan and an inactive timer. */
  lemma NoDelayBreaksAssertions() returns (events: seq<Event>)
    ensures AllPossible(NewTermination(0), events) && !AssertionsHold(NewTermination(0), events)
  {
    hide AllPossible, AssertionsHold;
    var t := NewTermination(0);
    var u := Activate(t, Terminate, 0);
    assert AllPossible(Activate(u, Abort, 0), []) by { NothingIsPossible(Activate(u, Abort, 0)); }
    ActivateFirst(u, Abort, 0, []);
    events := [Activates(Abort, 0)] + [];
    ActivateFirst(t, Terminate, 0, events);
    events := [Activates(Terminate, 0)] + events;
  }

  lemma NothingIsPossible(t: Termination)
    ensures AllPossible(t, [])
  {
  }

  /** In every sequence of activations and firings the assertion holds, if and only if the delay between
      the signals is not zero: which is what the option parser sees to. */
  lemma AssertionNeedsDelay(period: nat)
    ensures (forall events :: AllPossible(NewTermination(period), events) ==>
               AssertionsHold(NewTermination(period), events)) <==> period > 0
  {
    if period > 0 {
      forall events | AllPossible(NewTermination(period), events)
        ensures AssertionsHold(NewTermination(period), events)
      {
        DelayKeepsAssertions(NewTermination(period), events);
      }
    } else {
      var events := NoDelayBreaksAssertions();
    }
  }
}
