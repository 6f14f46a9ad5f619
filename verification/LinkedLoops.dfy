/** The event loop of the sentry and the event loop of the umbilical process, joined by their connection.
    Every callback of the two loops takes the step of Heartbeat that it stands for, or none that Heartbeat
    can see; so whatever is proved about the runs of Heartbeat holds of the two loops, and what their
    callbacks take for granted about the connection is true. */
module LinkedLoops {
  import opened Common
  import opened Timers
  import Heartbeat
  import TetherWatch
  import Escalation
  import ChildLoop
  import UmbilicalLoop

  /** The bytes on their way to the umbilical process, and the number of echoes on their way back. */
  datatype System = System(
    sentry: ChildLoop.Monitor,
    umbilical: UmbilicalLoop.Loop,
    stage: Heartbeat.Stage,
    toUmbilical: seq<Heartbeat.Byte>,
    echoes: nat)

  /** A callback of either loop; or the sentry, which has left its loop, asks the umbilical process to close
      and drains the echoes; or one of the two processes ends. */
  datatype Event =
    | Sentry(monitored: ChildLoop.Event)
    | Umbilical(served: UmbilicalLoop.Event)
    | SentryStops
    | SentryDrains
    | SentryDies
    | UmbilicalDies

  function Start(c: ChildLoop.Settings, now: int, hasServer: bool): System {
    System(ChildLoop.NewMonitor(c, now), UmbilicalLoop.NewLoop(UmbilicalPeriod(c.umbilical), hasServer),
           Heartbeat.Monitoring, [], 0)
  }

  /** What a read finds on the connection. */
  predicate Delivered(s: System, e: Event) {
    match e
    case Sentry(EchoArrives(_)) => 0 < s.echoes
    case Sentry(LinkBreaks(_)) => !s.umbilical.link.open
    case Umbilical(Reads(byte, _)) => s.toUmbilical != [] && s.toUmbilical[0] == byte
    case Umbilical(ReadsEof) => s.toUmbilical == [] && !s.stage.Monitoring?
    case _ => true
  }

  predicate Possible(s: System, e: Event) {
    match e
    case Sentry(x) => s.stage.Monitoring? && ChildLoop.Possible(s.sentry, x) && Delivered(s, e)
    case Umbilical(x) =>
      !UmbilicalLoop.Ended(s.umbilical) && UmbilicalLoop.Possible(s.umbilical, x) && Delivered(s, e)
    case SentryStops => s.stage.Monitoring? && ChildLoop.Completed(s.sentry)
    case SentryDrains => s.stage.Stopping? && 0 < s.echoes
    case SentryDies => !s.stage.Dead?
    case UmbilicalDies => true
  }

  /** Whether the callback of the sentry writes a ping: see ChildMonitor.PollFdTimerUmbilical. */
  predicate WritesPing(m: ChildLoop.Monitor, e: ChildLoop.Event) {
    e.LinkTimerFires? && e.write.Sent? && !Heartbeat.Waiting(m.link)
  }

  /** Whether the callback of the umbilical process writes an echo: see UmbilicalMonitor.PollFdSendEcho. */
  predicate WritesEcho(l: UmbilicalLoop.Loop, e: UmbilicalLoop.Event) {
    e.Echoes? && l.link.open
  }

  function Next(s: System, e: Event): System
    requires Possible(s, e)
  {
    match e
    case Sentry(x) =>
      s.(sentry := ChildLoop.Next(s.sentry, x),
         toUmbilical := s.toUmbilical + if WritesPing(s.sentry, x) then [Heartbeat.Ping] else [],
         echoes := if x.EchoArrives? then s.echoes - 1 else s.echoes)
    case Umbilical(x) =>
      s.(umbilical := UmbilicalLoop.Next(s.umbilical, x),
         toUmbilical := if x.Reads? then s.toUmbilical[1..] else s.toUmbilical,
         echoes := if WritesEcho(s.umbilical, x) then s.echoes + 1 else s.echoes)
    case SentryStops => s.(stage := Heartbeat.Stopping, toUmbilical := s.toUmbilical + [Heartbeat.CloseRequest])
    case SentryDrains => s.(echoes := s.echoes - 1)
    case SentryDies => s.(stage := Heartbeat.Dead)
    case UmbilicalDies =>
      var link := Heartbeat.CloseUmbilicalLink(s.umbilical.link).(latch := false);
      s.(umbilical := s.umbilical.(link := link, serverSlot := false, failed := true))
  }

  // ------------------------------------------------------------------------------------------
  // The two loops refine Heartbeat

  /** What Heartbeat sees of the two loops. */
  function View(s: System): Heartbeat.State {
    Heartbeat.State(s.sentry.link, s.umbilical.link, s.stage, s.toUmbilical, s.echoes)
  }

  /** The event of Heartbeat that an event stands for; callbacks that have nothing to do with the connection
      stand for none. */
  function Seen(e: Event): Option<Heartbeat.Event> {
    match e
    case Sentry(EchoArrives(now)) => Some(Heartbeat.SentryReadsEcho(now))
    case Sentry(LinkBreaks(_)) => Some(Heartbeat.SentryReadsEof)
    case Sentry(LinkTimerFires(now, umbilical, write)) => Some(Heartbeat.SentryTimerFires(now, umbilical, write))
    case Sentry(SentryRuns(now)) => Some(Heartbeat.SentryContinues(now))
    case Sentry(UmbilicalRuns(now)) => Some(Heartbeat.UmbilicalContinues(now))
    case Sentry(_) => None
    case Umbilical(Reads(_, now)) => Some(Heartbeat.UmbilicalReads(now))
    case Umbilical(ReadsEof) => Some(Heartbeat.UmbilicalReadsEof)
    case Umbilical(TimerFires(now, stopped)) => Some(Heartbeat.UmbilicalTimerFires(now, stopped))
    case Umbilical(Echoes) => Some(Heartbeat.UmbilicalEchoes)
    case Umbilical(_) => None
    case SentryStops => Some(Heartbeat.SentryStops)
    case SentryDrains => Some(Heartbeat.SentryDrains)
    case SentryDies => Some(Heartbeat.SentryDies)
    case UmbilicalDies => Some(Heartbeat.UmbilicalDies)
  }

  /** Every callback of the sentry takes the step of Heartbeat that it stands for, and leaves the connection
      alone if it stands for none. */
  lemma SentryStepRefines(s: System, x: ChildLoop.Event)
    requires Possible(s, Sentry(x))
    ensures var e := Sentry(x);
            match Seen(e)
            case None => View(Next(s, e)) == View(s)
            case Some(h) => Heartbeat.Possible(View(s), h) && View(Next(s, e)) == Heartbeat.Next(View(s), h)
  {
    hide Heartbeat.SentryTimer, TetherWatch.TetherTimer, Escalation.Activate, Escalation.Advanced;
    assert s.toUmbilical + [] == s.toUmbilical;
  }

  /** The same for the callbacks of the umbilical process. */
  lemma UmbilicalStepRefines(s: System, x: UmbilicalLoop.Event)
    requires Possible(s, Umbilical(x))
    ensures var e := Umbilical(x);
            match Seen(e)
            case None => View(Next(s, e)) == View(s)
            case Some(h) => Heartbeat.Possible(View(s), h) && View(Next(s, e)) == Heartbeat.Next(View(s), h)
  {
    hide Heartbeat.UmbilicalTimer, Heartbeat.UmbilicalRead;
  }

  lemma StepRefines(s: System, e: Event)
    requires Possible(s, e)
    ensures match Seen(e)
            case None => View(Next(s, e)) == View(s)
            case Some(h) => Heartbeat.Possible(View(s), h) && View(Next(s, e)) == Heartbeat.Next(View(s), h)
  {
    match e
    case Sentry(x) => SentryStepRefines(s, x);
    case Umbilical(x) => UmbilicalStepRefines(s, x);
    case _ =>
  }

  ghost predicate IsRun(
    run: seq<System>, events: seq<Event>, c: ChildLoop.Settings, start: int, hasServer: bool)
  {
    && |run| == |events| + 1
    && run[0] == Start(c, start, hasServer)
    && forall k :: 0 <= k < |events| ==> Possible(run[k], events[k]) && run[k + 1] == Next(run[k], events[k])
  }

  /** What Heartbeat sees of the first n events. */
  function SeenOf(events: seq<Event>, n: nat): seq<Heartbeat.Event>
    requires n <= |events|
  {
    if n == 0 then []
    else SeenOf(events, n - 1) + match Seen(events[n - 1]) case None => [] case Some(h) => [h]
  }

  lemma Extended(
    run: seq<Heartbeat.State>, events: seq<Heartbeat.Event>, period: nat, start: int, e: Heartbeat.Event)
    requires Heartbeat.IsRun(run, events, period, start) && Heartbeat.Possible(run[|events|], e)
    ensures Heartbeat.IsRun(run + [Heartbeat.Next(run[|events|], e)], events + [e], period, start)
  {
    hide Heartbeat.Next, Heartbeat.Possible, Heartbeat.Start;
  }

  /** The two loops refine Heartbeat: every run of the two loops, in whatever order their callbacks come and
      whoever dies, is a run of Heartbeat, step for step, from its initial state for the configured
      umbilical timeout. */
  lemma {:induction false} RunRefines(
    run: seq<System>, events: seq<Event>, c: ChildLoop.Settings, start: int, hasServer: bool, n: nat)
    returns (seen: seq<Heartbeat.State>)
    requires IsRun(run, events, c, start, hasServer) && n <= |events|
    ensures Heartbeat.IsRun(seen, SeenOf(events, n), UmbilicalPeriod(c.umbilical), start)
    ensures seen[|seen| - 1] == View(run[n])
  {
    if n == 0 {
      seen := [View(run[0])];
    } else {
      seen := RunRefines(run, events, c, start, hasServer, n - 1);
      StepRefines(run[n - 1], events[n - 1]);
      hide Next, Possible, View, Seen, Start, Heartbeat.Next, Heartbeat.Possible, Heartbeat.Start;
      match Seen(events[n - 1])
      case None => assert SeenOf(events, n) == SeenOf(events, n - 1);
      case Some(h) =>
        Extended(seen, SeenOf(events, n - 1), UmbilicalPeriod(c.umbilical), start, h);
        seen := seen + [Heartbeat.Next(View(run[n - 1]), h)];
    }
  }

  /** What the callbacks take for granted. In every run of the two loops: an echo that arrives is awaited, and
      no more than one is under way; a byte that arrives at the umbilical process comes before any close
      request, and a ping when the previous echo request was served; and the umbilical process has read a
      close request only after the sentry has left its loop. */
  lemma ConnectionIsKept(
    run: seq<System>, events: seq<Event>, c: ChildLoop.Settings, start: int, hasServer: bool, n: nat, now: int)
    requires IsRun(run, events, c, start, hasServer) && n <= |events|
    ensures var s := run[n];
            && Heartbeat.Outstanding(View(s)) <= 1
            && (s.stage.Monitoring? && s.sentry.link.open && 0 < s.echoes ==>
                  ChildLoop.Possible(s.sentry, ChildLoop.EchoArrives(now)))
            && (s.umbilical.link.open && s.toUmbilical != [] ==>
                  !s.umbilical.link.closed && (s.toUmbilical[0].Ping? ==> !s.umbilical.link.latch))
            && (s.umbilical.link.closed ==> !s.stage.Monitoring?)
  {
    var seen := RunRefines(run, events, c, start, hasServer, n);
    Heartbeat.RunKeepsInv(seen, SeenOf(events, n), UmbilicalPeriod(c.umbilical), start, |SeenOf(events, n)|);
    Follows(run[n], now);
  }

  lemma Follows(s: System, now: int)
    requires Heartbeat.Inv(View(s))
    ensures Heartbeat.Outstanding(View(s)) <= 1
    ensures s.stage.Monitoring? && s.sentry.link.open && 0 < s.echoes ==>
              ChildLoop.Possible(s.sentry, ChildLoop.EchoArrives(now))
    ensures s.umbilical.link.open && s.toUmbilical != [] ==>
              !s.umbilical.link.closed && (s.toUmbilical[0].Ping? ==> !s.umbilical.link.latch)
    ensures s.umbilical.link.closed ==> !s.stage.Monitoring?
  {
    if s.toUmbilical != [] && s.toUmbilical[0].Ping? {
      assert Heartbeat.Pings(s.toUmbilical) >= 1;
    }
  }
}
