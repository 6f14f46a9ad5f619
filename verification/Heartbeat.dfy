/** The umbilical connection: the sentry sends pings, the umbilical process echoes them, and each end
    gives up on the other after two timer cycles without an answer.

    The first part holds the state of each end and the effect of each callback; ChildMonitor and
    UmbilicalMonitor implement it in place. The second part is the product of the two ends with the
    two byte streams between them, in every order of callbacks. */
module Heartbeat {
  import opened Common
  import opened Timers

  // ------------------------------------------------------------------------------------------
  // The end in the sentry

  datatype SentryLink = SentryLink(open: bool, preempt: bool, count: nat, limit: nat, timer: Timer)

  /** What the sentry finds when it looks at the umbilical process. */
  datatype Observed = Gone | Suspended | Alive

  datatype Write = Sent | Broken | Interrupted | WouldBlock

  function NewSentryLink(period: nat, now: int): SentryLink {
    SentryLink(true, false, CYCLES, CYCLES, Timer(0, period).Triggered(now))
  }

  function CloseSentryLink(s: SentryLink): SentryLink {
    s.(open := false, timer := s.timer.Disabled())
  }

  /** An echo has arrived: the ping is answered, schedule the next one. */
  function SentryEcho(s: SentryLink, now: int): SentryLink {
    s.(count := s.limit, preempt := false,
       timer := if s.preempt then s.timer.Triggered(now) else s.timer.Restarted(now))
  }

  /** A cycle has passed without the echo. */
  function SentryWaits(s: SentryLink, umbilical: Observed): SentryLink {
    match umbilical
    case Gone => s
    case Suspended => s.(count := 0)
    case Alive => if s.count + 1 == s.limit then CloseSentryLink(s.(count := s.count + 1)) else s.(count := s.count + 1)
  }

  /** A ping is written; a write that was interrupted is retried at once. */
  function SentryWrites(s: SentryLink, now: int, write: Write): SentryLink {
    match write
    case Sent => s.(count := 0)
    case Broken => CloseSentryLink(s)
    case Interrupted => s.(timer := s.timer.Triggered(now))
    case WouldBlock => s
  }

  /** The timer has fired: count a cycle while waiting for an echo, otherwise send a ping. */
  function SentryTimer(s: SentryLink, now: int, umbilical: Observed, write: Write): SentryLink {
    var t := s.(timer := s.timer.Lapped(now));
    if s.count != s.limit then SentryWaits(t, umbilical) else SentryWrites(t, now, write)
  }

  /** The sentry itself has been continued after a stop, as the code has it: an outstanding ping makes
      the timer due at once, no outstanding ping asks for back-to-back pings. */
  function SentryContinued(s: SentryLink, now: int): SentryLink {
    if s.count != s.limit then s.(timer := s.timer.Triggered(now)) else s.(preempt := true)
  }

  /** The umbilical process runs again after a stop. */
  function UmbilicalContinued(s: SentryLink, now: int): SentryLink {
    if s.count != s.limit then s.(count := 0, timer := s.timer.Restarted(now)) else s
  }

  predicate Waiting(s: SentryLink) {
    s.count < s.limit
  }

  // ------------------------------------------------------------------------------------------
  // The end in the umbilical process

  datatype UmbilicalLink = UmbilicalLink(open: bool, closed: bool, count: nat, limit: nat, timer: Timer, latch: bool)

  function NewUmbilicalLink(period: nat): UmbilicalLink {
    UmbilicalLink(true, false, 0, CYCLES, Timer(0, period), false)
  }

  function CloseUmbilicalLink(u: UmbilicalLink): UmbilicalLink {
    u.(open := false, timer := u.timer.Disabled())
  }

  datatype Byte = Ping | CloseRequest

  /** A byte has arrived. Its timer is restarted half a period out of phase. */
  function UmbilicalRead(u: UmbilicalLink, byte: Byte, now: int): UmbilicalLink {
    u.(closed := u.closed || byte.CloseRequest?,
       latch := u.latch || byte.Ping?,
       timer := u.timer.Triggered(now).Delayed(u.timer.period / 2),
       count := 0)
  }

  function UmbilicalTimer(u: UmbilicalLink, now: int, sentryStopped: bool): UmbilicalLink {
    var v := u.(timer := u.timer.Lapped(now));
    if sentryStopped then v.(count := 0)
    else if u.limit <= u.count + 1 then CloseUmbilicalLink(v.(count := u.count + 1))
    else v.(count := u.count + 1)
  }

  /** The latched echo request is served. */
  function UmbilicalEcho(u: UmbilicalLink): UmbilicalLink {
    u.(latch := false)
  }

  // ------------------------------------------------------------------------------------------
  // The product

  /** The sentry monitors the link, then asks the umbilical to close and drains the echoes, and
      finally is gone; it may also die at any time. */
  datatype Stage = Monitoring | Stopping | Dead

  datatype State =
    State(sentry: SentryLink, umbilical: UmbilicalLink, stage: Stage, toUmbilical: seq<Byte>, echoes: nat)

  datatype Event =
    | SentryReadsEcho(now: int)
    | SentryReadsEof
    | SentryTimerFires(now: int, umbilical: Observed, write: Write)
    | SentryContinues(now: int)
    | UmbilicalContinues(now: int)
    | SentryStops
    | SentryDrains
    | SentryDies
    | UmbilicalReads(now: int)
    | UmbilicalReadsEof
    | UmbilicalTimerFires(now: int, sentryStopped: bool)
    | UmbilicalEchoes
    | UmbilicalDies

  function Start(period: nat, now: int): State {
    State(NewSentryLink(period, now), NewUmbilicalLink(period), Monitoring, [], 0)
  }

  predicate Possible(s: State, e: Event) {
    match e
    case SentryReadsEcho(_) => s.stage.Monitoring? && s.sentry.open && 0 < s.echoes
    case SentryReadsEof => s.stage.Monitoring? && s.sentry.open && !s.umbilical.open
    case SentryTimerFires(_, _, _) => s.stage.Monitoring? && s.sentry.timer.Armed()
    case SentryContinues(_) => s.stage.Monitoring?
    case UmbilicalContinues(_) => s.stage.Monitoring?
    case SentryStops => s.stage.Monitoring?
    case SentryDrains => s.stage.Stopping? && 0 < s.echoes
    case SentryDies => !s.stage.Dead?
    case UmbilicalReads(_) => s.umbilical.open && s.toUmbilical != []
    case UmbilicalReadsEof => s.umbilical.open && s.toUmbilical == [] && !s.stage.Monitoring?
    case UmbilicalTimerFires(_, _) => s.umbilical.timer.Armed()
    case UmbilicalEchoes => s.umbilical.latch
    case UmbilicalDies => true
  }

  function Next(s: State, e: Event): State
    requires Possible(s, e)
  {
    match e
    case SentryReadsEcho(now) => s.(sentry := SentryEcho(s.sentry, now), echoes := s.echoes - 1)
    case SentryReadsEof => s.(sentry := CloseSentryLink(s.sentry))
    case SentryTimerFires(now, umbilical, write) =>
      s.(sentry := SentryTimer(s.sentry, now, umbilical, write),
         toUmbilical := if !Waiting(s.sentry) && write.Sent? then s.toUmbilical + [Ping] else s.toUmbilical)
    case SentryContinues(now) => s.(sentry := SentryContinued(s.sentry, now))
    case UmbilicalContinues(now) => s.(sentry := UmbilicalContinued(s.sentry, now))
    case SentryStops => s.(stage := Stopping, toUmbilical := s.toUmbilical + [CloseRequest])
    case SentryDrains => s.(echoes := s.echoes - 1)
    case SentryDies => s.(stage := Dead)
    case UmbilicalReads(now) =>
      s.(umbilical := UmbilicalRead(s.umbilical, s.toUmbilical[0], now), toUmbilical := s.toUmbilical[1..])
    case UmbilicalReadsEof => s.(umbilical := CloseUmbilicalLink(s.umbilical))
    case UmbilicalTimerFires(now, stopped) => s.(umbilical := UmbilicalTimer(s.umbilical, now, stopped))
    case UmbilicalEchoes =>
      s.(umbilical := UmbilicalEcho(s.umbilical), echoes := if s.umbilical.open then s.echoes + 1 else s.echoes)
    case UmbilicalDies => s.(umbilical := CloseUmbilicalLink(s.umbilical).(latch := false))
  }

  // ------------------------------------------------------------------------------------------
  // A single ping is outstanding

  function Pings(bytes: seq<Byte>): nat {
    if bytes == [] then 0 else (if bytes[0].Ping? then 1 else 0) + Pings(bytes[1..])
  }

  lemma {:induction false} PingsAppend(bytes: seq<Byte>, b: Byte)
    ensures Pings(bytes + [b]) == Pings(bytes) + if b.Ping? then 1 else 0
  {
    if bytes == [] {
    } else {
      assert (bytes + [b])[1..] == bytes[1..] + [b];
      PingsAppend(bytes[1..], b);
    }
  }

  /** Pings in flight, the echo request that is latched, and echoes in flight. */
  function Outstanding(s: State): nat {
    Pings(s.toUmbilical) + (if s.umbilical.latch then 1 else 0) + s.echoes
  }

  /** A close request is the last byte the sentry ever writes. */
  predicate CloseIsLast(s: State) {
    && (forall k :: 0 <= k < |s.toUmbilical| && s.toUmbilical[k].CloseRequest? ==>
          k == |s.toUmbilical| - 1 && !s.stage.Monitoring?)
    && (s.umbilical.closed ==> s.toUmbilical == [] && !s.stage.Monitoring?)
  }

  predicate Inv(s: State) {
    && s.sentry.limit == s.umbilical.limit == CYCLES
    && s.sentry.count <= s.sentry.limit
    && Outstanding(s) <= 1
    && (s.sentry.timer.Armed() ==> s.sentry.open)
    && (s.stage.Monitoring? && s.sentry.open && !Waiting(s.sentry) ==> Outstanding(s) == 0)
    && (s.stage.Monitoring? && s.sentry.open && s.umbilical.open && Waiting(s.sentry) ==> Outstanding(s) == 1)
    && CloseIsLast(s)
  }

  lemma SentryTimerKeepsInv(s: State, now: int, umbilical: Observed, write: Write)
    requires Inv(s) && Possible(s, SentryTimerFires(now, umbilical, write))
    ensures Inv(Next(s, SentryTimerFires(now, umbilical, write)))
  {
    PingsAppend(s.toUmbilical, Ping);
    hide Timer.Lapped, Timer.Triggered;
  }

  lemma UmbilicalReadsKeepsInv(s: State, now: int)
    requires Inv(s) && Possible(s, UmbilicalReads(now))
    ensures Inv(Next(s, UmbilicalReads(now)))
  {
  }

  lemma NextKeepsInv(s: State, e: Event)
    requires Inv(s) && Possible(s, e)
    ensures Inv(Next(s, e))
  {
    hide SentryTimer, UmbilicalRead;
    match e
    case SentryTimerFires(now, umbilical, write) => SentryTimerKeepsInv(s, now, umbilical, write);
    case UmbilicalReads(now) => UmbilicalReadsKeepsInv(s, now);
    case SentryStops => PingsAppend(s.toUmbilical, CloseRequest);
    case _ =>
  }

  ghost predicate IsRun(run: seq<State>, events: seq<Event>, period: nat, start: int) {
    && |run| == |events| + 1
    && run[0] == Start(period, start)
    && forall k :: 0 <= k < |events| ==> Possible(run[k], events[k]) && run[k + 1] == Next(run[k], events[k])
  }

  lemma {:induction false} RunKeepsInv(run: seq<State>, events: seq<Event>, period: nat, start: int, n: nat)
    requires IsRun(run, events, period, start) && n <= |events|
    ensures Inv(run[n])
  {
    if n == 0 {
    } else {
      RunKeepsInv(run, events, period, start, n - 1);
      NextKeepsInv(run[n - 1], events[n - 1]);
    }
  }

  /** While both ends watch the connection, exactly one ping or echo is under way when the sentry is
      waiting, and none when it is not: in every order of echoes, timer firings, interrupted and
      blocked writes, stops and continues. */
  lemma SinglePingOutstanding(run: seq<State>, events: seq<Event>, period: nat, start: int, n: nat)
    requires IsRun(run, events, period, start) && n <= |events|
    requires run[n].stage.Monitoring? && run[n].sentry.open && run[n].umbilical.open
    ensures Outstanding(run[n]) == if Waiting(run[n].sentry) then 1 else 0
  {
    RunKeepsInv(run, events, period, start, n);
  }

  /** The assertions in the callbacks hold and the echo latch never swallows a request: when an echo
      is read the sentry is waiting, when the timer fires the counter is within its limit, when a byte
      is read no close request was read before, and a ping is read only after the previous echo
      request has been served. */
  lemma CallbackAssertionsHold(run: seq<State>, events: seq<Event>, period: nat, start: int, n: nat, e: Event)
    requires IsRun(run, events, period, start) && n <= |events| && Possible(run[n], e)
    ensures e.SentryReadsEcho? ==> run[n].sentry.count < run[n].sentry.limit
    ensures e.SentryTimerFires? ==> run[n].sentry.open && run[n].sentry.count <= run[n].sentry.limit
    ensures e.UmbilicalReads? ==> !run[n].umbilical.closed
    ensures e.UmbilicalReads? && run[n].toUmbilical[0].Ping? ==> !run[n].umbilical.latch
  {
    RunKeepsInv(run, events, period, start, n);
    var s := run[n];
    if e.UmbilicalReads? && s.toUmbilical[0].Ping? {
      assert Pings(s.toUmbilical) >= 1;
    }
  }

  function Drained(events: seq<Event>, n: nat): nat
    requires n <= |events|
  {
    if n == 0 then 0 else Drained(events, n - 1) + if events[n - 1].SentryDrains? then 1 else 0
  }

  lemma OutstandingOnlyDecreases(s: State, e: Event)
    requires Inv(s) && Possible(s, e) && !s.stage.Monitoring?
    ensures Outstanding(Next(s, e)) + (if e.SentryDrains? then 1 else 0) <= Outstanding(s)
    ensures !Next(s, e).stage.Monitoring?
  {
  }

  /** Once the sentry has asked the umbilical to close, at most one echo is left to drain. */
  lemma {:induction false} AtMostOneEchoIsDrained(run: seq<State>, events: seq<Event>, period: nat, start: int, n: nat)
    requires IsRun(run, events, period, start) && n <= |events|
    ensures run[n].stage.Monitoring? ==> Drained(events, n) == 0
    ensures Drained(events, n) + (if run[n].stage.Monitoring? then 0 else Outstanding(run[n])) <= 1
  {
    if n == 0 {
    } else {
      AtMostOneEchoIsDrained(run, events, period, start, n - 1);
      RunKeepsInv(run, events, period, start, n - 1);
      var s, e := run[n - 1], events[n - 1];
      NextKeepsInv(s, e);
      if s.stage.Monitoring? {
        assert !e.SentryDrains?;
      } else {
        OutstandingOnlyDecreases(s, e);
        hide Next, Outstanding;
      }
    }
  }

  // ------------------------------------------------------------------------------------------
  // Continuing the sentry

  /** The code treats an outstanding ping as the ping that is yet to be sent. As a result two
      continuations while one ping is outstanding make the sentry give up on a live umbilical without
      any time passing, in the same instant in which the ping was sent: there is such a run, and at
      its end the umbilical still has the ping to read. */
  lemma TwoContinuationsTimeOut(period: nat, now: int) returns (run: seq<State>, events: seq<Event>)
    requires period != 0
    ensures IsRun(run, events, period, now) && |events| == 5
    ensures forall k :: 0 <= k < 5 ==>
              events[k] == SentryTimerFires(now, Alive, Sent) || events[k] == SentryContinues(now)
    ensures !run[5].sentry.open && run[5].umbilical.open && run[5].toUmbilical == [Ping] && run[4].sentry.open
    ensures forall k :: 0 <= k < 5 && events[k].SentryTimerFires? ==> run[k].sentry.timer.Expired(now)
  {
    var fires := SentryTimerFires(now, Alive, Sent);
    LapKeepsPhase(Timer(now - period, period), now);
    events := [fires, SentryContinues(now), fires, SentryContinues(now), fires];
    var s0 := Start(period, now);
    var s1 := Next(s0, events[0]);
    var s2 := Next(s1, events[1]);
    var s3 := Next(s2, events[2]);
    var s4 := Next(s3, events[3]);
    run := [s0, s1, s2, s3, s4, Next(s4, events[4])];
  }

  /** What the firing does that a continuation brings about at once: it closes the link exactly when a ping is
      outstanding, the sentry has already counted one cycle, and the umbilical process is found running. A
      continuation that comes before the first cycle was counted does not close the link then, but counts
      the first cycle early; HeartbeatTiming.ContinuationMayAlarmIff and HeartbeatTiming.SentryIsPatient
      say what follows from it in time. */
  lemma ContinuationClosesIff(s: SentryLink, now: int, umbilical: Observed, write: Write)
    requires s.open && s.count <= s.limit == CYCLES && s.timer.Armed() && !write.Broken?
    ensures SentryContinued(s, now).timer.Expired(now) && s.count != s.limit ==>
              (!SentryTimer(SentryContinued(s, now), now, umbilical, write).open <==>
               s.count == 1 && umbilical.Alive?)
    ensures s.count != s.limit ==> SentryContinued(s, now).timer.Expired(now)
    ensures s.count == s.limit ==> SentryContinued(s, now).open && SentryContinued(s, now).timer == s.timer
  {
  }

  // ------------------------------------------------------------------------------------------
  // What the callbacks do

  /** A firing that writes a ping, for each outcome of the write: only a broken connection closes the link; only a
      ping that was written is awaited, with no cycle counted yet; only an interrupted write is due again
      at once; and otherwise the next firing lies ahead by at most a period. */
  lemma WriteOutcomes(s: SentryLink, now: int, umbilical: Observed, write: Write)
    requires s.open && s.count == s.limit == CYCLES && s.timer.Expired(now)
    ensures var t := SentryTimer(s, now, umbilical, write);
            && (t.open <==> !write.Broken?) && (t.timer.Armed() <==> !write.Broken?)
            && (Waiting(t) <==> write.Sent?) && (write.Sent? ==> t.count == 0)
            && (write.Interrupted? ==> t.timer.Due() == now)
            && (write.Sent? || write.WouldBlock? ==> now < t.timer.Due() <= now + s.timer.period)
            && t.preempt == s.preempt
  {
    LapBounds(s.timer, now);
    hide Timer.Lapped;
  }

  /** A firing that finds no echo, for each state of the umbilical process: one that is gone is left to the
      connection, which breaks; one that is stopped gets two fresh cycles; one that is running is given
      up when it has missed two. */
  lemma FindingOutcomes(s: SentryLink, now: int, umbilical: Observed, write: Write)
    requires s.open && s.count < s.limit == CYCLES && s.timer.Expired(now)
    ensures var t := SentryTimer(s, now, umbilical, write);
            && (t.open <==> !(umbilical.Alive? && s.count == 1))
            && (t.open ==> now < t.timer.Due() <= now + s.timer.period)
            && (umbilical.Gone? ==> t.count == s.count)
            && (umbilical.Suspended? ==> t.count == 0)
            && (umbilical.Alive? ==> t.count == s.count + 1)
            && t.preempt == s.preempt
  {
    LapBounds(s.timer, now);
    hide Timer.Lapped;
  }

  /** When the ping after the next one is due. Once the echo has been read, the sentry pings again a period later,
      but at once if it was continued before the ping was written; and this holds for one ping only. A
      continuation while the echo is awaited does not count. */
  lemma PingAfterEcho(
    s: SentryLink, before: Option<int>, ping: int, umbilical: Observed, during: Option<int>, echo: int)
    requires s.open && s.count == s.limit == CYCLES && s.timer.Armed()
    ensures var ready := if before.Some? then SentryContinued(s, before.value) else s;
            var sent := SentryTimer(ready, ping, umbilical, Sent);
            var waited := if during.Some? then SentryContinued(sent, during.value) else sent;
            var t := SentryEcho(waited, echo);
            && Waiting(waited) && !Waiting(t) && t.open && !t.preempt
            && t.timer.period == s.timer.period
            && t.timer.Due() == if s.preempt || before.Some? then echo else echo + s.timer.period
  {
    hide Timer.Lapped;
    LapKeepsPeriod(s.timer, ping);
  }

  /** The umbilical process gives up on a sentry that it finds running twice in a row; a sentry that it finds
      stopped gets two fresh cycles. A byte sets the timer half a period out of phase. */
  lemma UmbilicalOutcomes(u: UmbilicalLink, now: int, stopped: bool, byte: Byte)
    requires u.open && u.count < u.limit == CYCLES && u.timer.Expired(now)
    ensures var v := UmbilicalTimer(u, now, stopped);
            && (v.open <==> stopped || u.count == 0)
            && (v.open ==> v.count == (if stopped then 0 else 1) && now < v.timer.Due() <= now + u.timer.period)
            && v.latch == u.latch && v.closed == u.closed
    ensures var v := UmbilicalRead(u, byte, now);
            && v.open && v.count == 0 && v.timer.Due() == now + u.timer.period / 2
            && (v.closed <==> u.closed || byte.CloseRequest?) && (v.latch <==> u.latch || byte.Ping?)
  {
    LapBounds(u.timer, now);
    hide Timer.Lapped;
  }
}
