/** The event loop of the umbilical process: the connection to the sentry, the pid server, and the
    references that clients hold. UmbilicalMonitor implements it in place.

    A callback that fails ends the loop with an error: refusing a client does, and so does any other
    library call that fails. */
module UmbilicalLoop {
  import opened Timers
  import opened Heartbeat

  /** A connection of a client to the pid server. */
  type Conn = nat

  /** The slots of the poll set other than the event pipe, which is always polled: the connection is
      polled while link.open. The list holds the clients that were acknowledged. A loop that has failed has
      ended with an error. */
  datatype Loop = Loop(link: UmbilicalLink, serverSlot: bool, clientSlot: bool, clients: seq<Conn>, failed: bool)

  function NewLoop(period: nat, hasServer: bool): Loop {
    Loop(NewUmbilicalLink(period), hasServer, false, [], false)
  }

  // ------------------------------------------------------------------------------------------
  // Callbacks

  function WithLink(l: Loop, link: UmbilicalLink): Loop {
    l.(link := link, serverSlot := l.serverSlot && link.open)
  }

  function Accepted(l: Loop, conn: Conn): Loop {
    l.(clients := l.clients + [conn], clientSlot := true)
  }

  function Without(clients: seq<Conn>, gone: set<Conn>): (rest: seq<Conn>)
    ensures |rest| <= |clients|
    ensures forall c :: c in rest <==> c in clients && c !in gone
  {
    if clients == [] then []
    else if clients[0] in gone then Without(clients[1..], gone)
    else [clients[0]] + Without(clients[1..], gone)
  }

  /** The others stay, in their order, and each as often as before. */
  lemma {:induction false} OthersStay(clients: seq<Conn>, last: Conn, gone: set<Conn>)
    ensures Without(clients + [last], gone) == Without(clients, gone) + if last in gone then [] else [last]
  {
    if clients == [] {
      assert clients + [last] == [last];
      assert [last][1..] == [];
    } else {
      var first, rest, kept := clients[0], clients[1..], if last in gone then [] else [last];
      assert (clients + [last])[0] == first && (clients + [last])[1..] == rest + [last];
      OthersStay(rest, last, gone);
      assert [first] + (Without(rest, gone) + kept) == [first] + Without(rest, gone) + kept;
    }
  }

  /** The clients that have hung up are dropped. When polling their connections fails, the loop stops
      polling them, as if there were none left. */
  function Cleaned(l: Loop, gone: set<Conn>, polled: bool): Loop {
    var rest := if polled then Without(l.clients, gone) else l.clients;
    l.(clients := rest, clientSlot := l.clientSlot && polled && rest != [])
  }

  predicate Completed(l: Loop) {
    !l.link.open && !l.serverSlot && !l.clientSlot
  }

  datatype Event =
    | Reads(byte: Byte, now: int)
    | ReadsEof
    | TimerFires(now: int, sentryStopped: bool)
    | Echoes
    | Accepts(conn: Conn)
    | Cleans(gone: set<Conn>, polled: bool)
    | AcceptFails
    | CallFails

  predicate Possible(l: Loop, e: Event) {
    match e
    case Reads(_, _) => l.link.open
    case ReadsEof => l.link.open
    case TimerFires(_, _) => l.link.timer.Armed()
    case Echoes => l.link.latch
    case Accepts(conn) => l.serverSlot && conn !in l.clients
    case Cleans(_, _) => l.clientSlot
    case AcceptFails => l.serverSlot
    case CallFails => true
  }

  function Next(l: Loop, e: Event): Loop {
    match e
    case Reads(byte, now) => WithLink(l, UmbilicalRead(l.link, byte, now))
    case ReadsEof => WithLink(l, CloseUmbilicalLink(l.link))
    case TimerFires(now, stopped) => WithLink(l, UmbilicalTimer(l.link, now, stopped))
    case Echoes => WithLink(l, UmbilicalEcho(l.link))
    case Accepts(conn) => Accepted(l, conn)
    case Cleans(gone, polled) => Cleaned(l, gone, polled)
    case AcceptFails => l.(failed := true)
    case CallFails => l.(failed := true)
  }

  predicate Ended(l: Loop) {
    Completed(l) || l.failed
  }

  /** The process groups that the umbilical process kills after its loop has ended. */
  datatype Kills = Kills(child: bool, sentry: bool)

  function AfterLoop(l: Loop): Kills
    requires Ended(l)
  {
    if l.failed then Kills(false, false) else Kills(true, !l.link.closed)
  }

  // ------------------------------------------------------------------------------------------
  // Runs of the loop

  /** The loop goes on until it completes or fails. */
  ghost predicate IsRun(run: seq<Loop>, events: seq<Event>, period: nat, hasServer: bool) {
    && |run| == |events| + 1
    && run[0] == NewLoop(period, hasServer)
    && forall k :: 0 <= k < |events| ==>
         !Ended(run[k]) && Possible(run[k], events[k]) && run[k + 1] == Next(run[k], events[k])
  }

  predicate AllPolled(events: seq<Event>) {
    forall k :: 0 <= k < |events| && events[k].Cleans? ==> events[k].polled
  }

  predicate Inv(l: Loop) {
    && (l.link.timer.Armed() ==> l.link.open)
    && (l.serverSlot ==> l.link.open)
    && (l.clientSlot ==> l.clients != [])
  }

  lemma NextKeepsInv(l: Loop, e: Event)
    requires Inv(l) && Possible(l, e)
    ensures Inv(Next(l, e))
    ensures (l.clients != [] ==> l.clientSlot) && (e.Cleans? ==> e.polled) ==>
              (Next(l, e).clients != [] ==> Next(l, e).clientSlot)
  {
  }

  lemma {:induction false} RunKeepsInv(run: seq<Loop>, events: seq<Event>, period: nat, hasServer: bool, n: nat)
    requires IsRun(run, events, period, hasServer) && n <= |events|
    ensures Inv(run[n])
    ensures AllPolled(events) && run[n].clients != [] ==> run[n].clientSlot
  {
    if n == 0 {
    } else {
      RunKeepsInv(run, events, period, hasServer, n - 1);
      NextKeepsInv(run[n - 1], events[n - 1]);
    }
  }

  /** While polling the clients never fails, their slot is polled exactly when some client holds a
      reference. */
  lemma SlotIffReferences(run: seq<Loop>, events: seq<Event>, period: nat, hasServer: bool, n: nat)
    requires IsRun(run, events, period, hasServer) && n <= |events| && AllPolled(events)
    ensures run[n].clientSlot <==> run[n].clients != []
  {
    RunKeepsInv(run, events, period, hasServer, n);
  }

  /** The loop completes exactly when the connection is closed and every reference is gone. */
  lemma CompletesWhenReleased(run: seq<Loop>, events: seq<Event>, period: nat, hasServer: bool, n: nat)
    requires IsRun(run, events, period, hasServer) && n <= |events| && AllPolled(events)
    ensures Completed(run[n]) <==> !run[n].link.open && run[n].clients == []
  {
    RunKeepsInv(run, events, period, hasServer, n);
  }

  /** A poll of the clients has failed, and nobody was accepted since. */
  predicate PollFailed(events: seq<Event>, n: nat)
    requires n <= |events|
  {
    exists k :: 0 <= k < n && FailsUnrepaired(events, k, n)
  }

  predicate FailsUnrepaired(events: seq<Event>, k: nat, n: nat)
    requires k < n <= |events|
  {
    events[k].Cleans? && !events[k].polled && forall j :: k < j < n ==> !events[j].Accepts?
  }

  lemma PollFailedStep(events: seq<Event>, n: nat)
    requires n < |events|
    ensures PollFailed(events, n + 1) <==>
              (events[n].Cleans? && !events[n].polled) || (PollFailed(events, n) && !events[n].Accepts?)
  {
    var e := events[n];
    if e.Cleans? && !e.polled {
      assert FailsUnrepaired(events, n, n + 1);
    }
    if PollFailed(events, n) && !e.Accepts? {
      var k :| 0 <= k < n && FailsUnrepaired(events, k, n);
      assert FailsUnrepaired(events, k, n + 1);
    }
    if PollFailed(events, n + 1) {
      var k :| 0 <= k < n + 1 && FailsUnrepaired(events, k, n + 1);
      if k < n {
        assert FailsUnrepaired(events, k, n);
      }
    }
  }

  lemma NextSlot(l: Loop, e: Event)
    requires Possible(l, e)
    ensures e.Accepts? ==> Next(l, e).clientSlot && Next(l, e).clients != []
    ensures e.Cleans? && !e.polled ==> !Next(l, e).clientSlot && Next(l, e).clients == l.clients
    ensures e.Cleans? && e.polled ==> (Next(l, e).clientSlot <==> Next(l, e).clients != [])
    ensures e.Cleans? ==> l.clientSlot
    ensures !e.Accepts? && !e.Cleans? ==> Next(l, e).clientSlot == l.clientSlot && Next(l, e).clients == l.clients
    ensures Next(l, e).serverSlot ==> Next(l, e).link.open || l.serverSlot
  {
  }

  /** In every run, references are held that are no longer polled if and only if references are held, a
      poll of the clients has failed, and no client was accepted since. */
  lemma {:induction false} SlotLostIff(run: seq<Loop>, events: seq<Event>, period: nat, hasServer: bool, n: nat)
    requires IsRun(run, events, period, hasServer) && n <= |events|
    ensures run[n].clients != [] ==> (!run[n].clientSlot <==> PollFailed(events, n))
    ensures run[n].clients == [] ==> !run[n].clientSlot
  {
    if n == 0 {
    } else {
      SlotLostIff(run, events, period, hasServer, n - 1);
      NextSlot(run[n - 1], events[n - 1]);
      PollFailedStep(events, n - 1);
      hide Possible, Next, PollFailed;
    }
  }

  /** So exactly when the loop completes, for polls that may fail: the connection is closed, and every
      reference is gone or a failed poll has made the loop forget it. In particular it completes with a
      reference still held exactly when the connection is closed and a poll has failed since the last
      accept. */
  lemma CompletesIff(run: seq<Loop>, events: seq<Event>, period: nat, hasServer: bool, n: nat)
    requires IsRun(run, events, period, hasServer) && n <= |events|
    ensures Completed(run[n]) <==> !run[n].link.open && (run[n].clients == [] || PollFailed(events, n))
  {
    SlotLostIff(run, events, period, hasServer, n);
    RunKeepsInv(run, events, period, hasServer, n);
  }

  /** It does happen: a run that completes while a client still holds a reference. */
  lemma FailedPollDropsReferences(period: nat, conn: Conn, now: int)
    ensures var events := [Reads(Ping, now), Accepts(conn), Cleans({}, false), ReadsEof];
            exists run: seq<Loop> :: IsRun(run, events, period, true) && Completed(run[4]) && conn in run[4].clients
  {
    var events := [Reads(Ping, now), Accepts(conn), Cleans({}, false), ReadsEof];
    var l0 := NewLoop(period, true);
    var l1 := Next(l0, events[0]);
    var l2 := Next(l1, events[1]);
    var l3 := Next(l2, events[2]);
    var l4 := Next(l3, events[3]);
    var run := [l0, l1, l2, l3, l4];
    assert IsRun(run, events, period, true) && conn in l4.clients;
  }

  /** Once the connection is closed it stays closed, and clients only leave. */
  lemma {:induction false} ReferencesOnlyDecrease(
    run: seq<Loop>, events: seq<Event>, period: nat, hasServer: bool, m: nat, n: nat)
    requires IsRun(run, events, period, hasServer) && m <= n <= |events| && !run[m].link.open
    ensures !run[n].link.open && |run[n].clients| <= |run[m].clients|
    ensures forall c :: c in run[n].clients ==> c in run[m].clients
    decreases n - m
  {
    if m < n {
      ReferencesOnlyDecrease(run, events, period, hasServer, m, n - 1);
      RunKeepsInv(run, events, period, hasServer, n - 1);
    }
  }

  // ------------------------------------------------------------------------------------------
  // When the sentry is given up

  /** How many firings in a row, after the first n events, have found the sentry running since a byte was last read
      or the sentry was last found stopped. */
  function Silence(events: seq<Event>, n: nat): nat
    requires n <= |events|
  {
    if n == 0 then 0
    else
      match events[n - 1]
      case Reads(_, _) => 0
      case TimerFires(_, stopped) => if stopped then 0 else Silence(events, n - 1) + 1
      case _ => Silence(events, n - 1)
  }

  /** The event at which the connection is closed. */
  predicate Closes(events: seq<Event>, k: nat)
    requires k < |events|
  {
    events[k].ReadsEof? || Silence(events, k + 1) == CYCLES
  }

  lemma StepCountsSilence(l: Loop, events: seq<Event>, k: nat)
    requires k < |events| && Inv(l) && Possible(l, events[k])
    requires l.link.open ==> l.link.limit == CYCLES && l.link.count == Silence(events, k) < CYCLES
    ensures var link := Next(l, events[k]).link;
            && (link.open <==> l.link.open && !Closes(events, k))
            && (link.open ==> link.limit == CYCLES && link.count == Silence(events, k + 1) < CYCLES)
  {
  }

  /** Exactly when the connection is closed, in every run: at the end of the stream, or when the timer has fired
      twice in a row on a sentry that is running and has sent nothing in between. */
  lemma {:induction false} ClosedIff(run: seq<Loop>, events: seq<Event>, period: nat, hasServer: bool, n: nat)
    requires IsRun(run, events, period, hasServer) && n <= |events|
    ensures run[n].link.open <==> forall k :: 0 <= k < n ==> !Closes(events, k)
    ensures run[n].link.open ==> run[n].link.limit == CYCLES && run[n].link.count == Silence(events, n) < CYCLES
  {
    if n > 0 {
      ClosedIff(run, events, period, hasServer, n - 1);
      RunKeepsInv(run, events, period, hasServer, n - 1);
      StepCountsSilence(run[n - 1], events, n - 1);
      hide Next, Possible, Inv, Silence, Closes;
    }
  }

  // ------------------------------------------------------------------------------------------
  // What is killed

  predicate IsFailure(e: Event) {
    e.AcceptFails? || e.CallFails?
  }

  predicate AsksToClose(e: Event) {
    e.Reads? && e.byte.CloseRequest?
  }

  /** No callback has failed. */
  predicate NoFailure(events: seq<Event>, n: nat)
    requires n <= |events|
  {
    forall k :: 0 <= k < n ==> !IsFailure(events[k])
  }

  predicate NoCloseRequest(events: seq<Event>, n: nat)
    requires n <= |events|
  {
    forall k :: 0 <= k < n ==> !AsksToClose(events[k])
  }

  lemma FailureIsFinal(l: Loop, e: Event)
    requires Possible(l, e) && !Ended(l)
    ensures Next(l, e).failed <==> IsFailure(e)
    ensures Next(l, e).failed ==> !Completed(Next(l, e))
    ensures Next(l, e).link.closed <==> l.link.closed || AsksToClose(e)
  {
  }

  lemma {:induction false} HistoryShows(run: seq<Loop>, events: seq<Event>, period: nat, hasServer: bool, n: nat)
    requires IsRun(run, events, period, hasServer) && n <= |events|
    ensures run[n].failed <==> !NoFailure(events, n)
    ensures run[n].failed ==> !Completed(run[n])
    ensures run[n].link.closed <==> !NoCloseRequest(events, n)
  {
    if n > 0 {
      HistoryShows(run, events, period, hasServer, n - 1);
      FailureIsFinal(run[n - 1], events[n - 1]);
      hide Possible, Next, Completed;
    }
  }

  /** What is killed after a loop that has ended, in every run. The process group of the child is killed if and
      only if the loop completed, which is if and only if no callback failed: no client was refused, and
      no other call failed. The process group of the sentry is killed if and only if, besides, the sentry
      did not ask the umbilical to close. */
  lemma SentryKilledIff(run: seq<Loop>, events: seq<Event>, period: nat, hasServer: bool)
    requires IsRun(run, events, period, hasServer) && Ended(run[|events|])
    ensures var kills := AfterLoop(run[|events|]);
            && (kills.child <==> Completed(run[|events|]))
            && (Completed(run[|events|]) <==> NoFailure(events, |events|))
            && (kills.sentry <==> NoFailure(events, |events|) && NoCloseRequest(events, |events|))
  {
    HistoryShows(run, events, period, hasServer, |events|);
  }

  /** A sentry that asked the umbilical to close is spared, however the loop goes on and ends. */
  lemma {:induction false} SentryIsSpared(run: seq<Loop>, events: seq<Event>, period: nat, hasServer: bool, k: nat)
    requires IsRun(run, events, period, hasServer) && Ended(run[|events|])
    requires k < |events| && AsksToClose(events[k])
    ensures !AfterLoop(run[|events|]).sentry
  {
    HistoryShows(run, events, period, hasServer, |events|);
  }

  /** So a single refused client leaves both groups alone, although the sentry never asked the umbilical to
      close: after the first ping and the refusal the umbilical process ends and kills nobody. */
  lemma RefusedClientSparesAll(period: nat, now: int) returns (run: seq<Loop>, events: seq<Event>)
    ensures IsRun(run, events, period, true) && events == [Reads(Ping, now), AcceptFails]
    ensures Ended(run[2]) && AfterLoop(run[2]) == Kills(false, false)
    ensures run[2].link.open && NoCloseRequest(events, 2)
  {
    events := [Reads(Ping, now), AcceptFails];
    var l0 := NewLoop(period, true);
    var l1 := Next(l0, events[0]);
    run := [l0, l1, Next(l1, events[1])];
  }
}
