/** What a client that the pid server refuses does to the child: the umbilical process ends, the sentry reads
    the end of the stream, and the child is terminated. Three state machines are followed side by side:
    the loop of the umbilical process, the connection between the two ends, and the loop of the sentry. */
module RefusedClient {
  import opened Common
  import opened Timers
  import opened Escalation
  import Heartbeat
  import ChildLoop
  import UmbilicalLoop

  /** The three machines agree on the two ends of the connection. */
  predicate Agree(u: UmbilicalLoop.Loop, h: Heartbeat.State, m: ChildLoop.Monitor) {
    h.umbilical == u.link && h.sentry == m.link
  }

  /** A refusal ends the umbilical process, which kills nobody; the sentry then finds the connection
      closed; it starts to terminate its child, unless it was doing so already, and the signal that is
      due at once is SIGTERM. */
  lemma RefusalReachesChild(u: UmbilicalLoop.Loop, h: Heartbeat.State, m: ChildLoop.Monitor, now: int)
    requires UmbilicalLoop.Possible(u, UmbilicalLoop.AcceptFails) && !UmbilicalLoop.Ended(u)
    requires Agree(u, h, m) && h.stage.Monitoring? && h.sentry.open && ChildLoop.Inv(m)
    ensures var ended := UmbilicalLoop.Next(u, UmbilicalLoop.AcceptFails);
            UmbilicalLoop.Ended(ended) && UmbilicalLoop.AfterLoop(ended) == UmbilicalLoop.Kills(false, false)
    ensures var gone := Heartbeat.Next(h, Heartbeat.UmbilicalDies);
            && Heartbeat.Possible(gone, Heartbeat.SentryReadsEof)
            && ChildLoop.Possible(m, ChildLoop.LinkBreaks(now))
            && ChildLoop.Next(m, ChildLoop.LinkBreaks(now)).link ==
                Heartbeat.Next(gone, Heartbeat.SentryReadsEof).sentry
    ensures var t := ChildLoop.Next(m, ChildLoop.LinkBreaks(now));
            && ChildLoop.Possible(t, ChildLoop.TerminationFires(now))
            && (m.termination.timer.Armed() ==> t.termination == m.termination)
            && (!m.termination.timer.Armed() ==>
                  t.termination.timer.Due() == now && SignalSent(t.termination) == SIGTERM)
  {
    ChildLoop.NextKeepsInv(m, ChildLoop.LinkBreaks(now));
  }

  lemma {:induction false} FirstCauseIsAt(run: seq<ChildLoop.Monitor>, events: seq<ChildLoop.Event>, j: nat, k: nat)
    requires |run| == |events| + 1 && j <= k < |events|
    requires forall i :: j <= i < k ==> ChildLoop.CauseOf(run[i], events[i]).None?
    requires ChildLoop.CauseOf(run[k], events[k]).Some?
    ensures ChildLoop.FirstCause(run, events, j) == ChildLoop.CauseOf(run[k], events[k])
    decreases k - j
  {
    hide ChildLoop.CauseOf;
    if j < k {
      FirstCauseIsAt(run, events, j + 1, k);
    }
  }

  /** So in every run of the sentry in which the broken connection is the first cause, the child is sent
      SIGTERM once and then only SIGKILL, one signal for each firing. */
  lemma BrokenLinkTerminates(
    run: seq<ChildLoop.Monitor>, events: seq<ChildLoop.Event>, c: ChildLoop.Settings, start: int, k: nat)
    requires ChildLoop.IsRun(run, events, c, start) && c.signal > 0 && k < |events| && events[k].LinkBreaks?
    requires forall j :: 0 <= j < k ==> ChildLoop.CauseOf(run[j], events[j]).None?
    ensures ChildLoop.SignalsFrom(run, events, c, start, 0) == Escalating(SIGTERM, ChildLoop.FiringsFrom(events, 0))
  {
    FirstCauseIsAt(run, events, 0, k);
    ChildLoop.FirstCauseDecides(run, events, c, start);
  }
}
