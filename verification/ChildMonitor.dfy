/** The object with which the sentry monitors its child, updated in place by the callbacks of its event
    loop. Each callback is proved to take the step of ChildLoop, on which the properties of whole runs
    are stated. The poll loop laps a timer before it calls its callback. */
module ChildMonitor {
  import opened Common
  import opened Timers
  import opened Heartbeat
  import opened TetherWatch
  import opened Escalation
  import opened ChildLoop

  class ChildMonitor {
    // mTermination
    var signalPlan: Option<Pointer>
    const signalPeriod: nat

    // mUmbilical
    var preempt: bool
    var umbilicalCycleCount: nat
    const umbilicalCycleLimit: nat

    // mTether
    var tetherCycleCount: nat
    const tetherCycleLimit: nat

    // mEvent
    var childLatchDisabled: bool
    var umbilicalLatchDisabled: bool

    // mPollFds: whether the slot is polled
    var tetherSlot: bool
    var umbilicalSlot: bool
    var parentSlot: bool

    // mPollFdTimerActions
    var tetherTimer: Timer
    var umbilicalTimer: Timer
    var terminationTimer: Timer
    var disconnectionTimer: Timer

    // mTetherThread: mFlushed, and how often the thread was pinged
    var flushed: bool
    var threadPings: nat

    ghost function Link(): SentryLink
      reads this
    {
      SentryLink(umbilicalSlot, preempt, umbilicalCycleCount, umbilicalCycleLimit, umbilicalTimer)
    }

    ghost function View(): Monitor
      reads this
    {
      Monitor(Link(), Watch(tetherCycleCount, tetherCycleLimit, tetherTimer),
              Termination(signalPlan, terminationTimer, signalPeriod),
              parentSlot, tetherSlot, childLatchDisabled, umbilicalLatchDisabled, flushed, disconnectionTimer)
    }

    ghost predicate Valid()
      reads this
    {
      ChildLoop.Inv(View())
    }

    /** The monitor as monitorChildProcess sets it up. */
    constructor (c: Settings, now: int)
      requires c.signal > 0
      ensures Valid() && View() == NewMonitor(c, now)
    {
      signalPlan, signalPeriod := None, c.signal * NANOSECONDS;
      preempt, umbilicalCycleCount, umbilicalCycleLimit := false, CYCLES, CYCLES;
      tetherCycleCount, tetherCycleLimit := 0, CYCLES;
      childLatchDisabled, umbilicalLatchDisabled := false, false;
      tetherSlot, umbilicalSlot, parentSlot := c.tethered, true, c.hasParent;
      tetherTimer := Timer(now, TetherPeriod(if c.tethered then c.tether else 0));
      umbilicalTimer := Timer(0, UmbilicalPeriod(c.umbilical)).Triggered(now);
      terminationTimer, disconnectionTimer := Timer(0, 0), Timer(0, 0);
      flushed, threadPings := false, 0;
    }

    /** activateFdTimerTermination_ */
    method ActivateFdTimerTermination(cause: Cause, now: int)
      requires signalPlan.Some? <==> terminationTimer.Armed()
      modifies `tetherTimer, `signalPlan, `terminationTimer
      ensures View() == Activated(old(View()), cause, now)
    {
      tetherTimer := tetherTimer.Disabled();
      if !terminationTimer.Armed() {
        assert signalPlan.None?;
        signalPlan := Some(Pointer(cause, 0));
        terminationTimer := Timer(0, signalPeriod).Triggered(now);
      }
    }

    /** pollFdTimerTermination_: the signal that the child is sent. */
    method PollFdTimerTermination(now: int) returns (sigNum: int)
      requires Valid() && ChildLoop.Possible(View(), TerminationFires(now))
      modifies this
      ensures Valid() && View() == ChildLoop.Next(old(View()), TerminationFires(now))
      ensures sigNum == SignalSent(old(View().termination)) && threadPings == old(threadPings)
    {
      terminationTimer := terminationTimer.Lapped(now);
      var p := signalPlan.value;
      sigNum := SignalPlan(p.cause)[p.step];
      if SignalPlan(p.cause)[p.step + 1] != 0 {
        signalPlan := Some(p.(step := p.step + 1));
      }
    }

    /** pollFdParent_ */
    method PollFdParent(now: int)
      requires Valid() && parentSlot
      modifies this
      ensures Valid() && View() == ChildLoop.Next(old(View()), ParentEnds(now)) && threadPings == old(threadPings)
    {
      parentSlot := false;
      ActivateFdTimerTermination(Terminate, now);
    }

    /** pollFdCloseUmbilical_ */
    method PollFdCloseUmbilical(now: int)
      requires signalPlan.Some? <==> terminationTimer.Armed()
      modifies `umbilicalSlot, `umbilicalTimer, `tetherTimer, `signalPlan, `terminationTimer
      ensures View() == Activated(old(View()).(link := CloseSentryLink(old(Link()))), Terminate, now)
    {
      umbilicalSlot := false;
      umbilicalTimer := umbilicalTimer.Disabled();
      ActivateFdTimerTermination(Terminate, now);
    }

    /** pollFdUmbilical_: a byte is read, or the connection is closed or reset. An interrupted read
        changes nothing. */
    method PollFdUmbilical(echo: bool, now: int)
      requires Valid() && umbilicalSlot
      requires echo ==> umbilicalCycleCount < umbilicalCycleLimit
      modifies this
      ensures Valid() && threadPings == old(threadPings)
      ensures View() == ChildLoop.Next(old(View()), if echo then EchoArrives(now) else LinkBreaks(now))
    {
      if !echo {
        PollFdCloseUmbilical(now);
        return;
      }
      umbilicalCycleCount := umbilicalCycleLimit;
      if !preempt {
        umbilicalTimer := umbilicalTimer.Restarted(now);
      } else {
        preempt := false;
        umbilicalTimer := umbilicalTimer.Triggered(now);
      }
    }

    /** pollFdReapUmbilicalEvent_: the umbilical process runs again, or has ended. */
    method PollFdReapUmbilicalEvent(enabled: bool, now: int)
      requires Valid() && (enabled ==> !umbilicalLatchDisabled)
      modifies this
      ensures Valid() && threadPings == old(threadPings)
      ensures View() == ChildLoop.Next(old(View()), if enabled then UmbilicalRuns(now) else UmbilicalEnds)
    {
      if enabled {
        if umbilicalCycleCount != umbilicalCycleLimit {
          assert umbilicalCycleCount < umbilicalCycleLimit;
          umbilicalCycleCount := 0;
          umbilicalTimer := umbilicalTimer.Restarted(now);
        }
      } else {
        umbilicalLatchDisabled := true;
      }
    }

    /** pollFdContEvent_ and pollFdContUmbilical_ */
    method PollFdContEvent(now: int)
      requires Valid()
      modifies this
      ensures Valid() && View() == ChildLoop.Next(old(View()), SentryRuns(now)) && threadPings == old(threadPings)
    {
      if umbilicalCycleCount != umbilicalCycleLimit {
        umbilicalTimer := umbilicalTimer.Triggered(now);
      } else {
        preempt := true;
      }
    }

    /** pollFdWriteUmbilical_, with what its caller does when the write fails */
    method PollFdWriteUmbilical(now: int, write: Write) returns (sent: bool)
      requires umbilicalCycleCount == umbilicalCycleLimit && umbilicalSlot
      requires signalPlan.Some? <==> terminationTimer.Armed()
      modifies `umbilicalCycleCount, `umbilicalSlot, `umbilicalTimer, `tetherTimer, `signalPlan, `terminationTimer
      ensures View() == WithLink(old(View()), SentryWrites(old(Link()), now, write), now)
      ensures sent == write.Sent?
    {
      sent := false;
      match write
      case Sent =>
        umbilicalCycleCount := 0;
        sent := true;
      case Broken => PollFdCloseUmbilical(now);
      case Interrupted => umbilicalTimer := umbilicalTimer.Triggered(now);
      case WouldBlock =>
    }

    /** The part of pollFdTimerUmbilical_ that runs while an echo is awaited. */
    method CountUmbilicalCycle(now: int, umbilical: Observed)
      requires umbilicalSlot && (signalPlan.Some? <==> terminationTimer.Armed())
      modifies `umbilicalCycleCount, `umbilicalSlot, `umbilicalTimer, `tetherTimer, `signalPlan, `terminationTimer
      ensures View() == WithLink(old(View()), SentryWaits(old(Link()), umbilical), now)
    {
      if umbilical.Suspended? {
        umbilicalCycleCount := 0;
      } else if umbilical.Alive? {
        umbilicalCycleCount := umbilicalCycleCount + 1;
        if umbilicalCycleCount == umbilicalCycleLimit {
          PollFdCloseUmbilical(now);
        }
      }
    }

    /** pollFdTimerUmbilical_: tells whether a ping was written. */
    method PollFdTimerUmbilical(now: int, umbilical: Observed, write: Write) returns (pinged: bool)
      requires Valid() && umbilicalTimer.Armed()
      modifies `umbilicalCycleCount, `umbilicalSlot, `umbilicalTimer, `tetherTimer, `signalPlan, `terminationTimer
      ensures Valid()
      ensures View() == ChildLoop.Next(old(View()), LinkTimerFires(now, umbilical, write))
      ensures pinged <==> write.Sent? && old(umbilicalCycleCount == umbilicalCycleLimit)
    {
      hide ChildLoop.Inv, ChildLoop.Next, ChildLoop.Possible, Activated, SentryWaits, SentryWrites;
      LinkTimerKeepsInv(View(), now, umbilical, write);
      pinged := false;
      umbilicalTimer := umbilicalTimer.Lapped(now);
      if umbilicalCycleCount != umbilicalCycleLimit {
        CountUmbilicalCycle(now, umbilical);
      } else {
        pinged := PollFdWriteUmbilical(now, write);
      }
    }

    /** pollFdTether_ with disconnectPollFdTether_ */
    method PollFdTether()
      requires Valid() && tetherSlot
      modifies this
      ensures Valid() && View() == ChildLoop.Next(old(View()), TetherCloses) && threadPings == old(threadPings)
    {
      tetherSlot := false;
    }

    /** pollFdTimerTether_: lastActivity is what the tether thread recorded. */
    method PollFdTimerTether(now: int, child: Observed, lastActivity: int)
      requires Valid() && tetherTimer.Armed()
      modifies this
      ensures Valid() && threadPings == old(threadPings)
      ensures View() == ChildLoop.Next(old(View()), TetherTimerFires(now, child, lastActivity))
    {
      TetherTimerKeepsInv(View(), now, child, lastActivity);
      hide ChildLoop.Inv, ChildLoop.Next, ChildLoop.Possible;
      tetherTimer := tetherTimer.Lapped(now);
      if !child.Gone? {
        if child.Suspended? {
          tetherCycleCount := 0;
          return;
        }
        if now < lastActivity + tetherTimer.period {
          tetherTimer := tetherTimer.Restarted(lastActivity);
          tetherCycleCount := 0;
          return;
        }
        tetherCycleCount := tetherCycleCount + 1;
        if tetherCycleCount < tetherCycleLimit {
          return;
        }
        tetherCycleCount := tetherCycleLimit;
      }
      ActivateFdTimerTermination(Abort, now);
    }

    /** pollFdReapChildEvent_ with restartFdTimerTether_: the child runs again, or has ended. */
    method PollFdReapChildEvent(enabled: bool, now: int)
      requires Valid() && (enabled ==> !childLatchDisabled)
      modifies this
      ensures Valid() && threadPings == old(threadPings)
      ensures View() == ChildLoop.Next(old(View()), if enabled then ChildRuns(now) else ChildEnds(now))
    {
      if enabled {
        if tetherTimer.Armed() {
          tetherCycleCount := 0;
          tetherTimer := tetherTimer.Restarted(now);
        }
      } else {
        childLatchDisabled := true;
        flushed := true;
        disconnectionTimer := disconnectionTimer.Started(now, DISCONNECTION_PERIOD);
      }
    }

    /** pollFdTimerChild_: the tether thread is pinged so that it does not block. */
    method PollFdTimerChild(now: int)
      requires Valid() && disconnectionTimer.Armed()
      modifies this
      ensures Valid() && View() == ChildLoop.Next(old(View()), DisconnectionFires(now))
      ensures threadPings == old(threadPings) + 1 && childLatchDisabled
    {
      disconnectionTimer := disconnectionTimer.Lapped(now);
      threadPings := threadPings + 1;
    }

    /** pollFdCompletion_ */
    method PollFdCompletion() returns (done: bool)
      requires Valid()
      ensures done == Completed(View())
    {
      done := childLatchDisabled && !tetherSlot;
    }
  }
}
