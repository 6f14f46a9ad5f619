/** The tether thread: copies what the child writes on the tether to standard output, one read or one
    write for each event of its poll loop.

    Assumptions: FIONREAD tells how much the pipe holds; a read from a pipe that holds data returns at
    least one byte, unless it is interrupted or would block. */
module TetherCopy {
  import opened Common
  import opened Timers

  type Octet = bv8

  const BUFFER_SIZE: nat := 16 * 1024

  datatype Mask = InputEvents | OutputEvents | DisconnectEvent

  /** The outcome of read(2): data, none at the end of the input; interrupted or would block; an error. */
  datatype Read = Data(bytes: seq<Octet>) | ReadAgain | ReadFails

  /** The outcome of write(2): nothing is written when the output is closed. */
  datatype Write = Wrote(n: nat) | Broken | WriteAgain | WriteFails

  datatype Drained = Failed | More | Done

  /** What has been read and written so far, and what is in between. */
  datatype Copy = Copy(
    got: seq<Octet>,
    put: seq<Octet>,
    pending: seq<Octet>,
    control: bool,
    input: Mask,
    output: Mask,
    disconnect: Timer,
    activity: int)

  function NewCopy(now: int): Copy {
    Copy([], [], [], true, InputEvents, DisconnectEvent, Timer(0, 0), now)
  }

  predicate ReadFits(read: Read) {
    read.Data? ==> |read.bytes| <= BUFFER_SIZE
  }

  predicate WriteFits(c: Copy, write: Write) {
    write.Wrote? ==> write.n <= |c.pending|
  }

  /** pollFdDrainCopy_: reads when the buffer is empty, writes otherwise. */
  function DrainCopy(c: Copy, available: Option<nat>, read: Read, write: Write): (Copy, Drained)
    requires WriteFits(c, write)
  {
    if c.pending == [] then
      match available
      case None => (c, Failed)
      case Some(0) => (c, Done)
      case Some(_) =>
        match read
        case ReadFails => (c, Failed)
        case ReadAgain => (c, More)
        case Data(bytes) =>
          if bytes == [] then (c, Done)
          else (c.(got := c.got + bytes, pending := bytes, input := DisconnectEvent, output := OutputEvents), More)
    else
      match write
      case WriteFails => (c, Failed)
      case WriteAgain => (c, More)
      case Broken => (c, Done)
      case Wrote(0) => (c, Done)
      case Wrote(n) =>
        var d := c.(put := c.put + c.pending[..n], pending := c.pending[n..]);
        (if d.pending == [] then d.(input := InputEvents, output := DisconnectEvent) else d, More)
  }

  /** pollFdDrain_ */
  function Drain(c: Copy, now: int, available: Option<nat>, read: Read, write: Write): (Copy, Drained)
    requires WriteFits(c, write)
  {
    if !c.control then (c, More)
    else
      var (d, drained) := DrainCopy(c.(activity := now), available, read, write);
      (if drained.Done? then d.(control := false) else d, drained)
  }

  function Control(c: Copy, now: int, drainTimeout: nat): Copy {
    c.(disconnect := c.disconnect.Started(now, drainTimeout * NANOSECONDS))
  }

  function Disconnected(c: Copy): Copy {
    c.(disconnect := c.disconnect.Disabled(), control := false)
  }

  /** Nothing is lost or reordered between input and output, and the loop waits for the output exactly
      while there is something to write. */
  predicate Inv(c: Copy) {
    && c.put + c.pending == c.got
    && c.output == (if c.pending != [] then OutputEvents else DisconnectEvent)
    && c.input == (if c.pending != [] then DisconnectEvent else InputEvents)
  }

  lemma DrainKeepsInv(c: Copy, now: int, available: Option<nat>, read: Read, write: Write)
    requires Inv(c) && WriteFits(c, write)
    ensures Inv(Drain(c, now, available, read, write).0)
  {
    if c.control && c.pending != [] && write.Wrote? {
      assert c.pending == c.pending[..write.n] + c.pending[write.n..];
      assert (c.put + c.pending[..write.n]) + c.pending[write.n..] == c.put + c.pending;
    }
  }

  /** What ends the copying, and what is an error. The thread is done when the pipe is empty or closed, or when
      the output is; it fails when the size of the pipe cannot be told, or when a read or a write fails for
      any other reason than an interruption or that it would block. Neither touches the data. */
  lemma DrainOutcome(c: Copy, now: int, available: Option<nat>, read: Read, write: Write)
    requires c.control && WriteFits(c, write)
    ensures var (d, drained) := Drain(c, now, available, read, write);
            && (drained.Done? <==>
                if c.pending == [] then available == Some(0) || (available.Some? && read == Data([]))
                else write.Broken? || write == Wrote(0))
            && (drained.Failed? <==>
                if c.pending == [] then available.None? || (available != Some(0) && read.ReadFails?)
                else write.WriteFails?)
            && (drained.Done? <==> !d.control)
            && (!drained.More? ==> d.got == c.got && d.put == c.put && d.pending == c.pending)
            && d.activity == now && d.disconnect == c.disconnect
  {
  }

  // ------------------------------------------------------------------------------------------
  // The object

  class TetherPoll {
    const buf: array<Octet>
    var ptr: nat
    var end: nat

    // mPollFds: the control slot is polled while set
    var control: bool
    var input: Mask
    var output: Mask

    // mPollFdTimerActions and mThread.mActivity
    var disconnect: Timer
    var activity: int

    ghost var got: seq<Octet>
    ghost var put: seq<Octet>

    ghost predicate Valid()
      reads this, buf
    {
      buf.Length == BUFFER_SIZE && ptr <= end <= buf.Length && Inv(View())
    }

    ghost function View(): Copy
      requires ptr <= end <= buf.Length
      reads this, buf
    {
      Copy(got, put, buf[ptr..end], control, input, output, disconnect, activity)
    }

    constructor (now: int)
      ensures Valid() && View() == NewCopy(now) && fresh(buf)
    {
      buf := new Octet[BUFFER_SIZE];
      ptr, end := 0, 0;
      control, input, output := true, InputEvents, DisconnectEvent;
      disconnect, activity := Timer(0, 0), now;
      got, put := [], [];
    }

    /** pollFdDrainCopy_ */
    method PollFdDrainCopy(available: Option<nat>, read: Read, write: Write) returns (drained: Drained)
      requires Valid() && ReadFits(read) && WriteFits(View(), write)
      modifies this, buf
      ensures buf.Length == BUFFER_SIZE && ptr <= end <= buf.Length
      ensures (View(), drained) == DrainCopy(old(View()), available, read, write)
    {
      if ptr == end {
        if available.None? {
          return Failed;
        }
        if available.value == 0 {
          return Done;
        }
        if read.ReadFails? {
          return Failed;
        }
        if read.Data? {
          if read.bytes == [] {
            return Done;
          }
          forall i | 0 <= i < |read.bytes| {
            buf[i] := read.bytes[i];
          }
          ptr, end := 0, |read.bytes|;
          got := got + read.bytes;
          assert buf[ptr..end] == read.bytes;
          input, output := DisconnectEvent, OutputEvents;
        }
      } else {
        if write.WriteFails? {
          return Failed;
        }
        if write == Wrote(0) || write.Broken? {
          return Done;
        }
        if write.Wrote? {
          put := put + buf[ptr..ptr + write.n];
          assert old(View()).pending[..write.n] == buf[ptr..ptr + write.n];
          ptr := ptr + write.n;
          assert old(View()).pending[write.n..] == buf[ptr..end];
          if ptr == end {
            input, output := InputEvents, DisconnectEvent;
          }
        }
      }
      drained := More;
    }

    /** pollFdDrain_ */
    method PollFdDrain(now: int, available: Option<nat>, read: Read, write: Write) returns (drained: Drained)
      requires Valid() && ReadFits(read) && WriteFits(View(), write)
      modifies this, buf
      ensures Valid() && (View(), drained) == Drain(old(View()), now, available, read, write)
    {
      DrainKeepsInv(View(), now, available, read, write);
      drained := More;
      if control {
        activity := now;
        drained := PollFdDrainCopy(available, read, write);
        if drained.Done? {
          control := false;
        }
      }
    }

    /** pollFdControl_: the child has ended; a zero timeout waits for the output as long as it takes. */
    method PollFdControl(now: int, drainTimeout: nat)
      requires Valid()
      modifies `disconnect
      ensures Valid() && View() == Control(old(View()), now, drainTimeout)
    {
      disconnect := disconnect.Started(now, drainTimeout * NANOSECONDS);
    }

    /** pollFdTimerDisconnected_ */
    method PollFdTimerDisconnected()
      requires Valid()
      modifies `disconnect, `control
      ensures Valid() && View() == Disconnected(old(View()))
    {
      disconnect := disconnect.Disabled();
      control := false;
    }

    /** pollFdCompletion_ */
    method PollFdCompletion() returns (done: bool)
      requires Valid()
      ensures done == !View().control
    {
      done := !control;
    }
  }

  // ------------------------------------------------------------------------------------------
  // The thread between the child and the output

  /** Everything the child has written, the part of it that is still in the pipe, and whether the output
      was lost or the drain timeout has expired. The drain timeout, in seconds, is an option. */
  datatype System =
    System(written: seq<Octet>, pipe: seq<Octet>, copy: Copy, lost: bool, expired: bool, drainTimeout: nat)

  datatype Event =
    | ChildWrites(bytes: seq<Octet>)
    | ReadsSome(now: int, n: nat)
    | WritesSome(now: int, n: nat)
    | OutputBreaks(now: int)
    | Retries(now: int)
    | FindsNothing(now: int)
    | Flushes(now: int)
    | TimerFires(now: int)

  function Start(now: int, drainTimeout: nat): System {
    System([], [], NewCopy(now), false, false, drainTimeout)
  }

  /** The poll loop runs until the thread has completed. */
  predicate Possible(s: System, e: Event) {
    match e
    case ChildWrites(_) => true
    case ReadsSome(_, n) => s.copy.control && s.copy.pending == [] && 0 < n <= |s.pipe| && n <= BUFFER_SIZE
    case WritesSome(_, n) => s.copy.control && 0 < n <= |s.copy.pending|
    case OutputBreaks(_) => s.copy.control && s.copy.pending != []
    case Retries(_) => s.copy.control && (s.copy.pending == [] ==> s.pipe != [])
    case FindsNothing(_) => s.copy.control && s.copy.pending == [] && s.pipe == []
    case Flushes(_) => s.copy.control
    case TimerFires(now) => s.copy.control && s.copy.disconnect.Expired(now)
  }

  function Drains(s: System, now: int, read: Read, write: Write): Copy
    requires WriteFits(s.copy, write)
  {
    Drain(s.copy, now, Some(|s.pipe|), read, write).0
  }

  function Next(s: System, e: Event): System
    requires Possible(s, e)
  {
    match e
    case ChildWrites(bytes) => s.(written := s.written + bytes, pipe := s.pipe + bytes)
    case ReadsSome(now, n) => s.(copy := Drains(s, now, Data(s.pipe[..n]), WriteAgain), pipe := s.pipe[n..])
    case WritesSome(now, n) => s.(copy := Drains(s, now, ReadAgain, Wrote(n)))
    case OutputBreaks(now) => s.(copy := Drains(s, now, ReadAgain, Broken), lost := true)
    case Retries(now) => s.(copy := Drains(s, now, ReadAgain, WriteAgain))
    case FindsNothing(now) => s.(copy := Drains(s, now, ReadAgain, WriteAgain))
    case Flushes(now) => s.(copy := Control(s.copy, now, s.drainTimeout))
    case TimerFires(_) => s.(copy := Disconnected(s.copy), expired := true)
  }

  /** The state after a run, if every event in it was possible. */
  function After(start: System, events: seq<Event>): Option<System> {
    if events == [] then Some(start)
    else
      match After(start, events[..|events| - 1])
      case None => None
      case Some(s) => if Possible(s, events[|events| - 1]) then Some(Next(s, events[|events| - 1])) else None
  }

  /** How much is left to do: each byte in the pipe is read and written, each byte in the buffer written. */
  function Left(s: System): nat {
    2 * |s.pipe| + |s.copy.pending|
  }

  predicate Conserved(s: System) {
    Inv(s.copy) && s.copy.got + s.pipe == s.written
  }

  lemma NextConserves(s: System, e: Event)
    requires Conserved(s) && Possible(s, e)
    ensures Conserved(Next(s, e))
    ensures !e.ChildWrites? ==> Left(Next(s, e)) <= Left(s)
    ensures e.ReadsSome? || e.WritesSome? ==> Left(Next(s, e)) + e.n == Left(s)
    ensures Next(s, e).copy.control <==> s.copy.control && !e.OutputBreaks? && !e.FindsNothing? && !e.TimerFires?
  {
    match e
    case ChildWrites(bytes) => assert s.copy.got + (s.pipe + bytes) == (s.copy.got + s.pipe) + bytes;
    case ReadsSome(now, n) =>
      DrainKeepsInv(s.copy, now, Some(|s.pipe|), Data(s.pipe[..n]), WriteAgain);
      assert s.pipe == s.pipe[..n] + s.pipe[n..];
      assert (s.copy.got + s.pipe[..n]) + s.pipe[n..] == s.copy.got + s.pipe;
    case WritesSome(now, n) => DrainKeepsInv(s.copy, now, Some(|s.pipe|), ReadAgain, Wrote(n));
    case _ =>
  }

  lemma {:induction false} RunConserves(now: int, drainTimeout: nat, events: seq<Event>)
    requires After(Start(now, drainTimeout), events).Some?
    ensures Conserved(After(Start(now, drainTimeout), events).value)
  {
    if events == [] {
    } else {
      RunConserves(now, drainTimeout, events[..|events| - 1]);
      NextConserves(After(Start(now, drainTimeout), events[..|events| - 1]).value, events[|events| - 1]);
    }
  }

  /** After any sequence of partial reads and writes, interruptions and retries: what the child has
      written is what was delivered, followed by what is in the buffer, followed by what is in the
      pipe; and the loop waits for the output exactly while the buffer holds something. */
  lemma NothingIsLost(now: int, drainTimeout: nat, events: seq<Event>)
    requires After(Start(now, drainTimeout), events).Some?
    ensures var s := After(Start(now, drainTimeout), events).value;
            && s.written == s.copy.put + s.copy.pending + s.pipe
            && (s.copy.output == OutputEvents <==> s.copy.pending != [])
            && (s.copy.input == InputEvents <==> s.copy.pending == [])
  {
    RunConserves(now, drainTimeout, events);
  }

  /** When the thread completes, everything that the child has written until then was delivered, unless the output
      was lost or the drain timeout expired; afterwards it copies nothing any more. */
  lemma {:induction false} CompletionDelivers(
    now: int, drainTimeout: nat, before: seq<Event>, last: Event, later: seq<Event>)
    requires After(Start(now, drainTimeout), before + [last] + later).Some?
    requires After(Start(now, drainTimeout), before).Some? && After(Start(now, drainTimeout), before).value.copy.control
    requires After(Start(now, drainTimeout), before + [last]).Some?
    requires !After(Start(now, drainTimeout), before + [last]).value.copy.control
    ensures var done := After(Start(now, drainTimeout), before + [last]).value;
            var s := After(Start(now, drainTimeout), before + [last] + later).value;
            s.copy == done.copy && (done.lost || done.expired || s.copy.put == done.written)
    decreases |later|
  {
    var events := before + [last] + later;
    if later == [] {
      assert events == before + [last];
      RunConserves(now, drainTimeout, before);
      RunConserves(now, drainTimeout, before + [last]);
      assert (before + [last])[..|before|] == before;
      NextConserves(After(Start(now, drainTimeout), before).value, last);
    } else {
      assert events[..|events| - 1] == before + [last] + later[..|later| - 1];
      CompletionDelivers(now, drainTimeout, before, last, later[..|later| - 1]);
    }
  }

  predicate OnlyMoves(events: seq<Event>) {
    forall k :: 0 <= k < |events| ==> events[k].ReadsSome? || events[k].WritesSome?
  }

  /** Draining ends: once the child has stopped writing, the reads and writes that move data are no more
      than twice the bytes in the pipe plus the bytes in the buffer. */
  lemma {:induction false} DrainingEnds(s: System, moves: seq<Event>)
    requires Conserved(s) && After(s, moves).Some? && OnlyMoves(moves)
    ensures Conserved(After(s, moves).value) && Left(After(s, moves).value) + |moves| <= Left(s)
  {
    if moves == [] {
    } else {
      var prefix := moves[..|moves| - 1];
      DrainingEnds(s, prefix);
      NextConserves(After(s, prefix).value, moves[|moves| - 1]);
    }
  }

  // ------------------------------------------------------------------------------------------
  // What the monitor is told, and when the thread is made to end

  predicate IsDrain(e: Event) {
    e.ReadsSome? || e.WritesSome? || e.OutputBreaks? || e.Retries? || e.FindsNothing?
  }

  /** When pollFdDrain_ was called last; the thread was created at the given time. */
  function LastDrain(start: int, events: seq<Event>): int {
    if events == [] then start
    else if IsDrain(events[|events| - 1]) then events[|events| - 1].now
    else LastDrain(start, events[..|events| - 1])
  }

  /** When the monitor first asked the thread to flush. */
  function FirstFlush(events: seq<Event>): Option<int> {
    if events == [] then None
    else
      var earlier := FirstFlush(events[..|events| - 1]);
      if earlier.None? && events[|events| - 1].Flushes? then Some(events[|events| - 1].now) else earlier
  }

  /** The activity that the tether timer of the monitor looks at is the time of the last drain, in every run; or
      the time at which the thread was created. */
  lemma {:induction false} ActivityIsLastDrain(now: int, drainTimeout: nat, events: seq<Event>)
    requires After(Start(now, drainTimeout), events).Some?
    ensures After(Start(now, drainTimeout), events).value.copy.activity == LastDrain(now, events)
  {
    if events != [] {
      ActivityIsLastDrain(now, drainTimeout, events[..|events| - 1]);
    }
  }

  lemma StepKeepsTimer(s: System, e: Event)
    requires Possible(s, e)
    ensures Next(s, e).drainTimeout == s.drainTimeout
    ensures Next(s, e).copy.disconnect ==
            if e.Flushes? then s.copy.disconnect.Started(e.now, s.drainTimeout * NANOSECONDS)
            else if e.TimerFires? then s.copy.disconnect.Disabled()
            else s.copy.disconnect
    ensures Next(s, e).copy.control ==> s.copy.control && !e.TimerFires?
  {
  }

  lemma {:induction false} TimerIsFirstFlush(now: int, drainTimeout: nat, events: seq<Event>)
    requires After(Start(now, drainTimeout), events).Some?
    ensures var s := After(Start(now, drainTimeout), events).value;
            && s.drainTimeout == drainTimeout
            && (s.copy.control && drainTimeout > 0 ==>
                  s.copy.disconnect ==
                  match FirstFlush(events)
                  case None => Timer(0, 0)
                  case Some(flush) => Timer(flush, drainTimeout * NANOSECONDS))
            && (drainTimeout == 0 ==> !s.copy.disconnect.Armed())
  {
    if events != [] {
      var prefix := events[..|events| - 1];
      TimerIsFirstFlush(now, drainTimeout, prefix);
      StepKeepsTimer(After(Start(now, drainTimeout), prefix).value, events[|events| - 1]);
      hide Next, Possible;
    }
  }

  /** Exactly when the thread can be made to end before everything is delivered: in every run of a thread that
      has not completed, when there is a drain timeout and it has passed since the monitor first asked
      the thread to flush. */
  lemma ForcedIff(now: int, drainTimeout: nat, events: seq<Event>, firing: int)
    requires After(Start(now, drainTimeout), events).Some?
    requires After(Start(now, drainTimeout), events).value.copy.control
    ensures Possible(After(Start(now, drainTimeout), events).value, TimerFires(firing)) <==>
            && drainTimeout > 0 && FirstFlush(events).Some?
            && FirstFlush(events).value + drainTimeout * NANOSECONDS <= firing
    ensures var s := After(Start(now, drainTimeout), events).value;
            Possible(s, TimerFires(firing)) ==>
              var t := Next(s, TimerFires(firing));
              && !t.copy.control && t.expired && !t.copy.disconnect.Armed()
              && t.copy.put == s.copy.put && t.copy.pending == s.copy.pending
  {
    TimerIsFirstFlush(now, drainTimeout, events);
    hide After;
  }
}
