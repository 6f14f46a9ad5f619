/** The life of the sentry: in which order it forks, announces, starts, monitors, cleans up and reaps,
    whichever step fails.

    The steps that this module treats as one are the subject of other modules: creating and withdrawing
    the pid file (PidFileObject), the handshake with the child (StartHandshake), monitoring
    (ChildMonitor). An ERT_ABORT of the source is assumed not to happen; ert_terminate ends the process
    on the spot. */
module Sentry {
  import opened Common

  /** What others can observe. A pid file is withdrawn when it is truncated, unlinked and closed, and left
      when it is only closed. */
  datatype Effect =
    | Forks | Watches | Unwatches | CreatesPidFile | CreatesUmbilical | StartsChild | Monitors
    | StopsUmbilical | KillsGroup | LocksPidFile | WithdrawsPidFile | LeavesPidFile | KillsChild | Reaps

  datatype Child = Unforked | Live | Reaped
  datatype Name = Unnamed | Named | Locked | Withdrawn | Left
  datatype Helper = NoUmbilical | Running | Stopped

  datatype Progress = Progress(child: Child, watched: bool, name: Name, umbilical: Helper, started: bool)

  function Beginning(): Progress {
    Progress(Unforked, false, Unnamed, NoUmbilical, false)
  }

  /** Which effects are in order. Only an unreaped child is signalled; signals are propagated to the child
      only while it is unreaped; the child is reaped when the pid file no longer names it or is given
      up. */
  function Advance(p: Progress, withPidFile: bool, e: Effect): Option<Progress> {
    match e
    case Forks => if p.child.Unforked? then Some(p.(child := Live)) else None
    case Watches => if p.child.Live? then Some(p.(watched := true)) else None
    case Unwatches => Some(p.(watched := false))
    case CreatesPidFile =>
      if p.child.Live? && p.name.Unnamed? && p.umbilical.NoUmbilical? then Some(p.(name := Named)) else None
    case CreatesUmbilical => if p.child.Live? && p.umbilical.NoUmbilical? then Some(p.(umbilical := Running)) else None
    case StartsChild =>
      if p.child.Live? && p.umbilical.Running? && (withPidFile ==> p.name.Named?) then
        Some(p.(started := true)) else None
    case Monitors => if p.started && p.umbilical.Running? then Some(p) else None
    case StopsUmbilical => if p.umbilical.Running? then Some(p.(umbilical := Stopped)) else None
    case KillsGroup => if p.child.Live? then Some(p) else None
    case LocksPidFile => if p.name.Named? && p.umbilical.Stopped? then Some(p.(name := Locked)) else None
    case WithdrawsPidFile => if p.child.Live? && p.name.Locked? then Some(p.(name := Withdrawn)) else None
    case LeavesPidFile => if p.child.Live? && p.name.Named? then Some(p.(name := Left)) else None
    case KillsChild => if p.child.Live? then Some(p) else None
    case Reaps =>
      if p.child.Live? && !p.watched && !p.name.Named? && !p.name.Locked? then Some(p.(child := Reaped)) else None
  }

  /** How far the effects get; None when they are out of order. */
  function After(withPidFile: bool, effects: seq<Effect>): Option<Progress> {
    if effects == [] then Some(Beginning())
    else
      match After(withPidFile, effects[..|effects| - 1])
      case None => None
      case Some(p) => Advance(p, withPidFile, effects[|effects| - 1])
  }

  lemma NothingYet(withPidFile: bool)
    ensures After(withPidFile, []) == Some(Beginning())
  {
  }

  // ------------------------------------------------------------------------------------------
  // What the order means

  lemma {:induction false} PrefixIsOrderly(withPidFile: bool, effects: seq<Effect>, n: nat)
    requires After(withPidFile, effects).Some? && n <= |effects|
    ensures After(withPidFile, effects[..n]).Some?
  {
    if n == |effects| {
      assert effects[..n] == effects;
    } else {
      PrefixIsOrderly(withPidFile, effects[..|effects| - 1], n);
      assert effects[..|effects| - 1][..n] == effects[..n];
    }
  }

  lemma StepOfPrefix(withPidFile: bool, effects: seq<Effect>, n: nat)
    requires After(withPidFile, effects).Some? && n < |effects|
    ensures After(withPidFile, effects[..n]).Some? && After(withPidFile, effects[..n + 1]).Some?
    ensures Advance(After(withPidFile, effects[..n]).value, withPidFile, effects[n]) ==
              After(withPidFile, effects[..n + 1])
  {
    PrefixIsOrderly(withPidFile, effects, n);
    PrefixIsOrderly(withPidFile, effects, n + 1);
    assert effects[..n + 1][..n] == effects[..n];
  }

  predicate Touches(e: Effect) {
    e.Forks? || e.KillsGroup? || e.KillsChild? || e.Reaps? || e.CreatesPidFile? || e.StartsChild? || e.Watches?
  }

  lemma {:induction false} ReapedStays(withPidFile: bool, effects: seq<Effect>, m: nat, n: nat)
    requires After(withPidFile, effects).Some? && m <= n <= |effects|
    requires After(withPidFile, effects[..m]).Some? && After(withPidFile, effects[..m]).value.child.Reaped?
    ensures After(withPidFile, effects[..n]).Some?
    ensures After(withPidFile, effects[..n]).value.child.Reaped?
    decreases n - m
  {
    if m < n {
      ReapedStays(withPidFile, effects, m, n - 1);
      StepOfPrefix(withPidFile, effects, n - 1);
    }
  }

  /** After the child was reaped, its pid is never signalled, announced or reaped again. */
  lemma NothingAfterReaping(withPidFile: bool, effects: seq<Effect>, i: nat, j: nat)
    requires After(withPidFile, effects).Some? && i < j < |effects| && effects[i].Reaps?
    ensures !Touches(effects[j])
  {
    StepOfPrefix(withPidFile, effects, i);
    ReapedStays(withPidFile, effects, i + 1, j);
    StepOfPrefix(withPidFile, effects, j);
  }

  predicate Released(effects: seq<Effect>, n: nat)
    requires n <= |effects|
  {
    exists k :: 0 <= k < n && (effects[k].WithdrawsPidFile? || effects[k].LeavesPidFile?)
  }

  predicate Has(effects: seq<Effect>, n: nat, e: Effect)
    requires n <= |effects|
  {
    exists k :: 0 <= k < n && effects[k] == e
  }

  /** Signals are being propagated to the child. */
  predicate Watching(effects: seq<Effect>, n: nat)
    requires n <= |effects|
  {
    exists i :: 0 <= i < n && WatchedSince(effects, i, n)
  }

  predicate WatchedSince(effects: seq<Effect>, i: nat, n: nat)
    requires i < n <= |effects|
  {
    effects[i].Watches? && forall k :: i < k < n ==> !effects[k].Unwatches?
  }

  lemma WatchingStep(effects: seq<Effect>, n: nat)
    requires n < |effects|
    ensures Watching(effects, n + 1) <==> effects[n].Watches? || (Watching(effects, n) && !effects[n].Unwatches?)
  {
    if effects[n].Watches? {
      assert WatchedSince(effects, n, n + 1);
    }
    if Watching(effects, n) && !effects[n].Unwatches? {
      var i :| 0 <= i < n && WatchedSince(effects, i, n);
      assert WatchedSince(effects, i, n + 1);
    }
    if Watching(effects, n + 1) && !effects[n].Watches? {
      var i :| 0 <= i < n + 1 && WatchedSince(effects, i, n + 1);
      assert WatchedSince(effects, i, n);
    }
  }

  /** What the progress after the first n effects says about them. */
  predicate Reflects(p: Progress, effects: seq<Effect>, n: nat)
    requires n <= |effects|
  {
    && (p.name.Unnamed? <==> !Has(effects, n, CreatesPidFile))
    && (p.name.Withdrawn? || p.name.Left? <==> Released(effects, n))
    && (p.name.Withdrawn? || p.name.Locked? ==> Has(effects, n, LocksPidFile) && Has(effects, n, StopsUmbilical))
    && (p.umbilical.Stopped? ==> Has(effects, n, StopsUmbilical))
    && (p.umbilical.NoUmbilical? <==> !Has(effects, n, CreatesUmbilical))
    && (p.watched <==> Watching(effects, n))
  }

  lemma NextReflects(p: Progress, withPidFile: bool, effects: seq<Effect>, n: nat)
    requires n < |effects| && Reflects(p, effects, n) && Advance(p, withPidFile, effects[n]).Some?
    ensures Reflects(Advance(p, withPidFile, effects[n]).value, effects, n + 1)
  {
    var e := effects[n];
    forall x ensures Has(effects, n + 1, x) <==> Has(effects, n, x) || x == e {
    }
    assert Released(effects, n + 1) <==> Released(effects, n) || e.WithdrawsPidFile? || e.LeavesPidFile?;
    WatchingStep(effects, n);
    hide Has, Released, Watching;
  }

  lemma {:induction false} ProgressMeans(withPidFile: bool, effects: seq<Effect>, n: nat)
    requires After(withPidFile, effects).Some? && n <= |effects|
    ensures After(withPidFile, effects[..n]).Some? && Reflects(After(withPidFile, effects[..n]).value, effects, n)
  {
    if n == 0 {
      assert effects[..0] == [];
    } else {
      ProgressMeans(withPidFile, effects, n - 1);
      StepOfPrefix(withPidFile, effects, n - 1);
      hide After, Advance, Reflects;
      NextReflects(After(withPidFile, effects[..n - 1]).value, withPidFile, effects, n - 1);
    }
  }

  lemma WithdrawnUnderLock(withPidFile: bool, effects: seq<Effect>, k: nat)
    requires After(withPidFile, effects).Some? && k < |effects| && effects[k].WithdrawsPidFile?
    ensures Has(effects, k, LocksPidFile) && Has(effects, k, StopsUmbilical)
  {
    StepOfPrefix(withPidFile, effects, k);
    ProgressMeans(withPidFile, effects, k);
  }

  /** A pid file that was created is withdrawn or given up before the child is reaped, and it is
      withdrawn only under its write lock, after the umbilical was asked to stop. */
  lemma ReapedAfterRelease(withPidFile: bool, effects: seq<Effect>, i: nat, j: nat)
    requires After(withPidFile, effects).Some? && i < j < |effects|
    requires effects[i].CreatesPidFile? && effects[j].Reaps?
    ensures Released(effects, j)
    ensures forall k :: 0 <= k < |effects| && effects[k].WithdrawsPidFile? ==>
              Has(effects, k, LocksPidFile) && Has(effects, k, StopsUmbilical)
  {
    hide After;
    StepOfPrefix(withPidFile, effects, j);
    ProgressMeans(withPidFile, effects, j);
    assert Has(effects, j, CreatesPidFile);
    forall k | 0 <= k < |effects| && effects[k].WithdrawsPidFile?
      ensures Has(effects, k, LocksPidFile) && Has(effects, k, StopsUmbilical)
    {
      WithdrawnUnderLock(withPidFile, effects, k);
    }
  }

  /** The child is started only when the pid file, if there is one, was created and the umbilical process
      exists. */
  lemma StartedAfterAnnouncement(withPidFile: bool, effects: seq<Effect>, j: nat)
    requires After(withPidFile, effects).Some? && j < |effects| && effects[j].StartsChild?
    ensures Has(effects, j, CreatesUmbilical) &&
              (withPidFile ==> Has(effects, j, CreatesPidFile) && !Released(effects, j))
  {
    StepOfPrefix(withPidFile, effects, j);
    ProgressMeans(withPidFile, effects, j);
  }

  /** The child is reaped only when signals are no longer propagated to it. */
  lemma ReapedUnwatched(withPidFile: bool, effects: seq<Effect>, j: nat)
    requires After(withPidFile, effects).Some? && j < |effects| && effects[j].Reaps?
    ensures !Watching(effects, j)
  {
    StepOfPrefix(withPidFile, effects, j);
    ProgressMeans(withPidFile, effects, j);
  }

  /** The order in plain terms: nothing touches the child after it was reaped; it is reaped only when
      signals are no longer propagated to it and a pid file that was created is withdrawn or given up;
      the pid file is withdrawn only under its write lock, after the umbilical was asked to stop; and
      the child is started only when the umbilical exists and the pid file, if wanted, is in place. */
  predicate InOrder(withPidFile: bool, effects: seq<Effect>) {
    && (forall i, j :: 0 <= i < j < |effects| && effects[i].Reaps? ==> !Touches(effects[j]))
    && (forall i, j :: 0 <= i < j < |effects| && effects[i].CreatesPidFile? && effects[j].Reaps? ==>
        Released(effects, j))
    && (forall j :: 0 <= j < |effects| && effects[j].Reaps? ==> !Watching(effects, j))
    && (forall k :: 0 <= k < |effects| && effects[k].WithdrawsPidFile? ==>
          Has(effects, k, LocksPidFile) && Has(effects, k, StopsUmbilical))
    && (forall j :: 0 <= j < |effects| && effects[j].StartsChild? ==>
          && Has(effects, j, CreatesUmbilical)
          && (withPidFile ==> Has(effects, j, CreatesPidFile) && !Released(effects, j)))
  }

  lemma OrderlyMeans(withPidFile: bool, effects: seq<Effect>)
    requires After(withPidFile, effects).Some?
    ensures InOrder(withPidFile, effects)
  {
    hide After, Has, Released, Watching;
    forall i, j | 0 <= i < j < |effects| && effects[i].Reaps? ensures !Touches(effects[j]) {
      NothingAfterReaping(withPidFile, effects, i, j);
    }
    forall i, j | 0 <= i < j < |effects| && effects[i].CreatesPidFile? && effects[j].Reaps?
      ensures Released(effects, j)
    {
      ReapedAfterRelease(withPidFile, effects, i, j);
    }
    forall j | 0 <= j < |effects| && effects[j].Reaps? ensures !Watching(effects, j) {
      ReapedUnwatched(withPidFile, effects, j);
    }
    forall k | 0 <= k < |effects| && effects[k].WithdrawsPidFile?
      ensures Has(effects, k, LocksPidFile) && Has(effects, k, StopsUmbilical)
    {
      WithdrawnUnderLock(withPidFile, effects, k);
    }
    forall j | 0 <= j < |effects| && effects[j].StartsChild?
      ensures Has(effects, j, CreatesUmbilical) &&
                (withPidFile ==> Has(effects, j, CreatesPidFile) && !Released(effects, j))
    {
      StartedAfterAnnouncement(withPidFile, effects, j);
    }
  }

  // ------------------------------------------------------------------------------------------
  // The object

  datatype Announcement = Announced | NamesActive | AnnounceFails

  datatype Outcome = Finished | Rejected | Failed | Terminated

  /** The calls whose failure createSentry and runSentry handle, in the order of the source. ForkReports is
      the fork that succeeds and whose supervision fails. */
  datatype Step =
    | SocketPair | ChildProcess | JobControl | WatchDone | BellPair | Fork | ForkReports
    | WatchSignals | WatchStop | WatchContinue | InitPidFile | CreatePidServer
    | ChangeDirectory | AttachStdin | CloseTether | PurgeFds
    | ForkUmbilical | Supervise | PrintPids | FirstRing | FirstWait | PrintChild | SecondRing
    | TestStdout | DiscardStdout | LastWait | StopSelf | MonitorChild
    | StopUmbilical | KillGroup | WriteLock
    | UnwatchContinue | UnwatchStop | UnwatchSignals | UnwatchDone | ReapChild
    | NoStep

  predicate BeforeFork(s: Step) {
    s.SocketPair? || s.ChildProcess? || s.JobControl? || s.WatchDone? || s.BellPair? || s.Fork?
  }

  predicate WhileCreating(s: Step, withPidFile: bool) {
    || BeforeFork(s) || s.ForkReports? || s.WatchSignals? || s.WatchStop? || s.WatchContinue?
    || (withPidFile && (s.InitPidFile? || s.CreatePidServer?))
    || s.ChangeDirectory? || s.AttachStdin? || s.CloseTether? || s.PurgeFds?
  }

  predicate WhileStarting(s: Step) {
    s.FirstRing? || s.FirstWait? || s.PrintChild? || s.SecondRing? || s.TestStdout? || s.DiscardStdout? ||
    s.LastWait? || s.StopSelf?
  }

  predicate WhileEnding(s: Step) {
    s.UnwatchContinue? || s.UnwatchStop? || s.UnwatchSignals? || s.UnwatchDone? || s.ReapChild?
  }

  predicate InFirstHalf(s: Step) {
    s.ForkUmbilical? || s.Supervise? || s.PrintPids? || WhileStarting(s) || s.MonitorChild?
  }

  /** A failure of these ends the process on the spot. */
  predicate Terminates(s: Step) {
    s.ForkUmbilical? || s.PrintPids?
  }

  // ------------------------------------------------------------------------------------------
  // What the sentry does, step by step

  function Creating(fails: Step): seq<Effect> {
    if BeforeFork(fails) then [] else if fails.ForkReports? || fails.WatchSignals? then [Forks] else [Forks, Watches]
  }

  /** What is undone when a sentry is closed, given whether its pid file is open and locked, whether the signals
      are watched, and whether there is a child that was not reaped. */
  function Closing(open: bool, locked: bool, watching: bool, unreaped: bool): seq<Effect> {
    Releasing(open, locked, watching) + (if unreaped then [KillsChild, Reaps] else [])
  }

  function Releasing(open: bool, locked: bool, watching: bool): seq<Effect> {
    (if open then [if locked then WithdrawsPidFile else LeavesPidFile] else []) +
    (if watching then [Unwatches] else [])
  }

  /** From the umbilical process to the end of the child. */
  function Starting(fails: Step): seq<Effect> {
    if fails.ForkUmbilical? then []
    else if fails.Supervise? || fails.PrintPids? then [CreatesUmbilical]
    else if InFirstHalf(fails) then [CreatesUmbilical, StartsChild]
    else [CreatesUmbilical, StartsChild, Monitors]
  }

  function Withdrawing(withPidFile: bool): seq<Effect> {
    if withPidFile then [LocksPidFile, WithdrawsPidFile] else []
  }

  /** From the end of the child to its reaping. */
  function Ending(fails: Step, withPidFile: bool): seq<Effect> {
    if fails.StopUmbilical? then []
    else if fails.KillGroup? then [StopsUmbilical]
    else if fails.WriteLock? && withPidFile then [StopsUmbilical, KillsGroup]
    else [StopsUmbilical, KillsGroup] + Withdrawing(withPidFile) + Reaping(fails)
  }

  function Reaping(fails: Step): seq<Effect> {
    if fails.UnwatchContinue? || fails.UnwatchStop? || fails.UnwatchSignals? then []
    else if WhileEnding(fails) then [Unwatches]
    else [Unwatches, Reaps]
  }

  predicate EndingFails(s: Step, withPidFile: bool) {
    s.StopUmbilical? || s.KillGroup? || (s.WriteLock? && withPidFile) || WhileEnding(s)
  }

  lemma EarlierThanStarting(s: Step)
    ensures s.ForkUmbilical? || s.Supervise? || s.PrintPids? ==> !WhileStarting(s)
  {
  }

  lemma EarlierThanEnding(s: Step)
    ensures s.StopUmbilical? || s.KillGroup? || s.WriteLock? ==> !WhileEnding(s)
  {
  }

  lemma EarlierThanReaping(s: Step)
    ensures InFirstHalf(s) ==> !WhileEnding(s)
  {
  }

  function OutcomeOf(withPidFile: bool, announcement: Announcement, fails: Step): Outcome {
    if WhileCreating(fails, withPidFile) || (withPidFile && announcement.AnnounceFails?) then Failed
    else if withPidFile && announcement.NamesActive? then Rejected
    else if Terminates(fails) then Terminated
    else if InFirstHalf(fails) || EndingFails(fails, withPidFile) then Failed
    else Finished
  }

  /** From the announcement on. */
  function Living(withPidFile: bool, announcement: Announcement, fails: Step): seq<Effect> {
    if withPidFile && !announcement.Announced? then []
    else
      (if withPidFile then [CreatesPidFile] else []) + Starting(fails) +
      if InFirstHalf(fails) then [] else Ending(fails, withPidFile)
  }

  /** What closeSentry finds to undo at the end, unless the process was terminated on the spot. */
  function AtTheEnd(withPidFile: bool, announcement: Announcement, fails: Step): seq<Effect> {
    match OutcomeOf(withPidFile, announcement, fails)
    case Terminated => []
    case Rejected => Closing(false, false, true, true)
    case Failed => Closing(StillOpen(withPidFile, announcement, fails), false, true, true)
    case Finished => Closing(false, false, true, false)
  }

  /** The pid file is left to closeSentry: it was created, and what failed came before its withdrawal. */
  predicate StillOpen(withPidFile: bool, announcement: Announcement, fails: Step) {
    withPidFile && announcement.Announced? && !WhileEnding(fails)
  }

  /** What others observe of the whole life of a sentry. */
  function EffectsOf(withPidFile: bool, announcement: Announcement, fails: Step): seq<Effect> {
    if WhileCreating(fails, withPidFile) then
      Creating(fails) + Closing(false, false, Controlled(fails), !BeforeFork(fails))
    else [Forks, Watches] + Living(withPidFile, announcement, fails) + AtTheEnd(withPidFile, announcement, fails)
  }

  /** The job control was created. */
  predicate Controlled(fails: Step) {
    !fails.SocketPair? && !fails.ChildProcess? && !fails.JobControl?
  }

  /** The life of a sentry in which nothing fails: the child is forked, announced, started and monitored; then the
      umbilical process is stopped, the process group of the child is killed, the pid file is withdrawn under its
      lock, and only then the child is reaped. */
  lemma FinishedLife(withPidFile: bool, announcement: Announcement, fails: Step)
    requires OutcomeOf(withPidFile, announcement, fails).Finished?
    ensures EffectsOf(withPidFile, announcement, fails) ==
            [Forks, Watches] + (if withPidFile then [CreatesPidFile] else []) +
            [CreatesUmbilical, StartsChild, Monitors, StopsUmbilical, KillsGroup] +
            (if withPidFile then [LocksPidFile, WithdrawsPidFile] else []) +
            [Unwatches, Reaps, Unwatches]
  {
  }

  /** The child is neither killed nor reaped. */
  predicate Spares(effects: seq<Effect>) {
    forall k :: 0 <= k < |effects| ==> !effects[k].KillsChild? && !effects[k].Reaps?
  }

  /** The last two things that happen are that the child is killed and that it is reaped, and neither happens
      before. */
  predicate KilledAndReaped(effects: seq<Effect>) {
    |effects| >= 2 && effects[|effects| - 2..] == [KillsChild, Reaps] && Spares(effects[..|effects| - 2])
  }

  /** What was begun is undone: a child that was forked is killed and reaped, and without one nothing has happened. */
  predicate Undone(fails: Step, effects: seq<Effect>) {
    if BeforeFork(fails) then effects == [] || effects == [Unwatches]
    else KilledAndReaped(effects) && effects[0] == Forks
  }

  lemma ClosedLast(before: seq<Effect>, open: bool, watching: bool)
    requires Spares(before)
    ensures KilledAndReaped(before + Closing(open, false, watching, true))
    ensures |before| > 0 ==> (before + Closing(open, false, watching, true))[0] == before[0]
  {
    var effects := before + Closing(open, false, watching, true);
    assert effects == before + Releasing(open, false, watching) + [KillsChild, Reaps];
    assert effects[..|effects| - 2] == before + Releasing(open, false, watching);
  }

  lemma UntilItFails(withPidFile: bool, announcement: Announcement, fails: Step)
    requires !WhileCreating(fails, withPidFile)
    requires var o := OutcomeOf(withPidFile, announcement, fails); o.Failed? || o.Rejected?
    ensures Spares([Forks, Watches] + Living(withPidFile, announcement, fails))
  {
    hide Starting, Ending, InFirstHalf, EndingFails, WhileEnding, WhileStarting, WhileCreating, Terminates;
    StartingSpares(fails);
    if EndingFails(fails, withPidFile) {
      EndingSpares(fails, withPidFile);
    }
  }

  lemma StartingSpares(fails: Step)
    ensures Spares(Starting(fails))
  {
  }

  lemma EndingSpares(fails: Step, withPidFile: bool)
    requires EndingFails(fails, withPidFile)
    ensures Spares(Ending(fails, withPidFile))
  {
  }

  /** The life of a sentry that fails or is rejected: if the child was forked, it ends with the killing and the
      reaping of the child, and neither happens before; otherwise nothing has happened. */
  lemma UnfinishedLife(withPidFile: bool, announcement: Announcement, fails: Step)
    requires var o := OutcomeOf(withPidFile, announcement, fails); o.Failed? || o.Rejected?
    ensures Undone(fails, EffectsOf(withPidFile, announcement, fails))
  {
    hide Closing, KilledAndReaped, Living;
    if WhileCreating(fails, withPidFile) {
      if BeforeFork(fails) {
        NothingToUndo(Controlled(fails));
      } else {
        ClosedLast(Creating(fails), false, Controlled(fails));
      }
    } else {
      UntilItFails(withPidFile, announcement, fails);
      var before := [Forks, Watches] + Living(withPidFile, announcement, fails);
      ClosedLast(before, StillOpen(withPidFile, announcement, fails), true);
      ClosedLast(before, false, true);
    }
  }

  lemma FailureIsUndone(withPidFile: bool, announcement: Announcement, fails: Step)
    ensures var o := OutcomeOf(withPidFile, announcement, fails);
            o.Failed? || o.Rejected? ==> Undone(fails, EffectsOf(withPidFile, announcement, fails))
  {
    var o := OutcomeOf(withPidFile, announcement, fails);
    if o.Failed? || o.Rejected? {
      UnfinishedLife(withPidFile, announcement, fails);
    }
  }

  lemma NothingToUndo(watching: bool)
    ensures [] + Closing(false, false, watching, false) == if watching then [Unwatches] else []
  {
  }

  /** The life of a sentry that is terminated on the spot, which leaves the child to the umbilical process. */
  lemma TerminatedLife(withPidFile: bool, announcement: Announcement, fails: Step)
    requires OutcomeOf(withPidFile, announcement, fails).Terminated?
    ensures EffectsOf(withPidFile, announcement, fails) ==
            [Forks, Watches] + (if withPidFile then [CreatesPidFile] else []) +
            if fails.ForkUmbilical? then [] else [CreatesUmbilical]
  {
  }

  class Sentry {
    const withPidFile: bool

    // the members that are not null, and mPid of the child
    var jobControl: bool
    var childProcess: bool
    var childPid: bool
    var pidServer: bool
    var pidFile: bool
    var pidFileOpen: bool
    var pidFileLocked: bool

    ghost var effects: seq<Effect>
    ghost var reached: Progress

    /** The effects are in order, and the members agree with what they have led to. */
    ghost predicate Valid()
      reads this
    {
      After(withPidFile, effects) == Some(reached) && Agrees()
    }

    ghost predicate Agrees()
      reads this
    {
      && (childPid <==> reached.child.Live?)
      && (childPid ==> childProcess)
      && (reached.watched ==> jobControl)
      && (pidFileOpen ==> pidFile && childPid) && (pidFileLocked ==> pidFileOpen)
      && (reached.name.Locked? <==> pidFileOpen && pidFileLocked)
      && (reached.name.Named? <==> pidFileOpen && !pidFileLocked)
    }

    constructor (withPidFile: bool)
      ensures Valid() && this.withPidFile == withPidFile && effects == []
      ensures IsClosed()
    {
      this.withPidFile := withPidFile;
      jobControl, childProcess, childPid, pidServer := false, false, false, false;
      pidFile, pidFileOpen, pidFileLocked := false, false, false;
      effects, reached := [], Beginning();
    }

    predicate IsClosed()
      reads this
    {
      !jobControl && !childProcess && !childPid && !pidServer && !pidFile && !pidFileOpen
    }

    ghost method Emit(e: Effect)
      requires After(withPidFile, effects) == Some(reached) && Advance(reached, withPidFile, e).Some?
      modifies `effects, `reached
      ensures After(withPidFile, effects) == Some(reached) && Some(reached) == Advance(old(reached), withPidFile, e)
      ensures effects == old(effects) + [e]
    {
      effects := effects + [e];
      assert effects[..|effects| - 1] == old(effects);
      reached := Advance(reached, withPidFile, e).value;
    }

    /** createSentry: everything that was acquired is given up again when a step fails. */
    method CreateSentry(fails: Step) returns (ok: bool)
      requires Valid() && IsClosed() && effects == []
      modifies this
      ensures Valid()
      ensures ok <==> !WhileCreating(fails, withPidFile)
      ensures ok ==> reached == Progress(Live, true, Unnamed, NoUmbilical, false) && effects == [Forks, Watches]
      ensures ok ==> childProcess && childPid && jobControl && !pidFileOpen && pidFile == pidServer == withPidFile
      ensures !ok ==> IsClosed() && !reached.child.Live? && !reached.watched
      ensures !ok ==> effects == Creating(fails) + Closing(false, false, Controlled(fails), !BeforeFork(fails))
    {
      ok := Acquire(fails);
      if !ok {
        CloseSentry();
      }
    }

    method Acquire(fails: Step) returns (ok: bool)
      requires Valid() && IsClosed() && effects == []
      modifies this
      ensures Valid() && reached.name.Unnamed? && !pidFileOpen
      ensures ok <==> !WhileCreating(fails, withPidFile)
      ensures effects == Creating(fails) && childPid == !BeforeFork(fails) && jobControl == Controlled(fails)
      ensures ok ==> reached == Progress(Live, true, Unnamed, NoUmbilical, false)
      ensures ok ==> childProcess && pidFile == pidServer == withPidFile
    {
      hide After;
      ok := AcquireChild(fails);
      if !ok || fails.WatchStop? || fails.WatchContinue? {
        return false;
      }
      if withPidFile {
        if fails.InitPidFile? {
          return false;
        }
        pidFile := true;
        if fails.CreatePidServer? {
          return false;
        }
        pidServer := true;
      }
      ok := !(fails.ChangeDirectory? || fails.AttachStdin? || fails.CloseTether? || fails.PurgeFds?);
    }

    /** The first part of createSentry, until signals are propagated to the child. */
    method AcquireChild(fails: Step) returns (ok: bool)
      requires Valid() && IsClosed() && effects == []
      modifies `childProcess, `jobControl, `childPid, `effects, `reached
      ensures Valid() && reached.name.Unnamed?
      ensures ok <==> !BeforeFork(fails) && !fails.ForkReports? && !fails.WatchSignals?
      ensures effects == Creating(fails) && childPid == !BeforeFork(fails) && jobControl == Controlled(fails)
      ensures ok ==> childProcess && reached == Progress(Live, true, Unnamed, NoUmbilical, false)
    {
      hide After, BeforeFork;
      NothingYet(withPidFile);
      ok := AcquireJobControl(fails);
      if ok {
        Emit(Forks);
        childPid := true;
        ok := !fails.ForkReports? && !fails.WatchSignals?;
        if ok {
          Emit(Watches);
        }
      }
    }

    /** Everything before the fork. */
    method AcquireJobControl(fails: Step) returns (ok: bool)
      requires IsClosed()
      modifies `childProcess, `jobControl
      ensures ok <==> !BeforeFork(fails)
      ensures jobControl == Controlled(fails) && (ok ==> childProcess && jobControl)
    {
      if fails.SocketPair? || fails.ChildProcess? {
        return false;
      }
      childProcess := true;
      if fails.JobControl? {
        return false;
      }
      jobControl := true;
      ok := !(fails.WatchDone? || fails.BellPair? || fails.Fork?);
    }

    /** destroyPidFile */
    method DestroyPidFile()
      requires Valid()
      modifies `pidFile, `pidFileOpen, `pidFileLocked, `effects, `reached
      ensures Valid() && !pidFile && !pidFileOpen
      ensures effects == old(effects) + Closing(old(pidFileOpen), old(pidFileLocked), false, false)
      ensures old(pidFileOpen) ==>
                reached == old(reached).(name := if old(pidFileLocked) then Withdrawn else Left)
      ensures !old(pidFileOpen) ==> reached == old(reached)
    {
      hide After;
      if pidFileOpen {
        if pidFileLocked {
          Emit(WithdrawsPidFile);
        } else {
          Emit(LeavesPidFile);
        }
      }
      pidFile, pidFileOpen, pidFileLocked := false, false, false;
    }

    /** closeChildProcess: a child that is not reaped yet is killed and reaped. */
    method CloseChildProcess()
      requires Valid() && !reached.watched && !reached.name.Named? && !reached.name.Locked?
      modifies `childPid, `childProcess, `effects, `reached
      ensures Valid() && !childPid && !childProcess
      ensures effects == old(effects) + if old(childPid) then [KillsChild, Reaps] else []
      ensures reached == if old(childPid) then old(reached).(child := Reaped) else old(reached)
    {
      hide After;
      if childProcess && childPid {
        Emit(KillsChild);
        Emit(Reaps);
        childPid := false;
      }
      childProcess := false;
    }

    /** closeJobControl */
    method CloseJobControl()
      requires Valid()
      modifies `jobControl, `effects, `reached
      ensures Valid() && !jobControl && reached == old(reached).(watched := false)
      ensures effects == old(effects) + if old(jobControl) then [Unwatches] else []
    {
      hide After;
      if jobControl {
        Emit(Unwatches);
      }
      jobControl := false;
    }

    /** closeSentry */
    method CloseSentry()
      requires Valid()
      modifies this
      ensures Valid() && IsClosed()
      ensures effects == old(effects) + Closing(old(pidFileOpen), old(pidFileLocked), old(jobControl), old(childPid))
      ensures reached == Progress(
                           if old(childPid) then Reaped else old(reached).child, false,
                           if !old(pidFileOpen) then old(reached).name else if old(pidFileLocked) then
                             Withdrawn else Left,
                           old(reached).umbilical, old(reached).started)
    {
      hide After;
      pidServer := false;
      DestroyPidFile();
      CloseJobControl();
      CloseChildProcess();
    }

    /** announceSentryPidFile */
    method AnnounceSentryPidFile(announcement: Announcement) returns (result: Announcement)
      requires Valid() && reached == Progress(Live, true, Unnamed, NoUmbilical, false)
      requires childPid && pidFile == withPidFile && !pidFileOpen
      modifies `pidFileOpen, `pidFileLocked, `effects, `reached
      ensures Valid()
      ensures result == if withPidFile then announcement else Announced
      ensures effects == old(effects) + if withPidFile && result.Announced? then [CreatesPidFile] else []
      ensures reached == Progress(Live, true, if withPidFile && announcement.Announced? then Named else Unnamed,
                                  NoUmbilical, false)
      ensures pidFileOpen <==> withPidFile && result.Announced?
    {
      if !pidFile {
        return Announced;
      }
      if announcement.Announced? {
        pidFileOpen, pidFileLocked := true, false;
        Emit(CreatesPidFile);
      }
      result := announcement;
    }

    /** The first half of runSentry, until the child has ended. */
    method StartAndMonitor(fails: Step) returns (outcome: Outcome)
      requires Valid() && childPid && pidFile == withPidFile && (withPidFile ==> pidFileOpen)
      requires reached == Progress(Live, true, if withPidFile then Named else Unnamed, NoUmbilical, false)
      modifies `pidServer, `effects, `reached
      ensures Valid()
      ensures outcome == if Terminates(fails) then Terminated else if InFirstHalf(fails) then Failed else Finished
      ensures effects == old(effects) + Starting(fails)
      ensures outcome.Finished? ==>
                !pidServer && reached == Progress(Live, true, if withPidFile then Named else Unnamed, Running, true)
    {
      hide After, WhileStarting;
      EarlierThanStarting(fails);
      if fails.ForkUmbilical? {
        return Terminated;
      }
      Emit(CreatesUmbilical);
      if fails.Supervise? {
        return Failed;
      }
      pidServer := false;
      if fails.PrintPids? {
        return Terminated;
      }
      Emit(StartsChild);
      if WhileStarting(fails) || fails.MonitorChild? {
        return Failed;
      }
      Emit(Monitors);
      outcome := Finished;
    }

    /** The pid file is withdrawn under its write lock. */
    method WithdrawPidFile(fails: Step) returns (ok: bool)
      requires Valid() && childPid && pidFile == withPidFile && (withPidFile ==> pidFileOpen)
      requires reached == Progress(Live, true, if withPidFile then Named else Unnamed, Stopped, true)
      modifies `pidFile, `pidFileOpen, `pidFileLocked, `effects, `reached
      ensures Valid()
      ensures !ok <==> fails.WriteLock? && withPidFile
      ensures effects == old(effects) + if ok then Withdrawing(withPidFile) else []
      ensures ok ==> reached == Progress(Live, true, if withPidFile then Withdrawn else Unnamed, Stopped, true)
      ensures ok ==> !pidFileOpen
      ensures !ok ==> reached == old(reached) && pidFileOpen && !pidFileLocked
    {
      hide After;
      if pidFile {
        if fails.WriteLock? {
          return false;
        }
        pidFileLocked := true;
        Emit(LocksPidFile);
        DestroyPidFile();
      }
      ok := true;
    }

    /** The second half. */
    method CleanUp(fails: Step) returns (ok: bool)
      requires Valid() && childPid && pidFile == withPidFile && (withPidFile ==> pidFileOpen)
      requires reached == Progress(Live, true, if withPidFile then Named else Unnamed, Running, true)
      modifies `pidFile, `pidFileOpen, `pidFileLocked, `childPid, `childProcess, `effects, `reached
      ensures Valid()
      ensures !ok <==> EndingFails(fails, withPidFile)
      ensures effects == old(effects) + Ending(fails, withPidFile)
      ensures ok ==> reached == Progress(Reaped, false, if withPidFile then Withdrawn else Unnamed, Stopped, true)
      ensures childPid == !ok && !pidFileLocked
      ensures pidFileOpen <==> withPidFile && !ok && !WhileEnding(fails)
    {
      hide After, Advance, Reaping, Withdrawing, WhileEnding;
      EarlierThanEnding(fails);
      ok := StopUmbilical(fails);
      if ok {
        ok := WithdrawPidFile(fails);
        if ok {
          ok := ReapChild(fails);
        }
      }
    }

    method StopUmbilical(fails: Step) returns (ok: bool)
      requires Valid() && childPid && reached.umbilical.Running?
      modifies `effects, `reached
      ensures Valid()
      ensures ok <==> !fails.StopUmbilical? && !fails.KillGroup?
      ensures effects == old(effects) +
              if ok then [StopsUmbilical, KillsGroup] else if fails.KillGroup? then [StopsUmbilical] else []
      ensures ok ==> reached == old(reached).(umbilical := Stopped)
      ensures reached.name == old(reached).name
    {
      hide After;
      if fails.StopUmbilical? {
        return false;
      }
      Emit(StopsUmbilical);
      if fails.KillGroup? {
        return false;
      }
      Emit(KillsGroup);
      ok := true;
    }

    /** The signals are detached and the child is reaped. */
    method ReapChild(fails: Step) returns (ok: bool)
      requires Valid() && childPid && !pidFileOpen
      modifies `childPid, `childProcess, `effects, `reached
      ensures Valid()
      ensures ok <==> !WhileEnding(fails)
      ensures effects == old(effects) + Reaping(fails) && childPid == !ok
      ensures ok ==> reached == old(reached).(child := Reaped, watched := false)
    {
      hide After;
      if fails.UnwatchContinue? || fails.UnwatchStop? || fails.UnwatchSignals? {
        return false;
      }
      Emit(Unwatches);
      ok := !(fails.UnwatchDone? || fails.ReapChild?);
      if ok {
        Emit(Reaps);
        childPid, childProcess := false, false;
      }
    }

    /** runSentry */
    method RunSentry(fails: Step) returns (outcome: Outcome)
      requires Valid() && childPid && pidFile == withPidFile && (withPidFile ==> pidFileOpen)
      requires reached == Progress(Live, true, if withPidFile then Named else Unnamed, NoUmbilical, false)
      modifies `pidServer, `pidFile, `pidFileOpen, `pidFileLocked, `childPid, `childProcess, `effects, `reached
      ensures Valid()
      ensures outcome ==
              if Terminates(fails) then Terminated
              else if InFirstHalf(fails) || EndingFails(fails, withPidFile) then Failed else Finished
      ensures effects == old(effects) + Starting(fails) +
              if InFirstHalf(fails) then [] else Ending(fails, withPidFile)
      ensures outcome.Finished? ==>
                && reached == Progress(Reaped, false, if withPidFile then Withdrawn else Unnamed, Stopped, true)
                && !pidServer
      ensures childPid == !outcome.Finished? && !pidFileLocked
      ensures pidFileOpen <==> withPidFile && !WhileEnding(fails) && !outcome.Finished?
    {
      hide After, Starting, Ending, WhileStarting, WhileEnding;
      EarlierThanReaping(fails);
      outcome := StartAndMonitor(fails);
      if outcome.Finished? {
        var clean := CleanUp(fails);
        outcome := if clean then Finished else Failed;
      }
    }

    /** The part of runAgentSentry_ between the creation of the sentry and its end. */
    method AnnounceAndRun(announcement: Announcement, fails: Step) returns (outcome: Outcome)
      requires Valid() && childPid && pidFile == withPidFile && !pidFileOpen && !WhileCreating(fails, withPidFile)
      requires reached == Progress(Live, true, Unnamed, NoUmbilical, false)
      modifies `pidServer, `pidFile, `pidFileOpen, `pidFileLocked, `childPid, `childProcess, `effects, `reached
      ensures Valid() && outcome == OutcomeOf(withPidFile, announcement, fails)
      ensures effects == old(effects) + Living(withPidFile, announcement, fails)
      ensures childPid == !outcome.Finished? && !pidFileLocked
      ensures outcome.Finished? || outcome.Rejected? ==> !pidFileOpen
      ensures outcome.Failed? ==> (pidFileOpen <==> StillOpen(withPidFile, announcement, fails))
    {
      hide After, Starting, Ending, EndingFails, WhileStarting, WhileEnding, InFirstHalf, Terminates, WhileCreating;
      var announced := AnnounceSentryPidFile(announcement);
      match announced
      case AnnounceFails => outcome := Failed;
      case NamesActive => outcome := Rejected;
      case Announced => outcome := RunSentry(fails);
    }

    /** runAgentSentry_: whichever step fails, the effects are in order; unless the process is terminated
        on the spot nothing is left behind: the child is not left unreaped, no signal is propagated to
        it any longer, and the pid file is withdrawn or given up. A child that was forked is killed right
        before it is reaped, unless it was monitored to its end. Exactly what happens is EffectsOf. */
    method RunAgentSentry(announcement: Announcement, fails: Step) returns (outcome: Outcome)
      requires Valid() && IsClosed() && effects == []
      modifies this
      ensures Valid() && InOrder(withPidFile, effects)
      ensures outcome == OutcomeOf(withPidFile, announcement, fails)
      ensures effects == EffectsOf(withPidFile, announcement, fails)
      ensures !outcome.Terminated? ==>
                && IsClosed() && !reached.child.Live? && !reached.watched
                && !reached.name.Named? && !reached.name.Locked?
      ensures outcome.Failed? || outcome.Rejected? ==> Undone(fails, effects)
    {
      hide After, InOrder, Living, Closing, Creating, BeforeFork, WhileCreating, StillOpen, Undone;
      FailureIsUndone(withPidFile, announcement, fails);
      var created := CreateSentry(fails);
      outcome := Failed;
      if created {
        outcome := AnnounceAndRun(announcement, fails);
        if outcome.Terminated? {
          assert effects + [] == effects;
        } else {
          CloseSentry();
        }
      }
      OrderlyMeans(withPidFile, effects);
    }
  }
}
