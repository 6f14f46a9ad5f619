/** How the sentry lets its child start: two bells in each direction of a socket pair, the last of
    which is the silence that follows when the child executes the target program.

    Assumptions about the bell socket pair: waiting takes a bell that was rung, and fails once no bell
    is left and every copy of the far end is closed; ringing fails once every copy of the far end is
    closed. A process that ends, or executes another program, closes its copies. The umbilical process
    keeps no copy. */
module StartHandshake {

  /** Where the sentry is: about to announce the pid file, to create the umbilical process, to close its
      copy of the end of the child, to ring, waiting for the answer, about to print the pid of the
      child, to ring again, waiting for the child to execute. Confused is the error of hearing a
      second bell from the child. */
  datatype SentryPc =
    | Announcing | Launching | Closing | Ringing | Awaiting | Identifying | Releasing | Confirming
    | Monitoring | Confused | SentryDead

  /** Where the child is: about to close its copy of the end of the sentry, waiting for the first bell,
      about to answer, waiting for the second bell, about to execute. */
  datatype ChildPc = Started | WaitingFirst | Answering | WaitingSecond | Executing | Executed | ChildDead

  /** Bells in flight, copies of the ends, what the sentry has accomplished, and the bells that each side
      has rung in a way that the other can hear. */
  datatype State = State(
    sentry: SentryPc,
    child: ChildPc,
    toChild: nat,
    toSentry: nat,
    parentEndInChild: bool,
    childEndInSentry: bool,
    announced: bool,
    umbilical: bool,
    identified: bool,
    rung: nat,
    answered: nat)

  datatype Event = SentrySteps | ChildSteps | SentryDies | ChildDies

  /** After the fork. */
  function Start(): State {
    State.State(Announcing, Started, 0, 0, true, true, false, false, false, 0, 0)
  }

  predicate ParentEndOpen(s: State) {
    !s.sentry.SentryDead? || s.parentEndInChild
  }

  predicate ChildEndOpen(s: State) {
    s.childEndInSentry || !(s.child.Executed? || s.child.ChildDead?)
  }

  predicate SentryCanStep(s: State) {
    match s.sentry
    case Awaiting => 0 < s.toSentry || !ChildEndOpen(s)
    case Confirming => 0 < s.toSentry || !ChildEndOpen(s)
    case Monitoring => false
    case Confused => false
    case SentryDead => false
    case _ => true
  }

  predicate ChildCanStep(s: State) {
    match s.child
    case WaitingFirst => 0 < s.toChild || !ParentEndOpen(s)
    case WaitingSecond => 0 < s.toChild || !ParentEndOpen(s)
    case Executed => false
    case ChildDead => false
    case _ => true
  }

  predicate Possible(s: State, e: Event) {
    match e
    case SentrySteps => SentryCanStep(s)
    case ChildSteps => ChildCanStep(s)
    case SentryDies => !s.sentry.SentryDead?
    case ChildDies => !s.child.ChildDead?
  }

  function SentryRings(s: State, after: SentryPc): State {
    var t := s.(sentry := after);
    if ChildEndOpen(s) then t.(toChild := s.toChild + 1, rung := s.rung + 1) else t
  }

  function SentryStep(s: State): State
    requires SentryCanStep(s)
  {
    match s.sentry
    case Announcing => s.(sentry := Launching, announced := true)
    case Launching => s.(sentry := Closing, umbilical := true)
    case Closing => s.(sentry := Ringing, childEndInSentry := false)
    case Ringing => SentryRings(s, Awaiting)
    case Awaiting => s.(sentry := Identifying, toSentry := if 0 < s.toSentry then s.toSentry - 1 else 0)
    case Identifying => s.(sentry := Releasing, identified := true)
    case Releasing => SentryRings(s, Confirming)
    case Confirming =>
      if 0 < s.toSentry then s.(sentry := Confused, toSentry := s.toSentry - 1) else s.(sentry := Monitoring)
  }

  function ChildExits(s: State): State {
    s.(child := ChildDead, parentEndInChild := false)
  }

  function ChildWaits(s: State, after: ChildPc): State {
    if 0 < s.toChild then s.(child := after, toChild := s.toChild - 1) else ChildExits(s)
  }

  function ChildStep(s: State): State
    requires ChildCanStep(s)
  {
    match s.child
    case Started => s.(child := WaitingFirst, parentEndInChild := false)
    case WaitingFirst => ChildWaits(s, Answering)
    case Answering =>
      if ParentEndOpen(s) then s.(child := WaitingSecond, toSentry := s.toSentry + 1, answered := s.answered + 1)
      else ChildExits(s)
    case WaitingSecond => ChildWaits(s, Executing)
    case Executing => s.(child := Executed)
  }

  function Next(s: State, e: Event): State
    requires Possible(s, e)
  {
    match e
    case SentrySteps => SentryStep(s)
    case ChildSteps => ChildStep(s)
    case SentryDies => s.(sentry := SentryDead, childEndInSentry := false)
    case ChildDies => ChildExits(s)
  }

  // ------------------------------------------------------------------------------------------
  // Invariant

  predicate ChildOk(s: State) {
    match s.child
    case Started => s.parentEndInChild && s.rung == s.toChild && s.answered == 0
    case WaitingFirst => !s.parentEndInChild && s.rung == s.toChild && s.answered == 0
    case Answering => !s.parentEndInChild && s.rung == s.toChild + 1 && s.answered == 0
    case WaitingSecond => !s.parentEndInChild && s.rung == s.toChild + 1 && s.answered == 1
    case Executing => !s.parentEndInChild && s.rung == s.toChild + 2 && s.answered == 1
    case Executed => !s.parentEndInChild && s.rung == s.toChild + 2 && s.answered == 1
    case ChildDead => !s.parentEndInChild
  }

  /** A live child was rung as often as the sentry has tried. */
  predicate Rung(s: State, times: nat) {
    s.rung <= times && (s.rung == times || s.child.ChildDead?)
  }

  /** The sentry has had its answer, and no other is under way. */
  predicate AnswerIsIn(s: State) {
    s.toSentry == 0 && (s.answered == 1 || s.child.ChildDead?)
  }

  predicate SentryOk(s: State) {
    match s.sentry
    case Announcing => s.childEndInSentry && s.rung == 0
    case Launching => s.childEndInSentry && s.rung == 0 && s.announced
    case Closing => s.childEndInSentry && s.rung == 0 && s.announced && s.umbilical
    case Ringing => !s.childEndInSentry && s.rung == 0 && s.announced && s.umbilical
    case Awaiting => !s.childEndInSentry && Rung(s, 1) && (s.answered == 1 ==> s.toSentry == 1)
    case Identifying => !s.childEndInSentry && Rung(s, 1) && AnswerIsIn(s)
    case Releasing => !s.childEndInSentry && Rung(s, 1) && AnswerIsIn(s) && s.identified
    case Confirming => !s.childEndInSentry && Rung(s, 2) && AnswerIsIn(s)
    case Monitoring => !s.childEndInSentry && (s.child.Executed? || s.child.ChildDead?)
    case Confused => false
    case SentryDead => !s.childEndInSentry
  }

  predicate BellsOk(s: State) {
    && s.toChild <= s.rung <= 2 && s.toSentry <= s.answered <= 1 && s.answered <= s.rung
    && (1 <= s.rung ==> s.announced && s.umbilical)
    && (2 <= s.rung ==> s.identified)
  }

  predicate Inv(s: State) {
    ChildOk(s) && SentryOk(s) && BellsOk(s)
  }

  lemma SentryStepKeepsInv(s: State)
    requires Inv(s) && SentryCanStep(s)
    ensures Inv(SentryStep(s))
  {
  }

  lemma ChildStepKeepsChildOk(s: State)
    requires ChildOk(s) && BellsOk(s) && ChildCanStep(s)
    ensures ChildOk(ChildStep(s)) && BellsOk(ChildStep(s))
  {
  }

  /** All that the sentry can tell about a step of the child. */
  lemma ChildStepSeen(s: State)
    requires ChildOk(s) && BellsOk(s) && ChildCanStep(s)
    ensures var t := ChildStep(s);
            && t == s.(child := t.child, parentEndInChild := t.parentEndInChild, toChild := t.toChild,
                       toSentry := t.toSentry, answered := t.answered)
            && ((t.answered == s.answered && t.toSentry == s.toSentry) ||
                (s.answered == 0 && t.answered == 1 && t.toSentry == s.toSentry + 1))
            && (t.child.Executed? ==> s.rung == 2)
            && !s.child.ChildDead? && !s.child.Executed?
  {
  }

  lemma ChildStepKeepsInv(s: State)
    requires Inv(s) && ChildCanStep(s)
    ensures Inv(ChildStep(s))
  {
    ChildStepKeepsChildOk(s);
    ChildStepSeen(s);
    hide ChildStep, ChildCanStep, ChildOk;
  }

  lemma NextKeepsInv(s: State, e: Event)
    requires Inv(s) && Possible(s, e)
    ensures Inv(Next(s, e))
  {
    match e
    case SentrySteps => SentryStepKeepsInv(s);
    case ChildSteps => ChildStepKeepsInv(s);
    case _ =>
  }

  ghost predicate IsRun(run: seq<State>, events: seq<Event>) {
    && |run| == |events| + 1
    && run[0] == Start()
    && forall k :: 0 <= k < |events| ==> Possible(run[k], events[k]) && run[k + 1] == Next(run[k], events[k])
  }

  lemma {:induction false} RunKeepsInv(run: seq<State>, events: seq<Event>, n: nat)
    requires IsRun(run, events) && n <= |events|
    ensures Inv(run[n])
  {
    hide Inv;
    if n == 0 {
      StartIsFine();
    } else {
      RunKeepsInv(run, events, n - 1);
      NextKeepsInv(run[n - 1], events[n - 1]);
    }
  }

  lemma StartIsFine()
    ensures Inv(Start())
  {
  }

  // ------------------------------------------------------------------------------------------
  // Safety

  /** The child executes the target program only after both bells, and so only after the pid file was
      announced, the umbilical process was created and the pid of the child was printed; whoever
      died in the meantime. */
  lemma ExecutesOnlyWhenReady(run: seq<State>, events: seq<Event>, n: nat)
    requires IsRun(run, events) && n <= |events| && run[n].child.Executed?
    ensures run[n].rung == 2 && run[n].announced && run[n].umbilical && run[n].identified
  {
    RunKeepsInv(run, events, n);
  }

  /** The last wait of the sentry never hears a second bell, and when it returns the child has executed
      the target program or is dead: it shares no descriptor and no file lock with the sentry. */
  lemma MonitorsOnlyAfterExecution(run: seq<State>, events: seq<Event>, n: nat)
    requires IsRun(run, events) && n <= |events|
    ensures !run[n].sentry.Confused?
    ensures run[n].sentry.Monitoring? ==> run[n].child.Executed? || run[n].child.ChildDead?
  {
    RunKeepsInv(run, events, n);
  }

  // ------------------------------------------------------------------------------------------
  // Progress

  predicate Settled(s: State) {
    (s.sentry.Monitoring? || s.sentry.SentryDead?) && (s.child.Executed? || s.child.ChildDead?)
  }

  /** There is no deadlock: whoever has died at whatever step, one of the two can go on until both have
      settled. */
  lemma NoDeadlock(run: seq<State>, events: seq<Event>, n: nat)
    requires IsRun(run, events) && n <= |events|
    ensures SentryCanStep(run[n]) || ChildCanStep(run[n]) || Settled(run[n])
  {
    RunKeepsInv(run, events, n);
  }

  function SentryRank(pc: SentryPc): nat {
    match pc
    case Announcing => 9
    case Launching => 8
    case Closing => 7
    case Ringing => 6
    case Awaiting => 5
    case Identifying => 4
    case Releasing => 3
    case Confirming => 2
    case Monitoring => 1
    case Confused => 1
    case SentryDead => 0
  }

  function ChildRank(pc: ChildPc): nat {
    match pc
    case Started => 6
    case WaitingFirst => 5
    case Answering => 4
    case WaitingSecond => 3
    case Executing => 2
    case Executed => 1
    case ChildDead => 0
  }

  function Rank(s: State): nat {
    SentryRank(s.sentry) + ChildRank(s.child)
  }

  /** Every step brings the handshake closer to its end. */
  lemma {:induction false} HandshakeEnds(run: seq<State>, events: seq<Event>, n: nat)
    requires IsRun(run, events) && n <= |events|
    ensures n + Rank(run[n]) <= 15
  {
    if n > 0 {
      HandshakeEnds(run, events, n - 1);
      StepDescends(run[n - 1], events[n - 1]);
      hide Next, Possible, Rank;
    }
  }

  lemma SentryDescends(s: State)
    requires SentryCanStep(s)
    ensures SentryRank(SentryStep(s).sentry) < SentryRank(s.sentry) && SentryStep(s).child == s.child
  {
    match s.sentry
    case Ringing =>
    case Releasing =>
    case _ => hide SentryRings;
  }

  lemma ChildDescends(s: State)
    requires ChildCanStep(s)
    ensures ChildRank(ChildStep(s).child) < ChildRank(s.child) && ChildStep(s).sentry == s.sentry
  {
  }

  lemma StepDescends(s: State, e: Event)
    requires Possible(s, e)
    ensures Rank(Next(s, e)) < Rank(s)
  {
    hide SentryStep, ChildStep;
    match e
    case SentrySteps => SentryDescends(s);
    case ChildSteps => ChildDescends(s);
    case _ =>
  }

  predicate NobodyDies(events: seq<Event>) {
    forall k :: 0 <= k < |events| ==> events[k].SentrySteps? || events[k].ChildSteps?
  }

  lemma ChildSurvives(s: State)
    requires Inv(s) && ChildCanStep(s) && !s.sentry.SentryDead? && !s.child.ChildDead?
    ensures !ChildStep(s).child.ChildDead?
  {
  }

  lemma SentrySurvives(s: State)
    requires SentryCanStep(s)
    ensures !SentryStep(s).sentry.SentryDead?
  {
  }

  lemma {:induction false} NobodyIsDead(run: seq<State>, events: seq<Event>, n: nat)
    requires IsRun(run, events) && n <= |events| && NobodyDies(events)
    ensures !run[n].sentry.SentryDead? && !run[n].child.ChildDead?
  {
    if n > 0 {
      NobodyIsDead(run, events, n - 1);
      RunKeepsInv(run, events, n - 1);
      hide Inv, ChildStep, ChildCanStep, SentryStep, SentryCanStep, IsRun;
      var s := run[n - 1];
      if events[n - 1].ChildSteps? {
        ChildSurvives(s);
        ChildDescends(s);
      } else {
        SentryDescends(s);
        SentrySurvives(s);
      }
    }
  }

  /** If nobody dies, every run that cannot go on has started the program and its monitor. */
  lemma StartsIfNobodyDies(run: seq<State>, events: seq<Event>)
    requires IsRun(run, events) && NobodyDies(events)
    requires !SentryCanStep(run[|events|]) && !ChildCanStep(run[|events|])
    ensures run[|events|].sentry.Monitoring? && run[|events|].child.Executed?
  {
    NoDeadlock(run, events, |events|);
    NobodyIsDead(run, events, |events|);
  }
}
