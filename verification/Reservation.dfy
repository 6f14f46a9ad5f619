/** Pid reservation end to end: watchdogs (each a sentry, its umbilical process and its child), clients
    that take a reference on a child before they run a command, and the system that recycles pids.

    The system rule is "Process ID Reuse", section 4.12 of the base definitions of POSIX.1-2004: a pid
    is not reused while the process, or a process group with that number, exists. The child leads its
    own process group; the umbilical puts an anchor into that group, which stays defunct until the
    umbilical process ends.

    Further assumptions: fork returns in the parent only after the post-fork method of the child has
    succeeded; the read with which the umbilical synchronises is not interrupted; a process that ends
    closes its connections. A client may reach any umbilical process that accepts connections,
    whatever address it read, because an address may be taken over by another pid server. */
module Reservation {
  import opened Common
  import opened Heartbeat
  import opened UmbilicalLoop

  type DogId = nat

  /** The sentry: it has forked the child, is forking the umbilical process, guards the child, has
      reaped it, or is dead. */
  datatype Sentry = Launching | Forking | Guarding | Reaped | SentryDead

  /** The umbilical process: not there, forked, anchored, serving, or gone. */
  datatype Umbilical = Unborn | Forked | Anchored | Serving | UmbilicalDead

  datatype Dog = Dog(child: Ident, sentry: Sentry, pinged: bool, umbilical: Umbilical, loop: Loop)

  /** The client command: connected, acknowledged, running its command, the command has exited, and
      reapCommand has reported a status. Hanging up ends it at any point. */
  datatype Phase = Connected | Acknowledged | CommandRunning | Exited(code: int) | Reported(status: int) | HungUp

  /** The identity that the client read from the pid file, and the umbilical it is connected to. */
  datatype Client = Client(who: Ident, dog: DogId, phase: Phase)

  /** The process table, every identity that ever was in it, the watchdogs and the clients. */
  datatype State = State(table: set<Ident>, born: set<Ident>, dogs: map<DogId, Dog>, clients: map<Conn, Client>)

  datatype Action =
    | Spawn(who: Ident)
    | Exit(who: Ident)
    | Launch(d: DogId, child: Ident)
    | ForkUmbilical(d: DogId)
    | Anchor(d: DogId)
    | ForkReturns(d: DogId)
    | PingUmbilical(d: DogId)
    | Synchronise(d: DogId, now: int)
    | LoopEvent(d: DogId, e: UmbilicalLoop.Event)
    | Refuse(d: DogId)
    | UmbilicalEnds(d: DogId)
    | ReapChild(d: DogId)
    | SentryDies(d: DogId)
    | Connect(c: Conn, who: Ident, d: DogId)
    | RunCommand(c: Conn)
    | CommandExits(c: Conn, code: int)
    | ReapCommand(c: Conn)
    | HangUp(c: Conn)

  function Init(): State {
    State.State({}, {}, map[], map[])
  }

  // ------------------------------------------------------------------------------------------
  // The system

  predicate AnchorsUp(d: Dog) {
    d.umbilical.Anchored? || d.umbilical.Serving?
  }

  /** Some process or some process group has this number. */
  predicate Reserved(s: State, pid: int) {
    (exists who :: who in s.table && who.pid == pid) ||
    (exists d :: d in s.dogs && AnchorsUp(s.dogs[d]) && s.dogs[d].child.pid == pid)
  }

  /** The umbilical process holds an acknowledged reference of client c. */
  predicate Holds(s: State, d: DogId, c: Conn) {
    d in s.dogs && s.dogs[d].umbilical.Serving? && c in s.dogs[d].loop.clients
  }

  predicate SentryAlive(d: Dog) {
    d.sentry.Launching? || d.sentry.Forking? || d.sentry.Guarding?
  }

  predicate Acked(p: Phase) {
    p.Acknowledged? || p.CommandRunning? || p.Exited? || p.Reported?
  }

  predicate Enabled(s: State, a: Action) {
    match a
    case Spawn(who) => who !in s.born && !Reserved(s, who.pid)
    case Exit(who) =>
      who in s.table && forall d :: d in s.dogs && s.dogs[d].child == who ==> !SentryAlive(s.dogs[d])
    case Launch(d, child) => d !in s.dogs && child !in s.born && !Reserved(s, child.pid)
    case ForkUmbilical(d) => d in s.dogs && s.dogs[d].sentry.Launching?
    case Anchor(d) =>
      d in s.dogs && s.dogs[d].umbilical.Forked? && Reserved(s, s.dogs[d].child.pid)
    case ForkReturns(d) => d in s.dogs && s.dogs[d].sentry.Forking? && s.dogs[d].umbilical.Anchored?
    case PingUmbilical(d) => d in s.dogs && s.dogs[d].sentry.Guarding?
    case Synchronise(d, _) => d in s.dogs && s.dogs[d].umbilical.Anchored? && s.dogs[d].pinged
    case LoopEvent(d, e) =>
      && d in s.dogs && s.dogs[d].umbilical.Serving?
      && !Ended(s.dogs[d].loop) && UmbilicalLoop.Possible(s.dogs[d].loop, e)
      && (e.Accepts? ==> && e.conn in s.clients && s.clients[e.conn].phase.Connected?
                         && s.clients[e.conn].dog == d && s.clients[e.conn].who == s.dogs[d].child)
      && (e.Cleans? ==> forall c :: c in e.gone ==> c in s.clients && s.clients[c].phase.HungUp?)
    case Refuse(d) => d in s.dogs && s.dogs[d].umbilical.Serving? && s.dogs[d].loop.serverSlot
    case UmbilicalEnds(d) => d in s.dogs && s.dogs[d].umbilical != Unborn
    case ReapChild(d) => d in s.dogs && SentryAlive(s.dogs[d])
    case SentryDies(d) => d in s.dogs && SentryAlive(s.dogs[d])
    case Connect(c, who, d) => c !in s.clients && d in s.dogs && AnchorsUp(s.dogs[d])
    case RunCommand(c) => c in s.clients && s.clients[c].phase.Acknowledged?
    case CommandExits(c, _) => c in s.clients && s.clients[c].phase.CommandRunning?
    case ReapCommand(c) => c in s.clients && s.clients[c].phase.Exited?
    case HangUp(c) => c in s.clients && !s.clients[c].phase.HungUp?
  }

  function SetDog(s: State, d: DogId, dog: Dog): State {
    s.(dogs := s.dogs[d := dog])
  }

  function SetPhase(s: State, c: Conn, p: Phase): State
    requires c in s.clients
  {
    s.(clients := s.clients[c := s.clients[c].(phase := p)])
  }

  /** reapCommand: a command that succeeded is reported as failed when the reference was lost. */
  function ReportedStatus(s: State, c: Conn, code: int): int
    requires c in s.clients
  {
    if code == 0 && !Holds(s, s.clients[c].dog, c) then 255 else code
  }

  function Apply(s: State, a: Action): State
    requires Enabled(s, a)
  {
    match a
    case Spawn(who) => s.(table := s.table + {who}, born := s.born + {who})
    case Exit(who) => s.(table := s.table - {who})
    case Launch(d, child) =>
      SetDog(s, d, Dog(child, Launching, false, Unborn, NewLoop(0, true)))
      .(table := s.table + {child}, born := s.born + {child})
    case ForkUmbilical(d) => SetDog(s, d, s.dogs[d].(sentry := Forking, umbilical := Forked))
    case Anchor(d) => SetDog(s, d, s.dogs[d].(umbilical := Anchored))
    case ForkReturns(d) => SetDog(s, d, s.dogs[d].(sentry := Guarding))
    case PingUmbilical(d) => SetDog(s, d, s.dogs[d].(pinged := true))
    case Synchronise(d, now) =>
      SetDog(s, d, s.dogs[d].(umbilical := Serving, loop := UmbilicalLoop.Next(s.dogs[d].loop, Reads(Ping, now))))
    case LoopEvent(d, e) =>
      var t := SetDog(s, d, s.dogs[d].(loop := UmbilicalLoop.Next(s.dogs[d].loop, e)));
      if e.Accepts? then SetPhase(t, e.conn, Acknowledged) else t
    case Refuse(d) => SetDog(s, d, s.dogs[d].(umbilical := UmbilicalDead))
    case UmbilicalEnds(d) => SetDog(s, d, s.dogs[d].(umbilical := UmbilicalDead))
    case ReapChild(d) => SetDog(s, d, s.dogs[d].(sentry := Reaped)).(table := s.table - {s.dogs[d].child})
    case SentryDies(d) => SetDog(s, d, s.dogs[d].(sentry := SentryDead))
    case Connect(c, who, d) => s.(clients := s.clients[c := Client(who, d, Connected)])
    case RunCommand(c) => SetPhase(s, c, CommandRunning)
    case CommandExits(c, code) => SetPhase(s, c, Exited(code))
    case ReapCommand(c) => SetPhase(s, c, Reported(ReportedStatus(s, c, s.clients[c].phase.code)))
    case HangUp(c) => SetPhase(s, c, HungUp)
  }

  // ------------------------------------------------------------------------------------------
  // Invariant

  /** Nothing but the child of this watchdog can have the pid of the child. */
  predicate Exclusive(s: State, who: Ident) {
    forall other :: other in s.table && other.pid == who.pid ==> other == who
  }

  predicate DogOk(s: State, d: Dog) {
    && d.child in s.born
    && (SentryAlive(d) ==> d.child in s.table)
    && (d.sentry.Launching? ==> d.umbilical.Unborn?)
    && (d.sentry.Guarding? ==> AnchorsUp(d) || d.umbilical.UmbilicalDead?)
    && (d.pinged ==> !d.sentry.Launching? && !d.sentry.Forking? && (AnchorsUp(d) || d.umbilical.UmbilicalDead?))
    && (d.umbilical.Serving? ==> d.pinged)
    && (!d.umbilical.Serving? && !d.umbilical.UmbilicalDead? ==> d.loop.clients == [])
    && (AnchorsUp(d) && d.pinged ==> Exclusive(s, d.child))
  }

  predicate ReferenceOk(s: State, d: DogId, c: Conn) {
    Holds(s, d, c) ==>
      && c in s.clients && s.clients[c].dog == d && s.clients[c].who == s.dogs[d].child
      && (Acked(s.clients[c].phase) || s.clients[c].phase.HungUp?)
  }

  ghost predicate Inv(s: State) {
    && s.table <= s.born
    && (forall a, b :: a in s.table && b in s.table && a.pid == b.pid ==> a == b)
    && (forall d :: d in s.dogs ==> DogOk(s, s.dogs[d]))
    && (forall d, e :: d in s.dogs && e in s.dogs && d != e ==> s.dogs[d].child != s.dogs[e].child)
    && (forall d, c :: ReferenceOk(s, d, c))
  }

  /** The action is one of watchdog d. */
  predicate IsOf(a: Action, d: DogId) {
    match a
    case Launch(x, _) => x == d
    case ForkUmbilical(x) => x == d
    case Anchor(x) => x == d
    case ForkReturns(x) => x == d
    case PingUmbilical(x) => x == d
    case Synchronise(x, _) => x == d
    case LoopEvent(x, _) => x == d
    case Refuse(x) => x == d
    case UmbilicalEnds(x) => x == d
    case ReapChild(x) => x == d
    case SentryDies(x) => x == d
    case _ => false
  }

  lemma OtherDogsStay(s: State, a: Action, d: DogId)
    requires Enabled(s, a) && !IsOf(a, d)
    ensures d in Apply(s, a).dogs <==> d in s.dogs
    ensures d in s.dogs ==> Apply(s, a).dogs[d] == s.dogs[d]
  {
    hide Reserved, UmbilicalLoop.Next, UmbilicalLoop.Possible, Ended;
  }

  function TableAfter(s: State, a: Action): set<Ident> {
    match a
    case Spawn(who) => s.table + {who}
    case Exit(who) => s.table - {who}
    case Launch(d, child) => s.table + {child}
    case ReapChild(d) => if d in s.dogs then s.table - {s.dogs[d].child} else s.table
    case _ => s.table
  }

  function BornAfter(s: State, a: Action): set<Ident> {
    match a
    case Spawn(who) => s.born + {who}
    case Launch(d, child) => s.born + {child}
    case _ => s.born
  }

  lemma TableChanges(s: State, a: Action)
    requires Enabled(s, a)
    ensures Apply(s, a).table == TableAfter(s, a) && Apply(s, a).born == BornAfter(s, a)
  {
    hide Reserved, UmbilicalLoop.Next, UmbilicalLoop.Possible, Ended;
  }

  /** Who is new is new to the system, and so is the number. */
  lemma NewcomerIsNew(s: State, a: Action)
    requires Enabled(s, a) && (a.Spawn? || a.Launch?)
    ensures var who := if a.Spawn? then a.who else a.child;
            who !in s.born && !Reserved(s, who.pid) && forall other :: other in s.table ==> other.pid != who.pid
  {
  }

  lemma ApplyKeepsTable(s: State, a: Action)
    requires Inv(s) && Enabled(s, a)
    ensures var t := Apply(s, a);
            && t.table <= t.born
            && (forall x, y :: x in t.table && y in t.table && x.pid == y.pid ==> x == y)
  {
    hide Enabled, Apply, Reserved;
    TableChanges(s, a);
    if a.Spawn? || a.Launch? {
      NewcomerIsNew(s, a);
    }
  }

  lemma ChildStays(s: State, a: Action, d: DogId)
    requires Enabled(s, a) && d in s.dogs
    ensures d in Apply(s, a).dogs && Apply(s, a).dogs[d].child == s.dogs[d].child
  {
    hide Reserved, UmbilicalLoop.Next, UmbilicalLoop.Possible, Ended;
  }

  lemma NewDog(s: State, a: Action, d: DogId)
    requires Enabled(s, a) && d in Apply(s, a).dogs && d !in s.dogs
    ensures a.Launch? && a.d == d && Apply(s, a).dogs[d] == Dog(a.child, Launching, false, Unborn, NewLoop(0, true))
  {
    hide Reserved, UmbilicalLoop.Next, UmbilicalLoop.Possible, Ended;
  }

  lemma ApplyKeepsChildren(s: State, a: Action, d: DogId, e: DogId)
    requires Inv(s) && Enabled(s, a) && d in Apply(s, a).dogs && e in Apply(s, a).dogs && d != e
    ensures Apply(s, a).dogs[d].child != Apply(s, a).dogs[e].child
  {
    hide Enabled, Apply, Reserved;
    if d !in s.dogs {
      NewDog(s, a, d);
      NewcomerIsNew(s, a);
    } else {
      ChildStays(s, a, d);
    }
    if e !in s.dogs {
      NewDog(s, a, e);
      NewcomerIsNew(s, a);
    } else {
      ChildStays(s, a, e);
    }
    assert forall x :: x in s.dogs ==> DogOk(s, s.dogs[x]);
  }

  /** The child of a live sentry, and that of an umbilical in service, has its number alone. */
  lemma ChildIsExclusive(s: State, d: DogId)
    requires Inv(s) && d in s.dogs
    requires SentryAlive(s.dogs[d]) || (AnchorsUp(s.dogs[d]) && s.dogs[d].pinged)
    ensures Exclusive(s, s.dogs[d].child)
    ensures AnchorsUp(s.dogs[d]) || s.dogs[d].child in s.table
  {
    assert DogOk(s, s.dogs[d]);
  }

  lemma BornStays(s: State, a: Action, d: DogId)
    requires Inv(s) && Enabled(s, a) && d in s.dogs
    ensures s.dogs[d].child in Apply(s, a).born
    ensures SentryAlive(s.dogs[d]) && !(a.ReapChild? && a.d == d) ==> s.dogs[d].child in Apply(s, a).table
  {
    TableChanges(s, a);
    assert DogOk(s, s.dogs[d]);
    hide Apply, Reserved, UmbilicalLoop.Possible, Ended;
  }

  /** A watchdog that an action of its own does not put out of order otherwise. */
  lemma OwnActionKeepsDog(s: State, a: Action, d: DogId)
    requires Enabled(s, a) && IsOf(a, d) && !a.LoopEvent? && d in s.dogs && DogOk(s, s.dogs[d])
    requires s.dogs[d].child in Apply(s, a).born
    requires SentryAlive(s.dogs[d]) && !a.ReapChild? ==> s.dogs[d].child in Apply(s, a).table
    requires SentryAlive(s.dogs[d]) || (AnchorsUp(s.dogs[d]) && s.dogs[d].pinged) ==>
              Exclusive(Apply(s, a), s.dogs[d].child)
    ensures DogOk(Apply(s, a), Apply(s, a).dogs[d])
  {
    hide Reserved, Exclusive, UmbilicalRead;
  }

  lemma LoopKeepsDog(s: State, a: Action, d: DogId)
    requires Enabled(s, a) && IsOf(a, d) && a.LoopEvent? && d in s.dogs && DogOk(s, s.dogs[d])
    requires s.dogs[d].child in Apply(s, a).born
    requires SentryAlive(s.dogs[d]) ==> s.dogs[d].child in Apply(s, a).table
    requires AnchorsUp(s.dogs[d]) && s.dogs[d].pinged ==> Exclusive(Apply(s, a), s.dogs[d].child)
    ensures DogOk(Apply(s, a), Apply(s, a).dogs[d])
  {
    hide Reserved, Exclusive, UmbilicalLoop.Next, UmbilicalLoop.Possible, Ended;
  }

  lemma NewDogIsOk(s: State, a: Action, d: DogId)
    requires Enabled(s, a) && d in Apply(s, a).dogs && d !in s.dogs
    ensures DogOk(Apply(s, a), Apply(s, a).dogs[d])
  {
    NewDog(s, a, d);
    TableChanges(s, a);
    hide Apply, Enabled, Reserved;
  }

  lemma ApplyKeepsDog(s: State, a: Action, d: DogId)
    requires Inv(s) && Enabled(s, a) && d in Apply(s, a).dogs
    ensures DogOk(Apply(s, a), Apply(s, a).dogs[d])
  {
    hide Apply, Enabled, Reserved, Exclusive;
    if d !in s.dogs {
      NewDogIsOk(s, a, d);
    } else {
      assert DogOk(s, s.dogs[d]);
      BornStays(s, a, d);
      if SentryAlive(s.dogs[d]) || (AnchorsUp(s.dogs[d]) && s.dogs[d].pinged) {
        ChildIsExclusive(s, d);
        ApplyKeepsExclusive(s, a, d);
      }
      if !IsOf(a, d) {
        OtherDogsStay(s, a, d);
      } else {
        hide Inv, DogOk;
        if a.LoopEvent? {
          LoopKeepsDog(s, a, d);
        } else {
          OwnActionKeepsDog(s, a, d);
        }
      }
    }
  }

  /** A number that a watchdog has reserved is given to no other process. */
  lemma ApplyKeepsExclusive(s: State, a: Action, d: DogId)
    requires Inv(s) && Enabled(s, a) && d in s.dogs
    requires Exclusive(s, s.dogs[d].child) && (AnchorsUp(s.dogs[d]) || s.dogs[d].child in s.table)
    ensures Exclusive(Apply(s, a), s.dogs[d].child)
  {
    TableChanges(s, a);
    if a.Spawn? || a.Launch? {
      NewcomerIsNew(s, a);
    }
    hide Apply, Enabled;
  }

  lemma LoopKeepsReference(s: State, a: Action, d: DogId, c: Conn)
    requires ReferenceOk(s, d, c) && Enabled(s, a) && a.LoopEvent?
    ensures ReferenceOk(Apply(s, a), d, c)
  {
    hide Reserved, UmbilicalRead, UmbilicalTimer, CloseUmbilicalLink;
  }

  /** References come into being only in the loop of an umbilical process. */
  lemma NoNewReference(s: State, a: Action, d: DogId, c: Conn)
    requires Enabled(s, a) && !a.LoopEvent? && (d in s.dogs ==> DogOk(s, s.dogs[d]))
    ensures Holds(Apply(s, a), d, c) ==> Holds(s, d, c) && Apply(s, a).dogs[d].child == s.dogs[d].child
  {
    hide Reserved, Exclusive;
    if !IsOf(a, d) {
      OtherDogsStay(s, a, d);
      hide Apply, Enabled;
    }
  }

  /** A client that is acknowledged or has hung up stays so. */
  lemma ClientKeepsItsWord(s: State, a: Action, c: Conn)
    requires Enabled(s, a) && !a.LoopEvent? && c in s.clients
    requires Acked(s.clients[c].phase) || s.clients[c].phase.HungUp?
    ensures var t := Apply(s, a);
            && c in t.clients && t.clients[c].dog == s.clients[c].dog && t.clients[c].who == s.clients[c].who
            && (Acked(t.clients[c].phase) || t.clients[c].phase.HungUp?)
  {
    hide Reserved, UmbilicalLoop.Next, Holds;
  }

  lemma ApplyKeepsReference(s: State, a: Action, d: DogId, c: Conn)
    requires Inv(s) && Enabled(s, a)
    ensures ReferenceOk(Apply(s, a), d, c)
  {
    assert ReferenceOk(s, d, c);
    assert d in s.dogs ==> DogOk(s, s.dogs[d]);
    hide Inv, Apply, Enabled, DogOk;
    if a.LoopEvent? {
      LoopKeepsReference(s, a, d, c);
    } else {
      NoNewReference(s, a, d, c);
      if Holds(s, d, c) {
        ClientKeepsItsWord(s, a, c);
      }
    }
  }

  lemma ApplyKeepsInv(s: State, a: Action)
    requires Inv(s) && Enabled(s, a)
    ensures Inv(Apply(s, a))
  {
    hide Enabled, Apply;
    ApplyKeepsTable(s, a);
    forall d, e | d in Apply(s, a).dogs && e in Apply(s, a).dogs && d != e
      ensures Apply(s, a).dogs[d].child != Apply(s, a).dogs[e].child
    {
      ApplyKeepsChildren(s, a, d, e);
    }
    forall d | d in Apply(s, a).dogs ensures DogOk(Apply(s, a), Apply(s, a).dogs[d]) {
      ApplyKeepsDog(s, a, d);
    }
    forall d, c ensures ReferenceOk(Apply(s, a), d, c) {
      ApplyKeepsReference(s, a, d, c);
    }
  }

  ghost predicate IsRun(run: seq<State>, acts: seq<Action>) {
    && |run| == |acts| + 1
    && run[0] == Init()
    && forall k :: 0 <= k < |acts| ==> Enabled(run[k], acts[k]) && run[k + 1] == Apply(run[k], acts[k])
  }

  lemma {:induction false} RunKeepsInv(run: seq<State>, acts: seq<Action>, n: nat)
    requires IsRun(run, acts) && n <= |acts|
    ensures Inv(run[n])
  {
    hide Enabled;
    if n == 0 {
    } else {
      RunKeepsInv(run, acts, n - 1);
      ApplyKeepsInv(run[n - 1], acts[n - 1]);
    }
  }

  // ------------------------------------------------------------------------------------------
  // The guarantee

  /** Whoever signals the pid now reaches the process that the client means, or nobody. */
  predicate Safe(s: State, who: Ident) {
    Exclusive(s, who) && Reserved(s, who.pid)
  }

  /** While the umbilical holds the reference of a client, the pid is reserved and can only be the pid of
      the process that the client read from the pid file: whether or not the sentry and the child are
      still alive. */
  lemma ReferenceReserves(run: seq<State>, acts: seq<Action>, n: nat, c: Conn, d: DogId)
    requires IsRun(run, acts) && n <= |acts| && Holds(run[n], d, c)
    ensures c in run[n].clients && run[n].clients[c].who == run[n].dogs[d].child
    ensures Safe(run[n], run[n].clients[c].who)
  {
    hide Enabled, Apply;
    RunKeepsInv(run, acts, n);
    assert ReferenceOk(run[n], d, c);
    assert DogOk(run[n], run[n].dogs[d]);
  }

  /** A reference that is there now was there before, back to the acknowledgement. */
  lemma ReferenceWasHeld(s: State, a: Action, c: Conn)
    requires Inv(s) && Enabled(s, a) && c in s.clients && Acked(s.clients[c].phase)
    requires c in Apply(s, a).clients && Holds(Apply(s, a), s.clients[c].dog, c)
    ensures Holds(s, s.clients[c].dog, c)
  {
    assert s.clients[c].dog in s.dogs ==> DogOk(s, s.dogs[s.clients[c].dog]);
  }

  lemma ClientStays(s: State, a: Action, c: Conn)
    requires Enabled(s, a) && c in s.clients
    ensures c in Apply(s, a).clients
    ensures Apply(s, a).clients[c].who == s.clients[c].who && Apply(s, a).clients[c].dog == s.clients[c].dog
    ensures Acked(Apply(s, a).clients[c].phase) && !(a.LoopEvent? && a.e.Accepts? && a.e.conn == c) ==>
              Acked(s.clients[c].phase)
  {
  }

  lemma {:induction false} ClientStaysInRun(run: seq<State>, acts: seq<Action>, m: nat, n: nat, c: Conn)
    requires IsRun(run, acts) && m <= n <= |acts| && c in run[m].clients
    ensures c in run[n].clients
    ensures run[n].clients[c].who == run[m].clients[c].who && run[n].clients[c].dog == run[m].clients[c].dog
    decreases n - m
  {
    hide Enabled, Apply;
    if m < n {
      ClientStaysInRun(run, acts, m, n - 1, c);
      ClientStays(run[n - 1], acts[n - 1], c);
    }
  }

  lemma {:induction false} AckedStays(run: seq<State>, acts: seq<Action>, m: nat, n: nat, c: Conn)
    requires IsRun(run, acts) && m <= n <= |acts| && c in run[m].clients && Acked(run[m].clients[c].phase)
    ensures c in run[n].clients && (Acked(run[n].clients[c].phase) || run[n].clients[c].phase.HungUp?)
    decreases n - m
  {
    hide Reserved;
    if m < n {
      AckedStays(run, acts, m, n - 1, c);
    }
  }

  lemma HungUpStays(s: State, a: Action, c: Conn)
    requires Enabled(s, a) && c in s.clients && s.clients[c].phase.HungUp?
    ensures c in Apply(s, a).clients && Apply(s, a).clients[c].phase.HungUp?
  {
    hide Reserved;
  }

  lemma {:induction false} HeldSinceAck(run: seq<State>, acts: seq<Action>, m: nat, n: nat, c: Conn)
    requires IsRun(run, acts) && m <= n <= |acts|
    requires c in run[m].clients && Acked(run[m].clients[c].phase)
    requires c in run[n].clients && Acked(run[n].clients[c].phase) && Holds(run[n], run[m].clients[c].dog, c)
    ensures Holds(run[m], run[m].clients[c].dog, c)
    decreases n - m
  {
    hide Enabled, Apply;
    if m < n {
      AckedStays(run, acts, m, n - 1, c);
      ClientStaysInRun(run, acts, m, n - 1, c);
      RunKeepsInv(run, acts, n - 1);
      if run[n - 1].clients[c].phase.HungUp? {
        HungUpStays(run[n - 1], acts[n - 1], c);
      }
      ReferenceWasHeld(run[n - 1], acts[n - 1], c);
      HeldSinceAck(run, acts, m, n - 1, c);
    }
  }

  /** If a client was acknowledged, ran its command with the pid of the child, and reapCommand reports
      success, then at every moment from the acknowledgement to the reaping of the command the pid was
      not available for reuse, and no process but the one named by the pid file could have it. */
  lemma SuccessMeansReserved(run: seq<State>, acts: seq<Action>, m: nat, n: nat, c: Conn)
    requires IsRun(run, acts) && m <= n < |acts|
    requires c in run[m].clients && Acked(run[m].clients[c].phase)
    requires acts[n] == ReapCommand(c) && c in run[n + 1].clients && run[n + 1].clients[c].phase == Reported(0)
    ensures forall k :: m <= k <= n ==> c in run[k].clients && run[k].clients[c].who == run[m].clients[c].who
                                        && Safe(run[k], run[m].clients[c].who)
  {
    ClientStaysInRun(run, acts, m, n, c);
    var d := run[m].clients[c].dog;
    assert Holds(run[n], d, c);
    forall k | m <= k <= n
      ensures c in run[k].clients && run[k].clients[c].who == run[m].clients[c].who
      ensures Safe(run[k], run[m].clients[c].who)
    {
      hide Enabled, Apply;
      ClientStaysInRun(run, acts, m, k, c);
      AckedStays(run, acts, m, k, c);
      NeverHungUp(run, acts, k, n, c);
      HeldSinceAck(run, acts, k, n, c);
      ReferenceReserves(run, acts, k, c, d);
    }
  }

  lemma {:induction false} NeverHungUp(run: seq<State>, acts: seq<Action>, k: nat, n: nat, c: Conn)
    requires IsRun(run, acts) && k <= n <= |acts| && c in run[k].clients && c in run[n].clients
    requires !run[n].clients[c].phase.HungUp?
    ensures !run[k].clients[c].phase.HungUp?
    decreases n - k
  {
    hide Enabled, Apply;
    if k < n {
      ClientStaysInRun(run, acts, k, n - 1, c);
      if run[n - 1].clients[c].phase.HungUp? {
        HungUpStays(run[n - 1], acts[n - 1], c);
      }
      NeverHungUp(run, acts, k, n - 1, c);
    }
  }

  // ------------------------------------------------------------------------------------------
  // The report of the command

  predicate EndsUmbilical(a: Action, d: DogId) {
    a == Refuse(d) || a == UmbilicalEnds(d)
  }

  /** The umbilical process of d ends between two moments of a run. */
  predicate Ends(acts: seq<Action>, m: nat, n: nat, d: DogId)
    requires m <= n <= |acts|
  {
    exists k :: m <= k < n && EndsUmbilical(acts[k], d)
  }

  lemma EndsStep(acts: seq<Action>, m: nat, n: nat, d: DogId)
    requires m <= n < |acts|
    ensures Ends(acts, m, n + 1, d) <==> Ends(acts, m, n, d) || EndsUmbilical(acts[n], d)
  {
  }

  lemma LoopKeepsHolding(s: State, a: Action, d: DogId, c: Conn)
    requires Enabled(s, a) && a.LoopEvent? && a.d == d && Holds(s, d, c)
    requires c in s.clients && !s.clients[c].phase.HungUp?
    ensures Holds(Apply(s, a), d, c)
  {
    hide Reserved, UmbilicalRead, UmbilicalTimer, CloseUmbilicalLink;
  }

  lemma ReferenceStays(s: State, a: Action, d: DogId, c: Conn)
    requires Inv(s) && Enabled(s, a) && Holds(s, d, c) && c in s.clients && !s.clients[c].phase.HungUp?
    requires !EndsUmbilical(a, d)
    ensures Holds(Apply(s, a), d, c)
  {
    assert DogOk(s, s.dogs[d]);
    hide Inv, Reserved, Exclusive, UmbilicalLoop.Next, UmbilicalLoop.Possible, Ended;
    if !IsOf(a, d) {
      OtherDogsStay(s, a, d);
      hide Apply, Enabled;
    } else if a.LoopEvent? {
      LoopKeepsHolding(s, a, d, c);
    } else {
      OwnActionLeavesServing(s, a, d);
      hide Apply, Enabled, DogOk;
    }
  }

  /** Apart from its end nothing but its loop changes an umbilical process in service. */
  lemma OwnActionLeavesServing(s: State, a: Action, d: DogId)
    requires Enabled(s, a) && IsOf(a, d) && !a.LoopEvent? && !EndsUmbilical(a, d)
    requires d in s.dogs && DogOk(s, s.dogs[d]) && s.dogs[d].umbilical.Serving?
    ensures var t := Apply(s, a);
            d in t.dogs && t.dogs[d].umbilical.Serving? && t.dogs[d].loop == s.dogs[d].loop
  {
    hide Reserved, Exclusive;
  }

  lemma DeadUmbilicalStays(s: State, a: Action, d: DogId)
    requires Inv(s) && Enabled(s, a) && d in s.dogs
    requires s.dogs[d].umbilical.UmbilicalDead? || EndsUmbilical(a, d)
    ensures d in Apply(s, a).dogs && Apply(s, a).dogs[d].umbilical.UmbilicalDead?
  {
    assert DogOk(s, s.dogs[d]);
    hide Inv, Reserved, Exclusive, UmbilicalLoop.Next, UmbilicalLoop.Possible, Ended;
    if !IsOf(a, d) {
      OtherDogsStay(s, a, d);
      hide Apply, Enabled;
    }
  }

  lemma AcceptHolds(s: State, c: Conn, d: DogId)
    requires Enabled(s, LoopEvent(d, Accepts(c)))
    ensures Holds(Apply(s, LoopEvent(d, Accepts(c))), d, c)
    ensures c in s.clients && s.clients[c].dog == d
    ensures var t := Apply(s, LoopEvent(d, Accepts(c)));
            c in t.clients && t.clients[c].phase.Acknowledged? && t.clients[c].dog == d
  {
  }

  lemma HeldStep(s: State, a: Action, d: DogId, c: Conn)
    requires Inv(s) && Enabled(s, a) && c in s.clients && !s.clients[c].phase.HungUp?
    requires Holds(s, d, c) || (d in s.dogs && s.dogs[d].umbilical.UmbilicalDead?)
    ensures EndsUmbilical(a, d) || !Holds(s, d, c) ==>
              d in Apply(s, a).dogs && Apply(s, a).dogs[d].umbilical.UmbilicalDead?
    ensures !EndsUmbilical(a, d) && Holds(s, d, c) ==> Holds(Apply(s, a), d, c)
  {
    hide Enabled, Apply, EndsUmbilical, Inv;
    if EndsUmbilical(a, d) || !Holds(s, d, c) {
      DeadUmbilicalStays(s, a, d);
    } else {
      ReferenceStays(s, a, d, c);
    }
  }

  lemma {:induction false} HeldUnlessEnded(run: seq<State>, acts: seq<Action>, m: nat, n: nat, c: Conn, d: DogId)
    requires IsRun(run, acts) && m < n <= |acts| && acts[m] == LoopEvent(d, Accepts(c))
    requires c in run[n].clients && !run[n].clients[c].phase.HungUp?
    ensures !Ends(acts, m + 1, n, d) ==> Holds(run[n], d, c)
    ensures Ends(acts, m + 1, n, d) ==>
              d in run[n].dogs && run[n].dogs[d].umbilical.UmbilicalDead? && !Holds(run[n], d, c)
    decreases n - m
  {
    hide Enabled, Apply, EndsUmbilical, Inv, Ends;
    AcceptHolds(run[m], c, d);
    if m + 1 == n {
      NoEnds(acts, n, d);
    } else {
      ClientStaysInRun(run, acts, m + 1, n - 1, c);
      NeverHungUp(run, acts, n - 1, n, c);
      HeldUnlessEnded(run, acts, m, n - 1, c, d);
      RunKeepsInv(run, acts, n - 1);
      EndsStep(acts, m + 1, n - 1, d);
      HeldStep(run[n - 1], acts[n - 1], d, c);
    }
  }

  lemma NoEnds(acts: seq<Action>, m: nat, d: DogId)
    requires m <= |acts|
    ensures !Ends(acts, m, m, d)
  {
  }

  lemma ReapReports(s: State, c: Conn)
    requires Enabled(s, ReapCommand(c))
    ensures c in s.clients && s.clients[c].phase.Exited?
    ensures c in Apply(s, ReapCommand(c)).clients
    ensures Apply(s, ReapCommand(c)).clients[c].phase == Reported(ReportedStatus(s, c, s.clients[c].phase.code))
  {
  }

  /** What reapCommand reports, exactly: the code of the command, except that success becomes 255 if and
      only if the umbilical process that acknowledged the client has refused a client or ended between
      the acknowledgement and the reaping. So a success is never masked without reason. */
  lemma ReportedExactly(run: seq<State>, acts: seq<Action>, m: nat, n: nat, c: Conn, d: DogId)
    requires IsRun(run, acts) && m < n < |acts|
    requires acts[m] == LoopEvent(d, Accepts(c)) && acts[n] == ReapCommand(c)
    ensures c in run[n].clients && run[n].clients[c].phase.Exited? && c in run[n + 1].clients
    ensures var code := run[n].clients[c].phase.code;
            run[n + 1].clients[c].phase == Reported(if code == 0 && Ends(acts, m + 1, n, d) then 255 else code)
  {
    ReapReports(run[n], c);
    AcceptHolds(run[m], c, d);
    hide Enabled, Apply, EndsUmbilical, Holds;
    ClientStaysInRun(run, acts, m + 1, n, c);
    HeldUnlessEnded(run, acts, m, n, c, d);
  }

  lemma Extend(run: seq<State>, acts: seq<Action>, a: Action) returns (run': seq<State>, acts': seq<Action>, s: State)
    requires IsRun(run, acts) && Enabled(run[|acts|], a)
    ensures run' == run + [s] && acts' == acts + [a] && s == Apply(run[|acts|], a) && IsRun(run', acts')
    ensures |run'| == |acts'| + 1 && run'[|acts'|] == s
  {
    s := Apply(run[|acts|], a);
    run', acts' := run + [s], acts + [a];
    hide Enabled, Apply;
    forall k | 0 <= k < |acts'| ensures Enabled(run'[k], acts'[k]) && run'[k + 1] == Apply(run'[k], acts'[k]) {
      if k < |acts| {
        assert run'[k] == run[k] && run'[k + 1] == run[k + 1] && acts'[k] == acts[k];
      }
    }
  }

  lemma NothingYet()
    ensures IsRun([Init()], [])
  {
  }

  /** A watchdog that has just been started. */
  lemma StartWatchdog(who: Ident) returns (run: seq<State>, acts: seq<Action>, s: State)
    ensures IsRun(run, acts) && |run| == |acts| + 1 && s == run[|acts|]
    ensures s == State.State({who}, {who}, map[0 := Dog(who, Guarding, false, Anchored, NewLoop(0, true))], map[])
  {
    hide IsRun;
    run, acts, s := [Init()], [], Init();
    NothingYet();
    run, acts, s := Extend(run, acts, Launch(0, who));
    run, acts, s := Extend(run, acts, ForkUmbilical(0));
    run, acts, s := Extend(run, acts, Anchor(0));
    run, acts, s := Extend(run, acts, ForkReturns(0));
  }

  function Acknowledging(who: Ident, now: int): Dog {
    Dog(who, Guarding, true, Serving, Accepted(UmbilicalLoop.Next(NewLoop(0, true), Reads(Ping, now)), 0))
  }

  /** Its umbilical has acknowledged a client. */
  lemma AcknowledgeClient(who: Ident, now: int) returns (run: seq<State>, acts: seq<Action>, s: State)
    ensures IsRun(run, acts) && |run| == |acts| + 1 && s == run[|acts|]
    ensures s == State.State({who}, {who}, map[0 := Acknowledging(who, now)], map[0 := Client(who, 0, Acknowledged)])
  {
    hide IsRun;
    run, acts, s := StartWatchdog(who);
    run, acts, s := Extend(run, acts, PingUmbilical(0));
    run, acts, s := Extend(run, acts, Synchronise(0, now));
    run, acts, s := Extend(run, acts, Connect(0, who, 0));
    run, acts, s := Extend(run, acts, LoopEvent(0, Accepts(0)));
  }

  /** The client runs its command. */
  lemma RunClient(who: Ident, now: int) returns (run: seq<State>, acts: seq<Action>, s: State)
    ensures IsRun(run, acts) && |run| == |acts| + 1 && s == run[|acts|]
    ensures s == State.State({who}, {who}, map[0 := Acknowledging(who, now)], map[0 := Client(who, 0, CommandRunning)])
  {
    hide IsRun;
    run, acts, s := AcknowledgeClient(who, now);
    run, acts, s := Extend(run, acts, RunCommand(0));
  }

  /** The guarantee is not empty: the sentry dies and the child is reaped while the command runs, the
      command succeeds, and the pid is still reserved when success is reported. */
  lemma SentryMayDie(who: Ident, now: int) returns (run: seq<State>, acts: seq<Action>, s: State)
    ensures IsRun(run, acts) && |run| == |acts| + 1 && s == run[|acts|]
    ensures s.table == {} && s.clients == map[0 := Client(who, 0, Reported(0))] && Reserved(s, who.pid)
    ensures s.dogs.Keys == {0} && s.dogs[0].sentry.SentryDead?
  {
    hide IsRun;
    run, acts, s := RunClient(who, now);
    assert Holds(s, 0, 0);
    run, acts, s := Extend(run, acts, Action.SentryDies(0));
    run, acts, s := Extend(run, acts, Exit(who));
    run, acts, s := Extend(run, acts, CommandExits(0, 0));
    run, acts, s := Extend(run, acts, ReapCommand(0));
  }

  /** The umbilical ends while the command runs, and the pid goes to another process. */
  lemma LoseReference(who: Ident, other: Ident, now: int) returns (run: seq<State>, acts: seq<Action>, s: State)
    requires other != who && other.pid == who.pid
    ensures IsRun(run, acts) && |run| == |acts| + 1 && s == run[|acts|]
    ensures s.table == {other} && s.dogs.Keys == {0} && s.dogs[0].umbilical.UmbilicalDead?
    ensures s.clients == map[0 := Client(who, 0, CommandRunning)]
  {
    hide IsRun;
    run, acts, s := RunClient(who, now);
    run, acts, s := Extend(run, acts, ReapChild(0));
    run, acts, s := Extend(run, acts, UmbilicalEnds(0));
    run, acts, s := Extend(run, acts, Spawn(other));
  }

  /** And the check in reapCommand is needed: in this run the success of the command is reported as a
      failure. */
  lemma LostReferenceIsReported(who: Ident, other: Ident, now: int)
    returns (run: seq<State>, acts: seq<Action>, s: State)
    requires other != who && other.pid == who.pid
    ensures IsRun(run, acts) && |run| == |acts| + 1 && s == run[|acts|]
    ensures s.table == {other} && s.clients == map[0 := Client(who, 0, Reported(255))]
  {
    hide IsRun;
    run, acts, s := LoseReference(who, other, now);
    run, acts, s := Extend(run, acts, CommandExits(0, 0));
    run, acts, s := Extend(run, acts, ReapCommand(0));
  }
}
