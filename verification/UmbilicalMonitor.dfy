/** The objects of the umbilical process, updated in place by their callbacks: the pid server with its
    list of clients, and the monitor that runs the event loop. */
module UmbilicalMonitor {
  import opened Common
  import opened Timers
  import opened Heartbeat
  import opened PidSignature
  import opened UmbilicalLoop

  type Uid = nat

  const ROOT: Uid := 0

  class PidServer {
    const child: Ident
    const euid: Uid
    var clients: seq<Conn>

    constructor (child: Ident, euid: Uid)
      ensures this.child == child && this.euid == euid && clients == []
    {
      this.child, this.euid, clients := child, euid, [];
    }

    /** acceptPidServerConnection, after the connection was accepted: the client is acknowledged and
        enqueued when it runs as the user of the server or as root, it sent the signature of the child
        of this server, and the acknowledgement could be written; otherwise the connection is dropped. */
    method AcceptConnection(conn: Conn, peer: Uid, received: Received, acknowledged: bool) returns (ok: bool)
      requires IsCString(child.signature)
      requires received.Received? ==> IsCString(received.id.signature)
      modifies this
      ensures ok <==> (peer == euid || peer == ROOT) && received.Received? && received.id == child && acknowledged
      ensures clients == old(clients) + if ok then [conn] else []
    {
      if peer != euid && peer != ROOT {
        return false;
      }
      if !received.Received? {
        return false;
      }
      RankIsTotalOrder(child, received.id, child);
      if Rank(child, received.id) != 0 {
        return false;
      }
      if !acknowledged {
        return false;
      }
      clients := clients + [conn];
      ok := true;
    }

    /** cleanPidServer: drops the clients that have hung up, one activity at a time, and tells whether
        none is left. */
    method Clean(gone: set<Conn>) returns (empty: bool)
      modifies this
      ensures clients == Without(old(clients), gone) && empty == (clients == [])
    {
      var kept: seq<Conn> := [];
      var rest := clients;
      while rest != []
        invariant Without(old(clients), gone) == kept + Without(rest, gone)
        invariant clients == kept + rest
        decreases |rest|
      {
        if rest[0] in gone {
          clients := kept + rest[1..];
        } else {
          kept := kept + [rest[0]];
        }
        rest := rest[1..];
      }
      empty := clients == [];
    }

    /** closePidServer: discards the first client until none is left. */
    method Close()
      modifies this
      ensures clients == []
    {
      while clients != []
        decreases |clients|
      {
        clients := clients[1..];
      }
    }
  }

  class UmbilicalMonitor {
    const server: PidServer?

    // mUmbilical
    var cycleCount: nat
    var cycleLimit: nat
    var closed: bool

    // mLatch.mEchoRequest
    var echoRequest: bool

    // mPoll: the event masks of the slots, and the timer
    var umbilicalSlot: bool
    var serverSlot: bool
    var clientSlot: bool
    var timer: Timer

    // whether a callback has failed, which makes runUmbilicalMonitor fail
    var failed: bool

    ghost function Link(): UmbilicalLink
      reads this
    {
      UmbilicalLink(umbilicalSlot, closed, cycleCount, cycleLimit, timer, echoRequest)
    }

    /** The state of the loop of UmbilicalLoop. */
    ghost function View(): Loop
      reads this, server
    {
      Loop(Link(), serverSlot, clientSlot, if server == null then [] else server.clients, failed)
    }

    ghost predicate Valid()
      reads this, server
    {
      && (server == null ==> !serverSlot && !clientSlot)
      && (server != null ==> IsCString(server.child.signature))
      && (serverSlot ==> umbilicalSlot)
    }

    constructor (server: PidServer?, timeout: nat)
      requires server != null ==> IsCString(server.child.signature) && server.clients == []
      ensures Valid() && this.server == server
      ensures View() == NewLoop(UmbilicalPeriod(timeout), server != null)
    {
      this.server := server;
      cycleCount, cycleLimit, closed, echoRequest := 0, CYCLES, false, false;
      umbilicalSlot, serverSlot, clientSlot := true, server != null, false;
      timer, failed := Timer(0, UmbilicalPeriod(timeout)), false;
    }

    method CloseFdUmbilical()
      requires Valid()
      modifies this
      ensures Valid() && View() == WithLink(old(View()), CloseUmbilicalLink(old(Link())))
    {
      umbilicalSlot, serverSlot := false, false;
      timer := timer.Disabled();
    }

    /** pollFdUmbilical_: None is the end of the stream or a reset connection. */
    method PollFdUmbilical(read: Option<Byte>, now: int)
      requires Valid() && umbilicalSlot
      requires read.Some? ==> !closed
      modifies this
      ensures Valid()
      ensures View() == UmbilicalLoop.Next(old(View()), if read.Some? then Reads(read.value, now) else ReadsEof)
    {
      if read.None? {
        CloseFdUmbilical();
        return;
      }
      if read.value.CloseRequest? {
        closed := true;
      } else {
        echoRequest := true;
      }
      timer := timer.Triggered(now);
      timer := timer.Delayed(timer.period / 2);
      cycleCount := 0;
    }

    /** pollFdTimerUmbilical_ */
    method PollFdTimerUmbilical(now: int, sentryStopped: bool)
      requires Valid()
      requires umbilicalSlot
      modifies this
      ensures Valid() && View() == UmbilicalLoop.Next(old(View()), TimerFires(now, sentryStopped))
    {
      timer := timer.Lapped(now);
      if sentryStopped {
        cycleCount := 0;
      } else {
        cycleCount := cycleCount + 1;
        if cycleLimit <= cycleCount {
          CloseFdUmbilical();
        }
      }
    }

    /** pollFdSendEcho_: tells whether an echo is written. */
    method PollFdSendEcho() returns (sent: bool)
      requires Valid() && echoRequest
      modifies this
      ensures Valid() && View() == UmbilicalLoop.Next(old(View()), Echoes) && sent == umbilicalSlot
    {
      echoRequest := false;
      sent := umbilicalSlot;
    }

    /** pollFdPidServer_: a failing accept is an error of the loop. */
    method PollFdPidServer(conn: Conn, peer: Uid, received: Received, acknowledged: bool) returns (ok: bool)
      requires Valid() && serverSlot
      requires received.Received? ==> IsCString(received.id.signature)
      modifies this, server
      ensures Valid() && server != null
      ensures ok <==> && (peer == server.euid || peer == ROOT)
                      && received.Received? && received.id == server.child && acknowledged
      ensures View() == UmbilicalLoop.Next(old(View()), if ok then Accepts(conn) else AcceptFails)
    {
      ok := server.AcceptConnection(conn, peer, received, acknowledged);
      if !ok {
        failed := true;
        return;
      }
      if !clientSlot {
        clientSlot := true;
      }
    }

    /** pollFdPidClient_ */
    method PollFdPidClient(gone: set<Conn>, polled: bool)
      requires Valid() && clientSlot
      modifies this, server
      ensures Valid() && View() == UmbilicalLoop.Next(old(View()), Cleans(gone, polled))
    {
      var empty := true;
      if polled {
        empty := server.Clean(gone);
      }
      if empty {
        clientSlot := false;
      }
    }

    /** pollFdCompletion_ */
    method PollFdCompletion() returns (done: bool)
      requires Valid()
      ensures done == Completed(View())
    {
      done := !umbilicalSlot && !serverSlot && !clientSlot;
    }

    /** Any other callback in which a library call fails. */
    method FailCallback()
      requires Valid()
      modifies `failed
      ensures Valid() && View() == UmbilicalLoop.Next(old(View()), CallFails)
    {
      failed := true;
    }

    /** The end of runUmbilicalProcessChild_, after runUmbilicalMonitor: an error leaves it at once, before
        anything is killed. */
    method Finish() returns (kills: Kills)
      requires Valid() && Ended(View())
      ensures kills == AfterLoop(View())
    {
      kills := Kills(false, false);
      if failed {
        return;
      }
      kills := kills.(child := true);
      if !closed {
        kills := kills.(sentry := true);
      }
    }
  }
}
