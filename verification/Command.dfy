/** The client: how it obtains a reference on the child that a pid file names before it runs a command,
    and what it reports after the command. */
module Command {
  import opened Common
  import opened PidSignature
  import Text = PidFileText

  datatype Status =
    | Ok | Error | UnreachablePidFile | NonexistentPidFile | InaccessiblePidFile | ZombiePidFile | MalformedPidFile

  datatype Path = Reachable | Unreachable | PathFails

  /** The outcome of opening the pid file. */
  datatype OpenResult = Opened | NoEntry | NoAccess | OpenFails

  /** How far the conversation with the pid server gets: whether it connects, how many octets it takes, and
      whether it acknowledges. */
  datatype Peer = Peer(connects: bool, room: nat, acks: bool)

  /** What the client meets. The text is what the file holds once the shared lock is held; None when
      the lock or the read fails. */
  datatype Scene = Scene(path: Path, file: OpenResult, text: Option<string>, processes: map<int, string>, peer: Peer) {

    /** What the client learns from the pid file, if it comes to reading it. */
    function Content(): Option<Text.Content> {
      if path.Reachable? && file.Opened? && text.Some? then Some(Text.Read(text.value, processes)) else None
    }

    predicate IsAuthentic() {
      Content().Some? && Content().value.Authentic?
    }

    function Who(): Ident
      requires IsAuthentic()
    {
      Content().value.who
    }

    /** Files hold octets. */
    predicate IsOctets() {
      text.Some? ==> PidSignature.IsOctets(text.value)
    }

    /** There is nothing to run the command against, which --relaxed forgives. */
    predicate NoChild() {
      (path.Reachable? && file.NoEntry?) || Content() == Some(Text.Stale)
    }
  }

  lemma {:induction false} DigitsArePositive(s: string)
    requires forall k :: 0 <= k < |s| ==> Text.IsDigit(s[k])
    ensures Text.DigitsValue(s) >= 0
  {
    if s != "" {
      DigitsArePositive(s[..|s| - 1]);
    }
  }

  /** An authentic identity can be sent over the wire. */
  lemma AuthenticIsSendable(file: string, processes: map<int, string>)
    requires Text.Read(file, processes).Authentic? && IsOctets(file)
    ensures var who := Text.Read(file, processes).who;
            && 0 < who.pid <= Text.MAX_PID && IsPid(who.pid)
            && IsCString(who.signature) && |who.signature| <= MAX_SIGNATURE
            && who.pid in processes && processes[who.pid] == who.signature
  {
    var s := Text.CString(file);
    var (sep, sig, addr) := Text.LineEnds(s).value;
    DigitsArePositive(s[..sep]);
    assert s == file[..|s|];
    assert NUL !in s;
  }

  /** What the client has to send to the pid server. */
  function Message(scene: Scene, w: nat): seq<Octet>
    requires scene.IsOctets() && scene.IsAuthentic()
  {
    AuthenticIsSendable(scene.text.value, scene.processes);
    Sent(scene.Who(), w).value
  }

  /** The identity in an authentic pid file was sent in full and acknowledged. */
  predicate Attached(scene: Scene, w: nat)
    requires scene.IsOctets()
  {
    scene.IsAuthentic() && scene.peer.connects && |Message(scene, w)| <= scene.peer.room && scene.peer.acks
  }

  /** What is sent; less than the message if the server takes less. */
  function Output(scene: Scene, w: nat): seq<Octet>
    requires scene.IsOctets()
  {
    if scene.IsAuthentic() && scene.peer.connects then Prefix(Message(scene, w), scene.peer.room) else []
  }

  class Command {
    var childPid: int

    // mKeeperTether: whether the connection is held
    var tether: bool

    constructor ()
      ensures childPid == 0 && !tether
    {
      childPid, tether := 0, false;
    }

    /** The part of createCommand that may end early. */
    method Attach(scene: Scene, keeper: Stream, w: nat) returns (status: Status)
      requires scene.IsOctets()
      requires w == 4 || w == 8
      requires childPid == 0 && !tether
      modifies this, keeper
      ensures status.Ok? <==> Attached(scene, w)
      ensures status.Ok? ==> childPid == scene.Who().pid && childPid != 0 && tether
      ensures !status.Ok? ==> childPid == 0
      ensures status.UnreachablePidFile? <==> scene.path.Unreachable?
      ensures status.NonexistentPidFile? <==> scene.path.Reachable? && scene.file.NoEntry?
      ensures status.InaccessiblePidFile? <==> scene.path.Reachable? && scene.file.NoAccess?
      ensures status.ZombiePidFile? <==> scene.Content() == Some(Text.Stale)
      ensures status.MalformedPidFile? <==> scene.Content() == Some(Text.Malformed)
      ensures keeper.data == old(keeper.data) + Output(scene, w)
    {
      hide Integer, AsOctets, PidBits, Prefix, Text.Read, IsPid;
      match scene.path
      case PathFails => return Error;
      case Unreachable => return UnreachablePidFile;
      case Reachable =>
      match scene.file
      case OpenFails => return Error;
      case NoEntry => return NonexistentPidFile;
      case NoAccess => return InaccessiblePidFile;
      case Opened =>
      if scene.text.None? {
        return Error;
      }
      var content := Text.ReadPidFile(scene.text.value, scene.processes);
      match content
      case AddressTooLong => return Error;
      case Stale => return ZombiePidFile;
      case Malformed => return MalformedPidFile;
      case Authentic(who, sunPath) =>
      AuthenticIsSendable(scene.text.value, scene.processes);
      if !scene.peer.connects {
        return Error;
      }
      tether := true;
      var sent := SendPidSignature(keeper, who, w, scene.peer.room);
      if !sent || !scene.peer.acks {
        return Error;
      }
      childPid := who.pid;
      status := Ok;
    }

    /** createCommand: the command runs against a child exactly when the pid file named an existing process
        and the pid server acknowledged that identity; it runs without one exactly when there is no
        child and --relaxed was given; and the connection is kept exactly in the first case. */
    method CreateCommand(relaxed: bool, scene: Scene, keeper: Stream, w: nat) returns (status: Status)
      requires scene.IsOctets()
      requires w == 4 || w == 8
      modifies this, keeper
      ensures status.Ok? && childPid != 0 <==> Attached(scene, w)
      ensures status.Ok? && childPid != 0 ==> childPid == scene.Who().pid
      ensures tether <==> status.Ok? && childPid != 0
      ensures status.Ok? && childPid == 0 <==> relaxed && scene.NoChild()
      ensures status.NonexistentPidFile? || status.ZombiePidFile? <==> !relaxed && scene.NoChild()
      ensures status.ZombiePidFile? ==> scene.Content() == Some(Text.Stale)
      ensures status.UnreachablePidFile? <==> scene.path.Unreachable?
      ensures status.InaccessiblePidFile? <==> scene.path.Reachable? && scene.file.NoAccess?
      ensures status.MalformedPidFile? <==> scene.Content() == Some(Text.Malformed)
      ensures keeper.data == old(keeper.data) + Output(scene, w)
    {
      childPid, tether := 0, false;
      status := Attach(scene, keeper, w);
      if (status.NonexistentPidFile? || status.ZombiePidFile?) && relaxed {
        childPid := 0;
        status := Ok;
      }
      if !status.Ok? || childPid == 0 {
        tether := false;
      }
    }

    /** reapCommand: the exit code of the command, except that the loss of the reference is reported as
        255 when the command itself succeeded. None when waiting fails. */
    method ReapCommand(exited: Option<int>, readReady: Option<bool>) returns (status: Option<int>)
      ensures exited.None? ==> status.None?
      ensures exited.Some? && exited.value != 0 ==> status == exited
      ensures exited == Some(0) ==> (status == Some(0) <==> !tether || readReady == Some(false))
      ensures exited == Some(0) && status.Some? && status != Some(0) ==>
                status == Some(255) && tether && readReady == Some(true)
    {
      if exited.None? {
        return None;
      }
      if exited.value == 0 && tether {
        if readReady.None? {
          return None;
        }
        if readReady.value {
          return Some(255);
        }
      }
      status := exited;
    }
  }

  // ------------------------------------------------------------------------------------------
  // From the pid file to the pid server

  /** Whatever wrote the pid file: the identity a client takes from it reaches the pid server unchanged,
      and the comparison the server makes accepts it exactly when it is the identity of its own child.
      So an acknowledgement means that client and server agree on a process that existed when the
      file was read. */
  lemma AcknowledgedMeansSameChild(
    file: string, processes: map<int, string>, w: nat, later: seq<Octet>, child: Ident)
    requires Text.Read(file, processes).Authentic? && IsOctets(file)
    requires w == 4 || w == 8
    requires IsCString(child.signature)
    ensures var who := Text.Read(file, processes).who;
            && IsPid(who.pid) && IsOctets(who.signature) && Sent(who, w).Some?
            && Receive(Sent(who, w).value + later, w) == Received.Received(who, later)
            && (Rank(child, who) == 0 <==> child == who)
            && who.pid in processes && processes[who.pid] == who.signature
  {
    hide Text.Read, Receive, Rank;
    AuthenticIsSendable(file, processes);
    var who := Text.Read(file, processes).who;
    ReceiveSent(who, w, later);
    RankIsTotalOrder(child, who, child);
  }

  /** The way a reference is obtained when everything goes well: a sentry prints the identity of its child
      and its address, a client reads the file while the child exists, and the pid server of that
      child, and no other, accepts what the client sends. */
  lemma ClientReachesItsServer(
    pid: nat, signature: string, address: string, processes: map<int, string>, w: nat, later: seq<Octet>, other: Ident)
    requires 0 < pid <= Text.MAX_PID && Text.IsLine(signature) && IsCString(signature) && Text.IsAddress(address)
    requires IsOctets(address) && IsCString(other.signature) && (w == 4 || w == 8)
    requires Text.Printed(pid, signature, address).Some? && pid in processes && processes[pid] == signature
    ensures var who := Ident(pid, signature);
            && Text.Read(Text.Printed(pid, signature, address).value, processes) ==
               Text.Authentic(who, Text.SunPath(address))
            && Receive(Sent(who, w).value + later, w) == Received.Received(who, later)
            && (Rank(other, who) == 0 <==> other == who)
  {
    Text.ReadPrinted(pid, signature, address, processes);
    var text := Text.Printed(pid, signature, address).value;
    hide Text.Read, Receive, Rank;
    PrintedIsOctets(pid, signature, address);
    AcknowledgedMeansSameChild(text, processes, w, later, other);
  }

  lemma PrintedIsOctets(pid: nat, signature: string, address: string)
    requires IsOctets(signature) && IsOctets(address) && Text.Printed(pid, signature, address).Some?
    ensures IsOctets(Text.Printed(pid, signature, address).value)
  {
    hide Text.Decimal;
    var digits := Text.Decimal(pid);
    assert IsOctets(digits + "\n");
    assert IsOctets(digits + "\n" + "" + "\n");
    assert IsOctets(digits + "\n" + "" + "\n" + signature + "\n");
  }
}
