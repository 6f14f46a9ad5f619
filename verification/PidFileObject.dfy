/** The PidFile object as the program uses it: its methods are the functions of pidfile_.c, with the
    loops of the source, running against other processes that act between any two system calls. Every
    method drives the process of the object through the protocol of PidFileProtocol, so what is proved
    there for all runs holds for these calls. */
module PidFileObject {
  import opened Common
  import opened PidFileProtocol
  import opened PidFileInvariant

  /** The shared state, and what the other processes are still going to do: one batch of actions before
      each system call. Inode numbers from next on are unused. */
  class World {
    var st: State
    var schedule: seq<seq<Action>>
    var next: Inode

    ghost predicate Valid()
      reads this
    {
      Inv(st) && forall i :: i in st.files ==> i < next
    }

    constructor ()
      ensures Valid() && st == Init() && schedule == []
    {
      st, schedule, next := Init(), [], 0;
    }

    /** The next batch of actions of processes other than p; those that are not possible are skipped. */
    method Interfere(p: ProcId)
      requires Valid() && p in st.procs
      modifies this
      ensures Valid() && p in st.procs && st.procs[p] == old(st).procs[p]
      ensures LockKeeps(old(st), st, p)
      ensures |schedule| == if old(schedule) == [] then 0 else |old(schedule)| - 1
      ensures old(schedule) == [] ==> st == old(st)
    {
      hide Apply, Enabled, Inv, LockKeeps;
      LockKeepsNow(st, p);
      if schedule != [] {
        var batch := schedule[0];
        schedule := schedule[1..];
        for k := 0 to |batch|
          invariant Valid() && p in st.procs && st.procs[p] == old(st).procs[p]
          invariant schedule == old(schedule)[1..] && LockKeeps(old(st), st, p)
        {
          var a := batch[k];
          if a.p != p && Enabled(st, a) {
            ApplyKeepsInv(st, a);
            FilesAfter(st, a);
            LockKeepsOn(old(st), st, a, p);
            next := if a.Run? && next <= a.inode then a.inode + 1 else next;
            st := Apply(st, a);
          }
        }
      }
    }

    /** One system call of process p. */
    method Syscall(p: ProcId)
      requires Valid() && p in st.procs && Enabled(st, Run(p, next))
      modifies this
      ensures Valid() && st == Exec(old(st), p, old(next)) && schedule == old(schedule)
    {
      RunKeepsInv(st, p, next);
      FilesAfter(st, Run(p, next));
      st := Exec(st, p, next);
      next := next + 1;
    }
  }

  lemma FilesAfter(s: State, a: Action)
    requires Enabled(s, a)
    ensures Apply(s, a).files.Keys <= s.files.Keys + (if a.Run? then {a.inode} else {})
    ensures forall q :: q in s.procs && q != a.p ==> q in Apply(s, a).procs && Apply(s, a).procs[q] == s.procs[q]
  {
  }

  /** What p holds exclusively locked in s is in t as it was: its content, and whether the path names it. */
  predicate LockKeeps(s: State, t: State, p: ProcId) {
    p in s.procs && p in t.procs && t.procs[p] == s.procs[p] &&
    (s.procs[p].lock.Exclusive? && s.procs[p].fd.Some? && s.procs[p].fd.value in s.files ==>
       KeepsFile(s, t, s.procs[p].fd.value))
  }

  lemma LockKeepsNow(s: State, p: ProcId)
    requires p in s.procs
    ensures LockKeeps(s, s, p)
  {
  }

  lemma LockKeepsOn(s: State, t: State, a: Action, p: ProcId)
    requires LockKeeps(s, t, p) && Inv(t) && Enabled(t, a) && a.p != p
    ensures LockKeeps(s, Apply(t, a), p)
  {
    FilesAfter(t, a);
    if t.procs[p].lock.Exclusive? && t.procs[p].fd.Some? && t.procs[p].fd.value in s.files {
      LockedFileIsKept(t, a, p);
    }
    hide Apply, Enabled, Inv;
  }

  function AfterLock(pc: Pc): Pc {
    match pc
    case LockOld => ReadOld
    case LockNew => StatNew
    case LockOwned => Truncate
    case ClientLock => ClientRead
    case _ => pc
  }

  /** A process with an exclusive lock has the file open. */
  lemma LockedFacts(s: State, p: ProcId)
    requires Inv(s) && p in s.procs && HoldsExclusive(s.procs[p].pc)
    ensures s.procs[p].lock.Exclusive? && s.procs[p].fd.Some? && s.procs[p].fd.value in s.files
  {
    ProcIsOk(s, p);
    hide Inv, FileOk, EffortOk;
  }

  lemma ReadFacts(s: State, p: ProcId, inode: Inode)
    requires Inv(s) && p in s.procs && s.procs[p].pc.ReadOld? && WellFormed(s, s.procs[p])
    ensures var t := Exec(s, p, inode);
            && t.procs[p] == s.procs[p].(pc := CheckOld, seen := s.files[s.procs[p].fd.value].text)
            && t == s.(procs := t.procs)
  {
  }

  /** The check of the pid that was read. */
  lemma CheckFacts(s: State, p: ProcId, inode: Inode)
    requires Inv(s) && p in s.procs && s.procs[p].pc.CheckOld? && WellFormed(s, s.procs[p])
    ensures var t := Exec(s, p, inode);
            var i := s.procs[p].fd.value;
            && t == s.(procs := t.procs)
            && s.procs[p].seen == s.files[i].text
            && t.procs[p] == s.procs[p].(pc := if NamesLive(s, s.files[i].text) then CloseTaken else StatOld)
            && (NamesLive(s, s.files[i].text) ==> NamedByAnother(t, p, i, s.files[i].text.who))
  {
    ProcIsOk(s, p);
    var i := s.procs[p].fd.value;
    if NamesLive(s, s.files[i].text) {
      LiveNameIsUnderPath(s, i);
      NamedFileIsAnothers(s, p, i);
    }
    hide Inv, EffortOk;
  }

  lemma LockFacts(s: State, p: ProcId, inode: Inode)
    requires Inv(s) && p in s.procs && WantsLock(s.procs[p].pc) && inode !in s.files
    requires LockFree(s, p, if s.procs[p].pc.ClientLock? then Shared else Exclusive)
    ensures Enabled(s, Run(p, inode)) && s.procs[p].fd.Some?
    ensures NextProc(s, p, inode) == s.procs[p].(pc := AfterLock(s.procs[p].pc),
                                                 lock := if s.procs[p].pc.ClientLock? then Shared else Exclusive)
    ensures NextShared(s, p, inode) == s
  {
    assert ProcOk(s, p, s.procs[p]);
  }

  lemma UnlinkFacts(s: State, p: ProcId, inode: Inode)
    requires Inv(s) && p in s.procs && (s.procs[p].pc.UnlinkOld? || s.procs[p].pc.UnlinkOwned?)
    requires WellFormed(s, s.procs[p])
    ensures var t := Exec(s, p, inode);
            var r := t.procs[p];
            && r == s.procs[p].(pc := r.pc, effort := r.effort) && r.effort.retries == s.procs[p].effort.retries
            && r.pc == (if s.procs[p].pc.UnlinkOld? then UnlockOld else CloseOwned)
            && t.path.None? && t.files == s.files
            && OthersNow(t, r) == OthersNow(s, s.procs[p])
  {
    assert ProcOk(s, p, s.procs[p]);
  }

  lemma TruncateFacts(s: State, p: ProcId, inode: Inode)
    requires Inv(s) && p in s.procs && s.procs[p].pc.Truncate? && WellFormed(s, s.procs[p])
    ensures var t := Exec(s, p, inode);
            var i := s.procs[p].fd.value;
            && s.procs[p].fd.Some? && s.procs[p].lock.Exclusive?
            && s.path == Some(i) && t.path == s.path && i in t.files && t.files[i].text.Blank?
            && t.procs[p] == s.procs[p].(pc := StatOwned) && t.changes == s.changes
  {
    ProcIsOk(s, p);
    hide Inv, EffortOk;
  }

  predicate Closing(pc: Pc) {
    pc.CloseTaken? || pc.CloseOld? || pc.CloseZombie? || pc.CloseOwned?
  }

  lemma CloseFacts(s: State, p: ProcId, inode: Inode)
    requires Inv(s) && p in s.procs && WellFormed(s, s.procs[p]) && Closing(s.procs[p].pc)
    ensures var t := Exec(s, p, inode);
            var r := t.procs[p];
            && t == s.(procs := t.procs)
            && r.fd.None? && r.lock.Unlocked? && r.child == s.procs[p].child
            && r.pc == (match s.procs[p].pc
                        case CloseTaken => Rejected
                        case CloseOld => CreateNew
                        case CloseZombie => OpenOld
                        case _ => Reap)
            && (!s.procs[p].pc.CloseZombie? ==>
                  r.effort == s.procs[p].effort && OthersNow(t, r) == OthersNow(s, s.procs[p]))
            && (s.procs[p].pc.CloseZombie? ==> 1 <= OthersNow(s, s.procs[p]))
  {
    ProcIsOk(s, p);
    CloseLeaves(s, p, inode);
    hide Inv, ShapeOk, FileOk, NextProc, NextShared, Exec;
  }

  lemma CloseLeaves(s: State, p: ProcId, inode: Inode)
    requires p in s.procs && ProcOk(s, p, s.procs[p]) && Closing(s.procs[p].pc)
    ensures var r := s.procs[p];
            var t := NextProc(s, p, inode);
            && Exec(s, p, inode) == Set(s, p, t)
            && t == r.(pc := t.pc, fd := None, lock := Unlocked, effort := t.effort)
            && (!r.pc.CloseZombie? ==> t.effort == r.effort)
            && t.pc == (match r.pc
                        case CloseTaken => Rejected
                        case CloseOld => CreateNew
                        case CloseZombie => OpenOld
                        case _ => Reap)
  {
    hide FileOk, EffortOk;
  }

  lemma CreateFacts(s: State, p: ProcId, inode: Inode)
    requires Inv(s) && p in s.procs && WellFormed(s, s.procs[p]) && s.procs[p].pc.CreateNew?
    ensures var t := Exec(s, p, inode);
            var r := t.procs[p];
            && r.lock == s.procs[p].lock && r.child == s.procs[p].child
            && r.pc == (if r.fd.Some? then LockNew else OpenOld)
            && (r.fd.Some? ==> r.effort.retries == s.procs[p].effort.retries &&
                               OthersNow(t, r) == OthersNow(s, s.procs[p]))
            && (r.fd.None? ==> 1 <= OthersNow(s, s.procs[p]))
  {
    assert ProcOk(s, p, s.procs[p]);
  }

  datatype Outcome = Created | Exists(who: Ident) | Blocked

  class PidFile {
    const p: ProcId
    const world: World
    var file: Option<Inode>
    var lock: Lock

    /** The fields agree with the descriptor and the lock that the protocol gives to the process. */
    ghost predicate Valid()
      reads this, world
    {
      world.Valid() && p in world.st.procs && file == Me().fd && lock == Me().lock
    }

    function Me(): Proc
      requires p in world.st.procs
      reads world
    {
      world.st.procs[p]
    }

    /** Creations and unlinks by others in the current pass of the retry loops. */
    ghost function Others(): int
      requires p in world.st.procs
      reads world
    {
      OthersNow(world.st, Me())
    }

    /** What a call leaves alone: nothing is added to the schedule, and when the schedule is empty the
        others do not act. */
    twostate predicate Quiet()
      requires p in old(world.st.procs) && p in world.st.procs
      reads world
    {
      && |world.schedule| <= |old(world.schedule)|
      && (old(world.schedule) == [] ==> Others() == old(Others()))
      && Me().effort.retries == old(Me()).effort.retries
      && Me().child == old(Me()).child
    }

    constructor (p: ProcId, world: World)
      requires world.Valid() && p in world.st.procs
      ensures Valid() && this.p == p && this.world == world
    {
      this.p, this.world := p, world;
      file, lock := world.st.procs[p].fd, world.st.procs[p].lock;
    }

    /** lockPidFile_: waits while an incompatible lock is held. It gives up only when nobody is left
        that could release the lock. */
    method LockPidFile(kind: Lock) returns (locked: bool)
      requires Valid() && WantsLock(Me().pc)
      requires kind == if Me().pc.ClientLock? then Shared else Exclusive
      modifies this, world
      ensures Valid() && file == old(file)
      ensures Quiet()
      ensures locked ==> lock == kind && Me() == old(Me()).(pc := AfterLock(old(Me().pc)), lock := kind)
      ensures !locked ==> world.schedule == [] && Me() == old(Me()) && !LockFree(world.st, p, kind)
      ensures old(world.schedule) == [] ==> locked == LockFree(old(world.st), p, kind)
    {
      hide ProcOk, NextProc, NextShared;
      world.Interfere(p);
      while !LockFree(world.st, p, kind) && world.schedule != []
        invariant world.Valid() && p in world.st.procs && Me() == old(Me())
        invariant |world.schedule| <= |old(world.schedule)|
        invariant old(world.schedule) == [] ==> world.st == old(world.st)
        decreases |world.schedule|
        modifies world
      {
        world.Interfere(p);
      }
      locked := LockFree(world.st, p, kind);
      if locked {
        LockFacts(world.st, p, world.next);
        world.Syscall(p);
        lock := kind;
      }
    }

    /** Lets the others act, then makes the next system call, which never blocks here. The state in
        between is handed back for the proofs of the callers. */
    method Call() returns (ghost mid: State, ghost inode: Inode)
      requires Valid() && !WantsLock(Me().pc) && !Terminal(Me().pc)
      modifies world
      ensures world.Valid() && Inv(mid) && p in mid.procs && mid.procs[p] == old(Me())
      ensures Enabled(mid, Run(p, inode)) && WellFormed(mid, mid.procs[p])
      ensures LockKeeps(old(world.st), mid, p)
      ensures world.st == Exec(mid, p, inode)
      ensures |world.schedule| == if old(world.schedule) == [] then 0 else |old(world.schedule)| - 1
      ensures old(world.schedule) == [] ==> mid == old(world.st)
    {
      hide NextProc, NextShared;
      world.Interfere(p);
      assert ProcOk(world.st, p, Me());
      mid, inode := world.st, world.next;
      world.Syscall(p);
    }

    method OpenOldFile() returns (found: bool)
      requires Valid() && Me().pc.OpenOld?
      modifies this, world
      ensures Valid() && Me().effort.retries == old(Me()).effort.retries && Me().child == old(Me()).child
      ensures |world.schedule| == if old(world.schedule) == [] then 0 else |old(world.schedule)| - 1
      ensures Others() == 0 && lock == old(lock)
      ensures old(world.schedule) == [] && found ==> file == old(world.st).path
      ensures Me().pc == if found then LockOld else CreateNew
    {
      var mid, inode := Call();
      assert ProcOk(mid, p, mid.procs[p]);
      file := Me().fd;
      found := file.Some?;
    }

    /** readPidFile and the liveness check of the pid it names: the result is the live process that the locked
        file names, if it names one; the path then names this file, and another sentry wrote it. */
    method ReadPidFile() returns (live: Option<Ident>)
      requires Valid() && Me().pc.ReadOld?
      modifies this, world
      ensures Valid() && Quiet() && file == old(file) && lock == old(lock) && lock.Exclusive?
      ensures Me().pc == if live.Some? then CloseTaken else StatOld
      ensures file.Some? && KeepsFile(old(world.st), world.st, file.value)
      ensures live.Some? <==> NamesLive(world.st, world.st.files[file.value].text)
      ensures live.Some? ==> live.value in world.st.live && NamedByAnother(world.st, p, file.value, live.value)
    {
      ghost var before := world.st;
      LockedFacts(before, p);
      var mid, inode := Call();
      ReadFacts(mid, p, inode);
      var text := Me().seen;
      ghost var read := world.st;
      mid, inode := Call();
      CheckFacts(mid, p, inode);
      assert KeepsFile(before, world.st, file.value) by {
        assert KeepsFile(before, read, file.value);
        assert KeepsFile(read, mid, file.value);
      }
      live := if Me().pc.CloseTaken? then Some(text.who) else None;
    }

    /** detectPidFileZombie_: whether the path names another file, or none. The lock keeps that from changing,
        so it was so when the call began. */
    method DetectZombie() returns (zombie: bool)
      requires Valid() && (Me().pc.StatOld? || Me().pc.StatNew? || Me().pc.StatOwned?)
      modifies this, world
      ensures Valid() && Quiet() && file == old(file) && lock == old(lock) && lock.Exclusive?
      ensures file.Some? && KeepsFile(old(world.st), world.st, file.value)
      ensures zombie <==> world.st.path != file
      ensures zombie ==> !old(Me()).pc.StatOwned?
      ensures zombie && old(Me()).pc.StatNew? ==> 1 <= Others()
      ensures Me().pc == match old(Me()).pc
                         case StatOld => if zombie then UnlockOld else UnlinkOld
                         case StatNew => if zombie then UnlockZombie else WriteNew
                         case _ => UnlinkOwned
    {
      LockedFacts(world.st, p);
      var mid, inode := Call();
      assert ProcOk(mid, p, mid.procs[p]);
      zombie := Me().pc.UnlockOld? || Me().pc.UnlockZombie?;
    }

    /** unlinkPidFile_: removes the path if and only if it names the file of this object, and changes the
        content of the file in no case. The owner always finds its file there. */
    method UnlinkPidFile() returns (unlinked: bool)
      requires Valid() && (Me().pc.StatOld? || Me().pc.StatOwned?)
      modifies this, world
      ensures Valid() && Quiet() && file == old(file) && lock == old(lock) && lock.Exclusive?
      ensures Me().pc == if old(Me()).pc.StatOld? then UnlockOld else CloseOwned
      ensures unlinked <==> old(world.st.path) == file
      ensures old(Me()).pc.StatOwned? ==> unlinked
      ensures unlinked ==> world.st.path.None?
      ensures file.Some? && world.st.path != file
      ensures file.value in old(world.st).files && file.value in world.st.files
      ensures world.st.files[file.value] == old(world.st).files[file.value]
    {
      hide Inv, NextProc, NextShared;
      var zombie := DetectZombie();
      unlinked := !zombie;
      if unlinked {
        ghost var before := world.st;
        LockedFacts(before, p);
        var mid, inode := Call();
        UnlinkFacts(mid, p, inode);
      }
    }

    /** releasePidFileLock_ */
    method ReleaseLock()
      requires Valid() && (Me().pc.UnlockOld? || Me().pc.UnlockZombie? || Me().pc.UnlockNew?)
      modifies this, world
      ensures Valid() && Quiet() && file == old(file) && lock.Unlocked?
      ensures Me().pc == if old(Me()).pc.UnlockOld? then CloseOld else if old(Me()).pc.UnlockNew? then Running
                         else CloseZombie
    {
      hide Inv, Enabled;
      var mid, inode := Call();
      lock := Unlocked;
    }

    /** ert_closeFile on a file that needs no truncation or unlink. */
    method CloseFile()
      requires Valid()
      requires Me().pc.CloseTaken? || Me().pc.CloseOld? || Me().pc.CloseZombie? || Me().pc.CloseOwned?
      modifies this, world
      ensures Valid() && file.None? && lock.Unlocked? && Me().child == old(Me()).child
      ensures |world.schedule| <= |old(world.schedule)|
      ensures !old(Me()).pc.CloseZombie? ==> Quiet()
      ensures old(lock).Exclusive? && old(file).Some? && old(file).value in old(world.st).files ==>
                KeepsFile(old(world.st), world.st, old(file).value)
      ensures Me().pc == match old(Me()).pc
                         case CloseTaken => Rejected
                         case CloseOld => CreateNew
                         case CloseZombie => OpenOld
                         case _ => Reap
    {
      hide Inv, Enabled, NextProc, NextShared;
      var mid, inode := Call();
      CloseFacts(mid, p, inode);
      file, lock := None, Unlocked;
    }

    /** The O_EXCL creation; it fails when the path names a file. */
    method CreateFile() returns (created: bool)
      requires Valid() && Me().pc.CreateNew?
      modifies this, world
      ensures Valid() && Me().child == old(Me()).child && lock == old(lock)
      ensures |world.schedule| <= |old(world.schedule)|
      ensures created ==> Me().pc.LockNew? && file.Some? && Quiet()
      ensures !created ==> Me().pc.OpenOld? && file.None?
      ensures old(world.schedule) == [] && old(Others()) == 0 ==> created
    {
      hide Inv, Enabled, LockFree, NextProc, NextShared;
      var mid, inode := Call();
      CreateFacts(mid, p, inode);
      file := Me().fd;
      created := file.Some?;
    }

    /** createPidFile_: the whole text in one write. */
    method WritePidFile()
      requires Valid() && Me().pc.WriteNew?
      modifies this, world
      ensures Valid() && Quiet() && Me().pc.UnlockNew? && file == old(file) && lock == old(lock)
    {
      hide Inv, Enabled, LockFree;
      var mid, inode := Call();
    }

    /** acquirePidFileWriteLock and closePidFile by the owner: truncate, unlink, close. Afterwards the file
        is empty and the path does not name it. */
    method WithdrawPidFile() returns (withdrawn: bool)
      requires Valid() && Me().pc.LockOwned?
      modifies this, world
      ensures Valid()
      ensures withdrawn ==> Me().pc.Reap? && file.None? && lock.Unlocked?
      ensures withdrawn ==> old(file).Some? && old(file).value in world.st.files &&
                            world.st.files[old(file).value].text.Blank? && world.st.path != old(file)
      ensures !withdrawn ==> world.schedule == [] && Me() == old(Me()) && !LockFree(world.st, p, Exclusive)
    {
      hide Inv, NextProc, NextShared, LockFree;
      withdrawn := LockPidFile(Exclusive);
      if withdrawn {
        TruncatePidFile();
        var unlinked := UnlinkPidFile();
        CloseFile();
      }
    }

    method TruncatePidFile()
      requires Valid() && Me().pc.Truncate?
      modifies this, world
      ensures Valid() && Quiet() && Me().pc.StatOwned? && file == old(file) && lock == old(lock) && lock.Exclusive?
      ensures file.Some? && file.value in world.st.files
      ensures world.st.files[file.value].text.Blank? && world.st.path == file
    {
      hide Inv, Enabled, LockFree, LockKeeps, NextProc, NextShared;
      var mid, inode := Call();
      TruncateFacts(mid, p, inode);
    }

    /** The part of generatePidFile_ that deals with the file found under the path. Created stands for "not
        taken": the file was unlinked, if the path still named it, and closed. */
    method RemoveOldFile() returns (outcome: Outcome)
      requires Valid() && Me().pc.LockOld? && lock.Unlocked?
      modifies this, world
      ensures Valid() && Quiet() && lock.Unlocked?
      ensures outcome.Created? ==> Me().pc.CreateNew? && file.None?
      ensures outcome.Exists? ==> Me().pc.Rejected? && file.None?
      ensures outcome.Exists? ==> world.st.path.Some? && NamedByAnother(world.st, p, world.st.path.value, outcome.who)
      ensures outcome.Blocked? ==> Me().pc.LockOld? && world.schedule == [] && !LockFree(world.st, p, Exclusive)
    {
      hide Inv, Enabled, LockFree, NextProc, NextShared;
      var locked := LockPidFile(Exclusive);
      if !locked {
        return Blocked;
      }
      var live := ReadPidFile();
      if live.Some? {
        ghost var taken := file.value;
        CloseFile();
        NamedFileIsAnothers(world.st, p, taken);
        return Exists(live.value);
      }
      var unlinked := UnlinkPidFile();
      ReleaseLock();
      CloseFile();
      return Created;
    }

    /** generatePidFile_: removes a file that names no live process and creates a new one, until it
        succeeds or finds the name taken. It is taken when the path names a file that another sentry wrote
        and that names the child of that sentry, which was live when it was read. */
    method GeneratePidFile() returns (outcome: Outcome)
      requires Valid() && Me().pc.OpenOld? && file.None? && lock.Unlocked?
      modifies this, world
      ensures Valid() && Me().child == old(Me()).child
      ensures outcome.Created? ==> Me().pc.LockNew? && file.Some? && lock.Unlocked?
      ensures outcome.Created? ==> |world.schedule| < |old(world.schedule)| || (world.schedule == [] && Others() == 0)
      ensures outcome.Exists? ==> Me().pc.Rejected? && file.None? && lock.Unlocked?
      ensures outcome.Exists? ==> world.st.path.Some? && NamedByAnother(world.st, p, world.st.path.value, outcome.who)
      ensures outcome.Blocked? ==> Me().pc.LockOld? && world.schedule == [] && !LockFree(world.st, p, Exclusive)
      ensures |world.schedule| <= |old(world.schedule)|
      ensures old(world.schedule) == [] ==> Me().effort.retries == old(Me()).effort.retries
    {
      hide Inv, Enabled, LockFree, NextProc, NextShared, NamedByAnother;
      var created := false;
      while !created
        invariant Valid() && Me().child == old(Me()).child && lock.Unlocked?
        invariant |world.schedule| <= |old(world.schedule)|
        invariant created ==> Me().pc.LockNew? && file.Some?
        invariant created ==> |world.schedule| < |old(world.schedule)| || (world.schedule == [] && Others() == 0)
        invariant !created ==> Me().pc.OpenOld? && file.None?
        invariant old(world.schedule) == [] ==> Me().effort.retries == old(Me()).effort.retries
        decreases if created then 0 else 1, |world.schedule|
      {
        var found := OpenOldFile();
        if found {
          outcome := RemoveOldFile();
          if !outcome.Created? {
            return;
          }
        }
        created := CreateFile();
      }
      return Created;
    }

    /** createPidFile: ends with the complete pid file of the child under the path, with no lock held;
        or finds the name taken by a live process; or waits for ever for a lock nobody will release.
        Left alone, with no lock held by others, it succeeds or fails in a single pass. */
    method CreatePidFile() returns (outcome: Outcome)
      requires Valid() && Me().pc.OpenOld? && file.None? && lock.Unlocked?
      modifies this, world
      ensures Valid() && Me().child == old(Me()).child
      ensures outcome.Created? ==> Me().pc.Running? && lock.Unlocked?
      ensures outcome.Created? ==> && file.Some? && world.st.path == file && Me().child.Some?
                                   && file.value in world.st.files
                                   && world.st.files[file.value] == File(p, Names(Me().child.value))
      ensures outcome.Exists? ==> Me().pc.Rejected? && file.None? && lock.Unlocked?
      ensures outcome.Exists? ==> world.st.path.Some? && NamedByAnother(world.st, p, world.st.path.value, outcome.who)
      ensures outcome.Blocked? ==> && (Me().pc.LockOld? || Me().pc.LockNew?) && world.schedule == []
                                   && !LockFree(world.st, p, Exclusive)
      ensures old(world.schedule) == [] ==> Me().effort.retries == old(Me()).effort.retries
    {
      hide Inv, Enabled, LockFree, NextProc, NextShared;
      var zombie := true;
      while zombie
        invariant Valid() && Me().child == old(Me()).child
        invariant zombie ==> Me().pc.OpenOld? && file.None? && lock.Unlocked?
        invariant !zombie ==> Me().pc.WriteNew?
        invariant old(world.schedule) == [] ==>
                    world.schedule == [] && Me().effort.retries == old(Me()).effort.retries
        decreases if zombie then 1 else 0, |world.schedule|
      {
        outcome := GeneratePidFile();
        if !outcome.Created? {
          return;
        }
        var locked := LockPidFile(Exclusive);
        if !locked {
          return Blocked;
        }
        zombie := DetectZombie();
        if zombie {
          ReleaseLock();
          CloseFile();
        }
      }
      WritePidFile();
      ReleaseLock();
      outcome := Created;
      RunningFacts(world.st, p);
    }
  }

  lemma RunningFacts(s: State, p: ProcId)
    requires Inv(s) && p in s.procs && s.procs[p].pc.Running?
    ensures var r := s.procs[p];
            && r.fd.Some? && s.path == r.fd && r.child.Some?
            && r.fd.value in s.files && s.files[r.fd.value] == File(p, Names(r.child.value))
  {
    assert ProcOk(s, p, s.procs[p]);
    assert FileNamesOk(s, s.procs[p].fd.value);
  }
}
