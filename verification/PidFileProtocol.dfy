/** The pid file ownership protocol: any number of sentries and clients that open, lock, read,
    unlink, create, write and truncate the one file named by a path.

    One action is one system call of one process, so a run is an arbitrary interleaving.
    Assumptions about what is called but not part of this model:
      - a lock is a blocking flock on the open file; closing the file, or the death of the process,
        drops it;
      - two open files have the same (device, inode) exactly when they are the same file, because an
        inode number cannot be reused while the file is open;
      - a write of the whole text either completes or leaves a strict prefix, which reads as
        malformed (PidFileText.TornTextIsMalformed); nobody outside the protocol touches the path. */
module PidFileProtocol {
  import opened Common

  type Inode = nat
  type ProcId = nat

  datatype Text = Blank | Torn | Names(who: Ident)

  /** The creator is a history variable: it records which process created the file with O_EXCL. */
  datatype File = File(creator: ProcId, text: Text)

  datatype Lock = Unlocked | Shared | Exclusive

  /** Where a process is. The first group is generatePidFile_, the second createPidFile, the third
      the owning sentry up to the reaping of its child, the fourth the client command. */
  datatype Pc =
    | OpenOld | LockOld | ReadOld | CheckOld | CloseTaken | StatOld | UnlinkOld | UnlockOld | CloseOld | CreateNew
    | LockNew | StatNew | UnlockZombie | CloseZombie | WriteNew | UnlockNew
    | Running | LockOwned | Truncate | StatOwned | UnlinkOwned | CloseOwned | Reap | Finished
    | Rejected | Bailing | Bailed | Aborted
    | ClientOpen | ClientLock | ClientRead | ClientCheck | ClientHold | ClientDone
    | Crashed

  /** Bookkeeping of one createPidFile call: how often it went round a retry loop, how many
      creations and unlinks by others happened before the current pass, the value of the
      global change counter when the pass opened the path, and the changes made by the process itself
      in the current pass. */
  datatype Effort = Effort(retries: nat, past: int, mark: int, own: int)

  datatype Proc = Proc(
    pc: Pc,
    fd: Option<Inode>,
    lock: Lock,
    child: Option<Ident>,
    seen: Text,
    effort: Effort)

  /** The directory entry, the files, the processes, the identities in the process table, every
      identity that ever existed, and how often the directory entry has changed. */
  datatype State = State(
    path: Option<Inode>,
    files: map<Inode, File>,
    procs: map<ProcId, Proc>,
    live: set<Ident>,
    born: set<Ident>,
    changes: nat)

  datatype Action =
    | SpawnSentry(p: ProcId, child: Ident)
    | SpawnClient(p: ProcId)
    | Run(p: ProcId, inode: Inode)
    | WriteFails(p: ProcId, torn: bool)
    | Bail(p: ProcId)
    | Crash(p: ProcId)
    | OrphanReaped(p: ProcId)

  function Init(): State {
    State(None, map[], map[], {}, {}, 0)
  }

  // ------------------------------------------------------------------------------------------
  // Transitions

  predicate SentryPc(pc: Pc) {
    !pc.ClientOpen? && !pc.ClientLock? && !pc.ClientRead? && !pc.ClientCheck? && !pc.ClientHold? &&
    !pc.ClientDone? && !pc.Crashed?
  }

  /** The process still keeps its child: it has neither reaped it nor died. */
  predicate KeepsChild(pc: Pc) {
    SentryPc(pc) && !pc.Finished? && !pc.Bailed? && !pc.Aborted?
  }

  /** Off the normal path: dead, aborted, or closing down after an error without unlinking. */
  predicate Abnormal(pc: Pc) {
    pc.Crashed? || pc.Aborted? || pc.Bailing? || pc.Bailed?
  }

  predicate Terminal(pc: Pc) {
    pc.Finished? || pc.Bailed? || pc.Aborted? || pc.ClientDone? || pc.Crashed?
  }

  predicate WantsLock(pc: Pc) {
    pc.LockOld? || pc.LockNew? || pc.LockOwned? || pc.ClientLock?
  }

  predicate NamesLive(s: State, t: Text) {
    t.Names? && t.who in s.live
  }

  predicate Compatible(want: Lock, held: Lock) {
    if want.Exclusive? then held.Unlocked? else held != Exclusive
  }

  predicate LockFree(s: State, p: ProcId, want: Lock)
    requires p in s.procs
  {
    forall q :: q in s.procs && q != p && s.procs[q].fd == s.procs[p].fd ==> Compatible(want, s.procs[q].lock)
  }

  /** Makes every system call well defined; it holds of every process in every run (ShapeOk). */
  predicate WellFormed(s: State, r: Proc) {
    && (r.fd.None? <==> NoFile(r.pc))
    && (r.fd.Some? ==> r.fd.value in s.files)
    && (SentryPc(r.pc) ==> r.child.Some?)
  }

  predicate Enabled(s: State, a: Action) {
    match a
    case SpawnSentry(p, child) => p !in s.procs && child !in s.born
    case SpawnClient(p) => p !in s.procs
    case Run(p, inode) =>
      && p in s.procs
      && !Terminal(s.procs[p].pc)
      && WellFormed(s, s.procs[p])
      && inode !in s.files
      && (WantsLock(s.procs[p].pc) ==>
            LockFree(s, p, if s.procs[p].pc.ClientLock? then Shared else Exclusive))
    case WriteFails(p, torn) =>
      p in s.procs && s.procs[p].pc.WriteNew? && s.procs[p].fd.Some? && s.procs[p].fd.value in s.files
    case Bail(p) => p in s.procs && s.procs[p].pc.Running?
    case Crash(p) => p in s.procs && !Terminal(s.procs[p].pc)
    case OrphanReaped(p) =>
      p in s.procs && (s.procs[p].pc.Crashed? || s.procs[p].pc.Aborted?) && s.procs[p].child.Some?
  }

  predicate NoFile(pc: Pc) {
    pc.OpenOld? || pc.CreateNew? || pc.Reap? || pc.Rejected? || pc.Bailing? || pc.ClientOpen? || Terminal(pc)
  }

  function Set(s: State, p: ProcId, r: Proc): State {
    s.(procs := s.procs[p := r])
  }

  function WriteText(s: State, i: Inode, t: Text): State
    requires i in s.files
  {
    s.(files := s.files[i := s.files[i].(text := t)])
  }

  function Unlink(s: State): State {
    if s.path.None? then s else s.(path := None, changes := s.changes + 1)
  }

  /** Creations and unlinks by other processes since the current pass began. */
  function OthersNow(s: State, r: Proc): int {
    s.changes - r.effort.mark - r.effort.own
  }

  function Unlinked(s: State, e: Effort): Effort {
    e.(own := e.own + if s.path.Some? then 1 else 0)
  }

  function Retry(s: State, e: Effort): Effort {
    Effort(e.retries + 1, e.past + (s.changes - e.mark - e.own), s.changes, 0)
  }

  /** What the next system call of process p does to its own record. */
  function NextProc(s: State, p: ProcId, inode: Inode): Proc
    requires p in s.procs && WellFormed(s, s.procs[p])
  {
    var r := s.procs[p];
    match r.pc
    // generatePidFile_
    case OpenOld =>
      var e := Effort(r.effort.retries, r.effort.past + OthersNow(s, r), s.changes, 0);
      if s.path.Some? then r.(pc := LockOld, fd := s.path, effort := e) else r.(pc := CreateNew, effort := e)
    case LockOld => r.(pc := ReadOld, lock := Exclusive)
    case ReadOld => r.(pc := CheckOld, seen := s.files[r.fd.value].text)
    case CheckOld =>
      r.(pc := if NamesLive(s, r.seen) then CloseTaken else StatOld)
    case CloseTaken => r.(pc := Rejected, fd := None, lock := Unlocked)
    case StatOld => r.(pc := if s.path == r.fd then UnlinkOld else UnlockOld)
    case UnlinkOld => r.(pc := UnlockOld, effort := Unlinked(s, r.effort))
    case UnlockOld => r.(pc := CloseOld, lock := Unlocked)
    case CloseOld => r.(pc := CreateNew, fd := None)
    case CreateNew =>
      if s.path.Some? then r.(pc := OpenOld, effort := Retry(s, r.effort))
      else r.(pc := LockNew, fd := Some(inode), effort := r.effort.(own := r.effort.own + 1))
    // createPidFile
    case LockNew => r.(pc := StatNew, lock := Exclusive)
    case StatNew => r.(pc := if s.path == r.fd then WriteNew else UnlockZombie)
    case UnlockZombie => r.(pc := CloseZombie, lock := Unlocked)
    case CloseZombie => r.(pc := OpenOld, fd := None, effort := Retry(s, r.effort))
    case WriteNew => r.(pc := UnlockNew)
    case UnlockNew => r.(pc := Running, lock := Unlocked)
    // the owning sentry
    case Running => r.(pc := LockOwned)
    case LockOwned => r.(pc := Truncate, lock := Exclusive)
    case Truncate => r.(pc := StatOwned)
    case StatOwned => r.(pc := if s.path == r.fd then UnlinkOwned else Aborted)
    case UnlinkOwned => r.(pc := CloseOwned, effort := Unlinked(s, r.effort))
    case CloseOwned => r.(pc := Reap, fd := None, lock := Unlocked)
    case Reap => r.(pc := Finished)
    case Rejected => r.(pc := Bailing)
    case Bailing => r.(pc := Bailed)
    // the client
    case ClientOpen => if s.path.Some? then r.(pc := ClientLock, fd := s.path) else r.(pc := ClientDone)
    case ClientLock => r.(pc := ClientRead, lock := Shared)
    case ClientRead => r.(pc := ClientCheck, seen := s.files[r.fd.value].text)
    case ClientCheck =>
      if NamesLive(s, r.seen) then r.(pc := ClientHold) else r.(pc := ClientDone, fd := None, lock := Unlocked)
    case ClientHold => r.(pc := ClientDone, fd := None, lock := Unlocked)
    case _ => r
  }

  /** What it does to the path, the files and the process table. */
  function NextShared(s: State, p: ProcId, inode: Inode): State
    requires p in s.procs && WellFormed(s, s.procs[p])
  {
    var r := s.procs[p];
    match r.pc
    case UnlinkOld => Unlink(s)
    case CreateNew =>
      if s.path.Some? then s
      else s.(path := Some(inode), files := s.files[inode := File(p, Blank)], changes := s.changes + 1)
    case WriteNew => WriteText(s, r.fd.value, Names(r.child.value))
    case Truncate => WriteText(s, r.fd.value, Blank)
    case UnlinkOwned => Unlink(s)
    case Reap => s.(live := s.live - {r.child.value})
    case Bailing => s.(live := s.live - {r.child.value})
    case _ => s
  }

  /** The next system call of process p. */
  function Exec(s: State, p: ProcId, inode: Inode): State
    requires p in s.procs && WellFormed(s, s.procs[p])
  {
    Set(NextShared(s, p, inode), p, NextProc(s, p, inode))
  }

  function Apply(s: State, a: Action): State
    requires Enabled(s, a)
  {
    match a
    case SpawnSentry(p, child) =>
      Set(s, p, Proc(OpenOld, None, Unlocked, Some(child), Blank, Effort(0, 0, s.changes, 0)))
      .(live := s.live + {child}, born := s.born + {child})
    case SpawnClient(p) =>
      Set(s, p, Proc(ClientOpen, None, Unlocked, None, Blank, Effort(0, 0, s.changes, 0)))
    case Run(p, inode) => Exec(s, p, inode)
    case WriteFails(p, torn) =>
      Set(WriteText(s, s.procs[p].fd.value, if torn then Torn else Blank), p, s.procs[p].(pc := Truncate))
    case Bail(p) => Set(s, p, s.procs[p].(pc := Bailing, fd := None))
    case Crash(p) => Set(s, p, s.procs[p].(pc := Crashed, fd := None, lock := Unlocked))
    case OrphanReaped(p) => s.(live := s.live - {s.procs[p].child.value})
  }

  // ------------------------------------------------------------------------------------------
  // Invariant

  predicate Owning(pc: Pc) {
    pc.UnlockNew? || pc.Running? || pc.LockOwned? || pc.Truncate?
  }

  /** The file open here was created with O_EXCL by the process itself. */
  predicate HoldsOwnFile(pc: Pc) {
    pc.LockNew? || pc.StatNew? || pc.UnlockZombie? || pc.CloseZombie? || pc.WriteNew? || Owning(pc) ||
    pc.StatOwned? || pc.UnlinkOwned? || pc.CloseOwned?
  }

  predicate HoldsExclusive(pc: Pc) {
    pc.ReadOld? || pc.CheckOld? || pc.CloseTaken? || pc.StatOld? || pc.UnlinkOld? || pc.UnlockOld? || pc.StatNew? ||
    pc.UnlockZombie? || pc.WriteNew? || pc.UnlockNew? || pc.Truncate? || pc.StatOwned? || pc.UnlinkOwned? ||
    pc.CloseOwned?
  }

  predicate HoldsShared(pc: Pc) {
    pc.ClientRead? || pc.ClientCheck? || pc.ClientHold?
  }

  /** The process has the named file locked and under its name. */
  predicate HoldsPath(pc: Pc) {
    pc.UnlinkOld? || pc.WriteNew? || pc.UnlockNew? || pc.Truncate? || pc.StatOwned? || pc.UnlinkOwned?
  }

  /** What the program counter of a process says about its descriptor and its lock. */
  predicate ShapeOk(s: State, r: Proc) {
    && WellFormed(s, r)
    && r.lock == (if HoldsExclusive(r.pc) then Exclusive else if HoldsShared(r.pc) then Shared else Unlocked)
    && !r.pc.Aborted?
    && (r.child.Some? ==> r.child.value in s.born)
    && (KeepsChild(r.pc) ==> r.child.value in s.live)
  }

  /** What it says about the file it has open and about the path. */
  predicate FileOk(s: State, p: ProcId, r: Proc)
    requires ShapeOk(s, r)
  {
    && (HoldsOwnFile(r.pc) ==> s.files[r.fd.value].creator == p)
    && (HoldsPath(r.pc) ==> s.path == r.fd)
    && (r.pc.CheckOld? || r.pc.ClientCheck? ==> r.seen == s.files[r.fd.value].text)
    && (r.pc.StatOld? || r.pc.UnlinkOld? ==> !NamesLive(s, s.files[r.fd.value].text))
    && (r.pc.LockNew? || r.pc.StatNew? || r.pc.WriteNew? || r.pc.StatOwned? || r.pc.UnlinkOwned? ==>
          s.files[r.fd.value].text.Blank?)
    && (r.pc.UnlockNew? || r.pc.Running? || r.pc.LockOwned? ==> s.files[r.fd.value].text == Names(r.child.value))
    && (r.pc.ClientHold? ==> s.files[r.fd.value].text.Names?)
  }

  /** A retry is always paid for by a creation or an unlink of another process. */
  predicate EffortOk(s: State, r: Proc) {
    var others := OthersNow(s, r);
    && r.effort.retries <= r.effort.past
    && 0 <= others
    && (r.pc.LockOld? || r.pc.ReadOld? || r.pc.CheckOld? || r.pc.StatOld? || r.pc.LockNew? || r.pc.StatNew? ==>
          others == 0 ==> s.path == r.fd)
    && (r.pc.UnlockOld? || r.pc.CloseOld? || r.pc.CreateNew? ==> others == 0 ==> s.path.None?)
    && (r.pc.UnlockZombie? || r.pc.CloseZombie? ==> 1 <= others)
  }

  predicate Calling(pc: Pc) {
    pc.OpenOld? || pc.LockOld? || pc.ReadOld? || pc.CheckOld? || pc.StatOld? || pc.UnlinkOld? || pc.UnlockOld? ||
    pc.CloseOld? || pc.CreateNew? || pc.LockNew? || pc.StatNew? || pc.UnlockZombie? || pc.CloseZombie? ||
    pc.WriteNew? || pc.UnlockNew?
  }

  predicate ProcOk(s: State, p: ProcId, r: Proc) {
    ShapeOk(s, r) && FileOk(s, p, r) && (Calling(r.pc) ==> EffortOk(s, r))
  }

  /** A file that names a process was written by the sentry of that process, which still has it open
      unless it went off the normal path; and if that process is live the path names the file. */
  predicate FileNamesOk(s: State, i: Inode)
    requires i in s.files
  {
    var f := s.files[i];
    f.text.Names? ==>
      && f.creator in s.procs
      && s.procs[f.creator].child == Some(f.text.who)
      && (Abnormal(s.procs[f.creator].pc) || (Owning(s.procs[f.creator].pc) && s.procs[f.creator].fd == Some(i)))
      && (f.text.who in s.live ==> s.path == Some(i))
  }

  predicate LocksOk(r: Proc, q: Proc) {
    r.fd.Some? && r.fd == q.fd ==> (r.lock.Exclusive? ==> q.lock.Unlocked?)
  }

  ghost predicate Inv(s: State) {
    && (forall p :: p in s.procs ==> ProcOk(s, p, s.procs[p]))
    && (forall i :: i in s.files ==> FileNamesOk(s, i))
    && (forall p, q :: p in s.procs && q in s.procs && p != q ==> LocksOk(s.procs[p], s.procs[q]))
    && (forall p, q :: p in s.procs && q in s.procs && p != q && s.procs[p].child.Some? ==>
          s.procs[p].child != s.procs[q].child)
    && (s.path.Some? ==> s.path.value in s.files)
    && s.live <= s.born
  }
}
