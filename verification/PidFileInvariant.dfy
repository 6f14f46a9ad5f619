/** Every action keeps the invariant of the pid file protocol. Each lemma below covers one way an
    action can change the shared state: not at all, the path, a text, or the process table. */
module PidFileInvariant {
  import opened Common
  import opened PidFileProtocol

  lemma ProcIsOk(s: State, p: ProcId)
    requires Inv(s) && p in s.procs
    ensures ProcOk(s, p, s.procs[p])
  {
  }

  lemma FileIsOk(s: State, i: Inode)
    requires Inv(s) && i in s.files
    ensures FileNamesOk(s, i)
  {
  }

  /** What is right with a record does not depend on the records of the processes. */
  lemma SetKeepsProcOk(s: State, p: ProcId, r: Proc, q: ProcId, x: Proc)
    requires ProcOk(s, q, x)
    ensures ProcOk(Set(s, p, r), q, x)
  {
  }

  /** Process p may replace its record by r without breaking the locks of the others. */
  ghost predicate LocksFit(s: State, p: ProcId, r: Proc) {
    forall q :: q in s.procs && q != p ==> LocksOk(r, s.procs[q]) && LocksOk(s.procs[q], r)
  }

  /** Every file written by p that still names a process remains accounted for. */
  ghost predicate NamesFit(s: State, p: ProcId, r: Proc) {
    forall i :: i in s.files && s.files[i].text.Names? && s.files[i].creator == p ==>
      Abnormal(r.pc) || (Owning(r.pc) && r.fd == Some(i))
  }

  lemma LocalStep(s: State, p: ProcId, r: Proc)
    requires Inv(s) && p in s.procs
    requires ProcOk(s, p, r) && r.child == s.procs[p].child
    requires LocksFit(s, p, r) && NamesFit(s, p, r)
    ensures Inv(Set(s, p, r))
  {
    hide ProcOk, FileNamesOk, LocksOk, NamesFit;
    var t := Set(s, p, r);
    forall q | q in t.procs ensures ProcOk(t, q, t.procs[q]) {
      if q != p {
        ProcIsOk(s, q);
      }
      SetKeepsProcOk(s, p, r, q, t.procs[q]);
    }
    forall i | i in t.files ensures FileNamesOk(t, i) {
      SetKeepsNames(s, p, r, i);
    }
  }

  lemma SetKeepsNames(s: State, p: ProcId, r: Proc, i: Inode)
    requires Inv(s) && p in s.procs && i in s.files && r.child == s.procs[p].child && NamesFit(s, p, r)
    ensures FileNamesOk(Set(s, p, r), i)
  {
    FileIsOk(s, i);
    hide Inv;
  }

  /** A process that keeps its descriptor may drop its lock; one that closes it may do so too. */
  lemma LocksFitLess(s: State, p: ProcId, r: Proc)
    requires Inv(s) && p in s.procs
    requires r.fd.None? || (r.fd == s.procs[p].fd && (r.lock == s.procs[p].lock || r.lock.Unlocked?))
    ensures LocksFit(s, p, r)
  {
    forall q | q in s.procs && q != p ensures LocksOk(r, s.procs[q]) && LocksOk(s.procs[q], r) {
      assert LocksOk(s.procs[p], s.procs[q]) && LocksOk(s.procs[q], s.procs[p]);
    }
  }

  lemma LocksFitMore(s: State, p: ProcId, r: Proc)
    requires Inv(s) && p in s.procs && r.fd == s.procs[p].fd
    requires LockFree(s, p, r.lock) && !r.lock.Unlocked?
    ensures LocksFit(s, p, r)
  {
  }

  lemma NamesFitAny(s: State, p: ProcId, r: Proc)
    requires Inv(s) && p in s.procs
    requires Abnormal(s.procs[p].pc) ==> Abnormal(r.pc)
    requires Owning(s.procs[p].pc) ==> Abnormal(r.pc) || (Owning(r.pc) && r.fd == s.procs[p].fd)
    ensures NamesFit(s, p, r)
  {
    forall i | i in s.files && s.files[i].text.Names? && s.files[i].creator == p
      ensures Abnormal(r.pc) || (Owning(r.pc) && r.fd == Some(i))
    {
      assert FileNamesOk(s, i);
    }
  }

  lemma LocksFitOpen(s: State, p: ProcId, r: Proc)
    requires Inv(s) && p in s.procs && r.lock.Unlocked?
    ensures LocksFit(s, p, r)
  {
  }

  predicate LocalPc(s: State, pc: Pc) {
    !pc.UnlinkOld? && !(pc.CreateNew? && s.path.None?) && !pc.WriteNew? && !pc.Truncate? && !pc.UnlinkOwned? &&
    !pc.Reap? && !pc.Bailing?
  }

  lemma LocalShares(s: State, p: ProcId, inode: Inode)
    requires p in s.procs && WellFormed(s, s.procs[p]) && LocalPc(s, s.procs[p].pc)
    ensures NextShared(s, p, inode) == s
  {
  }

  /** The next system call of p when it only changes the record of p. */
  lemma LocalRun(s: State, p: ProcId, inode: Inode)
    requires Inv(s) && Enabled(s, Run(p, inode)) && LocalPc(s, s.procs[p].pc)
    ensures Inv(Exec(s, p, inode))
  {
    LocalProcOk(s, p, inode);
    LocalNamesFit(s, p, inode);
    LocalLocksFit(s, p, inode);
    LocalShares(s, p, inode);
    hide NextProc, NextShared, ProcOk, Inv, NamesFit, LocksFit, LockFree;
    LocalStep(s, p, NextProc(s, p, inode));
  }

  lemma LocalNamesFit(s: State, p: ProcId, inode: Inode)
    requires Inv(s) && Enabled(s, Run(p, inode)) && LocalPc(s, s.procs[p].pc)
    ensures NamesFit(s, p, NextProc(s, p, inode))
  {
    assert ProcOk(s, p, s.procs[p]);
    NamesFitAny(s, p, NextProc(s, p, inode));
  }

  lemma LocalLocks(s: State, p: ProcId, inode: Inode)
    requires Enabled(s, Run(p, inode)) && LocalPc(s, s.procs[p].pc) && ShapeOk(s, s.procs[p])
    ensures var r := s.procs[p];
            var t := NextProc(s, p, inode);
            && (WantsLock(r.pc) ==> t.fd == r.fd && t.lock == if r.pc.ClientLock? then Shared else Exclusive)
            && (!WantsLock(r.pc) && !t.lock.Unlocked? ==> t.fd == r.fd && t.lock == r.lock)
  {
    hide LockFree;
  }

  lemma LocalLocksFit(s: State, p: ProcId, inode: Inode)
    requires Inv(s) && Enabled(s, Run(p, inode)) && LocalPc(s, s.procs[p].pc)
    ensures LocksFit(s, p, NextProc(s, p, inode))
  {
    ProcIsOk(s, p);
    LocalLocks(s, p, inode);
    hide Inv, NextProc, LocalPc, ShapeOk, FileOk, EffortOk, LocksFit, LockFree;
    var t := NextProc(s, p, inode);
    if WantsLock(s.procs[p].pc) {
      LocksFitMore(s, p, t);
    } else if t.lock.Unlocked? {
      LocksFitOpen(s, p, t);
    } else {
      LocksFitLess(s, p, t);
    }
  }

  predicate Generating(pc: Pc) {
    pc.OpenOld? || pc.LockOld? || pc.ReadOld? || pc.CheckOld? || pc.StatOld? || pc.UnlinkOld? || pc.UnlockOld? ||
    pc.CloseOld? || pc.CreateNew?
  }

  lemma LocalProcOk(s: State, p: ProcId, inode: Inode)
    requires Inv(s) && Enabled(s, Run(p, inode)) && LocalPc(s, s.procs[p].pc)
    ensures ProcOk(s, p, NextProc(s, p, inode))
  {
    var r := s.procs[p];
    assert ProcOk(s, p, r);
    if r.fd.Some? {
      assert FileNamesOk(s, r.fd.value);
    }
    if Generating(r.pc) {
      GenerateProcOk(s, p, inode);
    } else if Calling(r.pc) {
      CreateProcOk(s, p, inode);
    } else {
      OtherProcOk(s, p, inode);
    }
  }

  /** What the three lemmas below need from the invariant. */
  predicate ReadyToRun(s: State, p: ProcId) {
    && p in s.procs && ProcOk(s, p, s.procs[p])
    && (s.path.Some? ==> s.path.value in s.files)
    && (s.procs[p].fd.Some? ==> FileNamesOk(s, s.procs[p].fd.value))
    && LocalPc(s, s.procs[p].pc) && !Terminal(s.procs[p].pc)
  }

  lemma GenerateProcOk(s: State, p: ProcId, inode: Inode)
    requires ReadyToRun(s, p) && Generating(s.procs[p].pc)
    ensures ProcOk(s, p, NextProc(s, p, inode))
  {
    hide EffortOk, FileOk;
    GenerateFileOk(s, p, inode);
    GenerateEffortOk(s, p, inode);
  }

  lemma GenerateFileOk(s: State, p: ProcId, inode: Inode)
    requires ReadyToRun(s, p) && Generating(s.procs[p].pc) && ShapeOk(s, NextProc(s, p, inode))
    ensures FileOk(s, p, NextProc(s, p, inode))
  {
    hide EffortOk;
  }

  lemma GenerateEffortOk(s: State, p: ProcId, inode: Inode)
    requires ReadyToRun(s, p) && Generating(s.procs[p].pc)
    ensures EffortOk(s, NextProc(s, p, inode))
  {
    hide FileOk;
  }

  lemma CreateProcOk(s: State, p: ProcId, inode: Inode)
    requires ReadyToRun(s, p) && Calling(s.procs[p].pc) && !Generating(s.procs[p].pc)
    ensures ProcOk(s, p, NextProc(s, p, inode))
  {
  }

  lemma OtherShapeOk(s: State, p: ProcId, inode: Inode)
    requires ReadyToRun(s, p) && !Calling(s.procs[p].pc)
    ensures ShapeOk(s, NextProc(s, p, inode))
  {
    hide EffortOk;
  }

  lemma OtherCallsNot(s: State, p: ProcId, inode: Inode)
    requires p in s.procs && WellFormed(s, s.procs[p]) && !Calling(s.procs[p].pc)
    ensures !Calling(NextProc(s, p, inode).pc)
  {
    hide NamesLive;
  }

  lemma OtherFileOk(s: State, p: ProcId, inode: Inode)
    requires ReadyToRun(s, p) && !Calling(s.procs[p].pc) && ShapeOk(s, NextProc(s, p, inode))
    ensures FileOk(s, p, NextProc(s, p, inode))
  {
    hide EffortOk;
  }

  lemma OtherProcOk(s: State, p: ProcId, inode: Inode)
    requires ReadyToRun(s, p) && !Calling(s.procs[p].pc)
    ensures ProcOk(s, p, NextProc(s, p, inode))
  {
    OtherCallsNot(s, p, inode);
    OtherShapeOk(s, p, inode);
    OtherFileOk(s, p, inode);
    hide NextProc, ShapeOk, FileOk, EffortOk, Calling, ReadyToRun;
  }

  // ------------------------------------------------------------------------------------------
  // The path changes

  lemma UnlinkKeepsProcOk(s: State, q: ProcId)
    requires q in s.procs && ProcOk(s, q, s.procs[q]) && s.path.Some?
    requires s.procs[q].fd == s.path ==> s.procs[q].lock.Unlocked?
    ensures ProcOk(Unlink(s), q, s.procs[q])
  {
    hide KeepsChild;
  }

  lemma UnlinkKeepsNames(s: State, p: ProcId, r: Proc, i: Inode)
    requires Inv(s) && p in s.procs && s.path.Some? && s.path.value in s.files && i in s.files
    requires r.child == s.procs[p].child && NamesFit(s, p, r)
    requires !NamesLive(s, s.files[s.path.value].text)
    ensures FileNamesOk(Set(Unlink(s), p, r), i)
  {
    FileIsOk(s, i);
    hide Inv;
  }

  /** An unlink by p, which holds the named file locked, when the file names no live process. */
  lemma UnlinkStep(s: State, p: ProcId, r: Proc)
    requires Inv(s) && p in s.procs && s.path.Some?
    requires s.procs[p].fd == s.path && s.procs[p].lock.Exclusive?
    requires r.fd == s.procs[p].fd && r.lock == s.procs[p].lock && r.child == s.procs[p].child
    requires !Owning(s.procs[p].pc) && !Abnormal(s.procs[p].pc)
    requires !NamesLive(s, s.files[s.path.value].text)
    requires ProcOk(Unlink(s), p, r)
    ensures Inv(Set(Unlink(s), p, r))
  {
    hide ProcOk, FileNamesOk, LocksOk, NamesFit, NamesLive, Owning, Abnormal;
    var t := Set(Unlink(s), p, r);
    LocksFitLess(s, p, r);
    NamesFitAny(s, p, r);
    forall q | q in t.procs ensures ProcOk(t, q, t.procs[q]) {
      if q != p {
        ProcIsOk(s, q);
        LockIsAlone(s, p, q);
        UnlinkKeepsProcOk(s, q);
      }
      SetKeepsProcOk(Unlink(s), p, r, q, t.procs[q]);
    }
    forall i | i in t.files ensures FileNamesOk(t, i) {
      UnlinkKeepsNames(s, p, r, i);
    }
  }

  /** A successful O_EXCL creation of a file that did not exist. */
  function Created(s: State, p: ProcId, inode: Inode): State {
    s.(path := Some(inode), files := s.files[inode := File(p, Blank)], changes := s.changes + 1)
  }

  lemma CreateShares(s: State, p: ProcId, inode: Inode)
    requires p in s.procs && WellFormed(s, s.procs[p]) && s.procs[p].pc.CreateNew? && s.path.None?
    ensures Exec(s, p, inode) == Set(Created(s, p, inode), p, NextProc(s, p, inode))
    ensures var r := NextProc(s, p, inode);
            r == s.procs[p].(pc := LockNew, fd := Some(inode), effort := r.effort)
  {
  }

  lemma CreateKeepsProcOk(s: State, p: ProcId, q: ProcId, inode: Inode, x: Proc)
    requires ProcOk(s, q, x) && inode !in s.files && s.path.None?
    ensures ProcOk(Created(s, p, inode), q, x)
  {
    CreateKeepsFileOk(s, p, q, inode, x);
    CreateKeepsEffortOk(s, p, inode, x);
    hide FileOk, EffortOk, KeepsChild;
  }

  lemma CreateKeepsFileOk(s: State, p: ProcId, q: ProcId, inode: Inode, x: Proc)
    requires ShapeOk(s, x) && FileOk(s, q, x) && inode !in s.files && s.path.None?
    ensures ShapeOk(Created(s, p, inode), x) && FileOk(Created(s, p, inode), q, x)
  {
    CreateKeepsShape(s, p, inode, x);
    hide ShapeOk, KeepsChild, NamesLive, HoldsOwnFile, HoldsExclusive, HoldsShared;
    assert x.fd.Some? ==> x.fd.value in s.files && Created(s, p, inode).files[x.fd.value] == s.files[x.fd.value] by {
      ShapeMeans(s, x);
    }
    LiveNamesStay(s, p, inode);
    HoldersHaveFiles(s, x);
  }

  lemma ShapeMeans(s: State, x: Proc)
    requires ShapeOk(s, x)
    ensures x.fd.Some? ==> x.fd.value in s.files
  {
  }

  lemma HoldersHaveFiles(s: State, x: Proc)
    requires ShapeOk(s, x)
    ensures HoldsPath(x.pc) ==> x.fd.Some?
  {
  }

  lemma LiveNamesStay(s: State, p: ProcId, inode: Inode)
    ensures forall text :: NamesLive(Created(s, p, inode), text) <==> NamesLive(s, text)
  {
  }

  lemma CreateKeepsShape(s: State, p: ProcId, inode: Inode, x: Proc)
    requires ShapeOk(s, x) && inode !in s.files
    ensures ShapeOk(Created(s, p, inode), x)
  {
    hide KeepsChild, HoldsExclusive, HoldsShared, NoFile;
  }

  lemma CreateKeepsEffortOk(s: State, p: ProcId, inode: Inode, x: Proc)
    requires ShapeOk(s, x) && inode !in s.files && s.path.None?
    requires Calling(x.pc) ==> EffortOk(s, x)
    ensures Calling(x.pc) ==> EffortOk(Created(s, p, inode), x)
  {
    hide KeepsChild, HoldsExclusive, HoldsShared;
  }

  lemma CreatorProcOk(s: State, p: ProcId, inode: Inode)
    requires p in s.procs && ProcOk(s, p, s.procs[p]) && s.procs[p].pc.CreateNew? && s.path.None?
    ensures ProcOk(Created(s, p, inode), p, NextProc(s, p, inode))
  {
  }

  lemma CreateKeepsNames(s: State, p: ProcId, r: Proc, inode: Inode, i: Inode)
    requires Inv(s) && p in s.procs && s.path.None? && inode !in s.files && s.procs[p].pc.CreateNew?
    requires r.child == s.procs[p].child && NamesFit(s, p, r)
    requires i in Created(s, p, inode).files
    ensures FileNamesOk(Set(Created(s, p, inode), p, r), i)
  {
    if i != inode {
      FileIsOk(s, i);
    }
    hide Inv;
  }

  lemma CreateStep(s: State, p: ProcId, inode: Inode)
    requires Inv(s) && Enabled(s, Run(p, inode)) && s.procs[p].pc.CreateNew? && s.path.None?
    ensures Inv(Exec(s, p, inode))
  {
    hide NextProc, Exec, ProcOk, FileNamesOk, LocksOk, NamesFit, LockFree;
    CreateShares(s, p, inode);
    var r := NextProc(s, p, inode);
    var t := Set(Created(s, p, inode), p, r);
    ProcIsOk(s, p);
    NamesFitAny(s, p, r);
    forall q | q in t.procs ensures ProcOk(t, q, t.procs[q]) {
      if q == p {
        CreatorProcOk(s, p, inode);
      } else {
        ProcIsOk(s, q);
        CreateKeepsProcOk(s, p, q, inode, s.procs[q]);
      }
      SetKeepsProcOk(Created(s, p, inode), p, r, q, t.procs[q]);
    }
    forall i | i in t.files ensures FileNamesOk(t, i) {
      CreateKeepsNames(s, p, r, inode, i);
    }
    forall q | q in t.procs && q != p ensures LocksOk(r, t.procs[q]) && LocksOk(t.procs[q], r) {
      ProcIsOk(s, q);
      NewFileIsFree(s, q, inode, r);
    }
  }

  lemma NewFileIsFree(s: State, q: ProcId, inode: Inode, r: Proc)
    requires q in s.procs && ProcOk(s, q, s.procs[q]) && inode !in s.files && r.fd == Some(inode)
    ensures LocksOk(r, s.procs[q]) && LocksOk(s.procs[q], r)
  {
  }

  // ------------------------------------------------------------------------------------------
  // A text changes

  lemma UnlockedKeepsProcOk(s: State, q: ProcId, i: Inode, text: Text, p: ProcId)
    requires q in s.procs && i in s.files && ProcOk(s, q, s.procs[q]) && s.files[i].creator == p != q
    requires s.procs[q].fd == Some(i) ==> s.procs[q].lock.Unlocked?
    ensures ProcOk(WriteText(s, i, text), q, s.procs[q])
  {
  }

  lemma TextKeepsNames(s: State, p: ProcId, text: Text, r: Proc, i: Inode, j: Inode)
    requires Inv(s) && p in s.procs && s.procs[p].fd == r.fd == Some(i) && i in s.files && j in s.files
    requires HoldsOwnFile(s.procs[p].pc) && !Abnormal(s.procs[p].pc)
    requires r.child == s.procs[p].child && s.files[i].creator == p
    requires text.Names? ==> Owning(r.pc) && r.child == Some(text.who) && s.path == r.fd
    ensures FileNamesOk(Set(WriteText(s, i, text), p, r), j)
  {
    FileIsOk(s, j);
    hide Inv;
  }

  lemma OwnFile(s: State, p: ProcId)
    requires p in s.procs && ProcOk(s, p, s.procs[p]) && HoldsOwnFile(s.procs[p].pc) && s.procs[p].fd.Some?
    ensures s.procs[p].fd.value in s.files && s.files[s.procs[p].fd.value].creator == p
  {
    hide EffortOk;
  }

  /** A change of the text of the file that p created and holds locked. */
  lemma TextStep(s: State, p: ProcId, text: Text, r: Proc)
    requires Inv(s) && p in s.procs && s.procs[p].fd.Some? && s.procs[p].fd.value in s.files
    requires HoldsOwnFile(s.procs[p].pc) && s.procs[p].lock.Exclusive? && !Abnormal(s.procs[p].pc)
    requires r.fd == s.procs[p].fd && r.lock == s.procs[p].lock && r.child == s.procs[p].child
    requires ProcOk(s, p, s.procs[p]) && ProcOk(WriteText(s, r.fd.value, text), p, r)
    requires text.Names? ==> Owning(r.pc) && r.child == Some(text.who) && s.path == r.fd
    ensures Inv(Set(WriteText(s, r.fd.value, text), p, r))
  {
    hide ProcOk, FileNamesOk, LocksOk, HoldsOwnFile, Abnormal, Owning;
    var i := r.fd.value;
    var t := Set(WriteText(s, i, text), p, r);
    OwnFile(s, p);
    LocksFitLess(s, p, r);
    forall q | q in t.procs ensures ProcOk(t, q, t.procs[q]) {
      if q != p {
        ProcIsOk(s, q);
        LockIsAlone(s, p, q);
        UnlockedKeepsProcOk(s, q, i, text, p);
      }
      SetKeepsProcOk(WriteText(s, i, text), p, r, q, t.procs[q]);
    }
    forall j | j in t.files ensures FileNamesOk(t, j) {
      TextKeepsNames(s, p, text, r, i, j);
    }
  }

  // ------------------------------------------------------------------------------------------
  // The process table changes

  function Reaped(s: State, who: Ident): State {
    s.(live := s.live - {who})
  }

  lemma ReapKeepsProcOk(s: State, q: ProcId, who: Ident)
    requires q in s.procs && ProcOk(s, q, s.procs[q]) && s.procs[q].child != Some(who)
    ensures ProcOk(Reaped(s, who), q, s.procs[q])
  {
    hide Calling;
  }

  lemma ReapKeepsNames(s: State, p: ProcId, r: Proc, who: Ident, i: Inode)
    requires Inv(s) && p in s.procs && r.child == s.procs[p].child == Some(who) && NamesFit(s, p, r) && i in s.files
    ensures FileNamesOk(Set(Reaped(s, who), p, r), i)
  {
    FileIsOk(s, i);
    hide Inv;
  }

  lemma ReapStep(s: State, p: ProcId, r: Proc)
    requires Inv(s) && p in s.procs && r.child == s.procs[p].child && r.child.Some?
    requires Abnormal(s.procs[p].pc) ==> Abnormal(r.pc)
    requires !Owning(s.procs[p].pc)
    requires r.fd.None? && ProcOk(Reaped(s, r.child.value), p, r)
    ensures Inv(Set(Reaped(s, r.child.value), p, r))
  {
    hide ProcOk, FileNamesOk, NamesFit, Abnormal, Owning;
    var who := r.child.value;
    var t := Set(Reaped(s, who), p, r);
    NamesFitAny(s, p, r);
    forall q | q in t.procs ensures ProcOk(t, q, t.procs[q]) {
      if q != p {
        ProcIsOk(s, q);
        ReapKeepsProcOk(s, q, who);
      }
      SetKeepsProcOk(Reaped(s, who), p, r, q, t.procs[q]);
    }
    forall i | i in t.files ensures FileNamesOk(t, i) {
      ReapKeepsNames(s, p, r, who, i);
    }
  }

  function Newcomer(s: State, child: Option<Ident>): Proc {
    Proc(if child.Some? then OpenOld else ClientOpen, None, Unlocked, child, Blank, Effort(0, 0, s.changes, 0))
  }

  function Spawned(s: State, p: ProcId, child: Option<Ident>): State {
    var idents := if child.Some? then {child.value} else {};
    Set(s, p, Newcomer(s, child)).(live := s.live + idents, born := s.born + idents)
  }

  lemma SpawnStep(s: State, p: ProcId, child: Option<Ident>)
    requires Inv(s) && p !in s.procs
    requires child.Some? ==> child.value !in s.born
    ensures Inv(Spawned(s, p, child))
  {
    var t := Spawned(s, p, child);
    forall i | i in t.files ensures FileNamesOk(t, i) {
      SpawnKeepsNames(s, p, child, i);
    }
    forall q | q in t.procs ensures ProcOk(t, q, t.procs[q]) {
      SpawnKeepsProcOk(s, p, child, q);
    }
    forall q | q in s.procs && s.procs[q].child.Some? ensures s.procs[q].child != child {
      assert ShapeOk(s, s.procs[q]);
    }
  }

  lemma SpawnKeepsNames(s: State, p: ProcId, child: Option<Ident>, i: Inode)
    requires Inv(s) && p !in s.procs && i in s.files
    requires child.Some? ==> child.value !in s.born
    ensures FileNamesOk(Spawned(s, p, child), i)
  {
    assert FileNamesOk(s, i);
    if s.files[i].text.Names? {
      assert ShapeOk(s, s.procs[s.files[i].creator]);
    }
  }

  lemma SpawnKeepsProcOk(s: State, p: ProcId, child: Option<Ident>, q: ProcId)
    requires Inv(s) && p !in s.procs && q in Spawned(s, p, child).procs
    requires child.Some? ==> child.value !in s.born
    ensures ProcOk(Spawned(s, p, child), q, Spawned(s, p, child).procs[q])
  {
    if q != p {
      assert ProcOk(s, q, s.procs[q]);
      if s.procs[q].fd.Some? {
        assert FileNamesOk(s, s.procs[q].fd.value);
        SpawnKeepsNames(s, p, child, s.procs[q].fd.value);
      }
    }
  }

  // ------------------------------------------------------------------------------------------
  // All actions

  lemma RunKeepsInv(s: State, p: ProcId, inode: Inode)
    requires Inv(s) && Enabled(s, Run(p, inode))
    ensures Inv(Exec(s, p, inode))
  {
    var pc := s.procs[p].pc;
    if LocalPc(s, pc) {
      LocalRun(s, p, inode);
    } else if pc.CreateNew? {
      CreateStep(s, p, inode);
    } else if pc.UnlinkOld? || pc.UnlinkOwned? {
      RunUnlink(s, p, inode);
    } else if pc.WriteNew? || pc.Truncate? {
      RunText(s, p, inode);
    } else {
      RunReap(s, p, inode);
    }
  }

  lemma UnlinkRuns(s: State, p: ProcId, inode: Inode)
    requires p in s.procs && ProcOk(s, p, s.procs[p]) && (s.path.Some? ==> s.path.value in s.files)
    requires s.procs[p].pc.UnlinkOld? || s.procs[p].pc.UnlinkOwned?
    ensures var r := s.procs[p];
            var t := NextProc(s, p, inode);
            && s.path.Some? && r.fd == s.path && r.lock.Exclusive? && !Owning(r.pc) && !Abnormal(r.pc)
            && t == r.(pc := t.pc, effort := t.effort)
            && !NamesLive(s, s.files[s.path.value].text)
            && ProcOk(Unlink(s), p, t)
            && Exec(s, p, inode) == Set(Unlink(s), p, t)
  {
  }

  lemma RunUnlink(s: State, p: ProcId, inode: Inode)
    requires Inv(s) && Enabled(s, Run(p, inode)) && (s.procs[p].pc.UnlinkOld? || s.procs[p].pc.UnlinkOwned?)
    ensures Inv(Exec(s, p, inode))
  {
    ProcIsOk(s, p);
    UnlinkRuns(s, p, inode);
    hide NextProc, Exec, ProcOk, FileNamesOk, LocksOk, LockFree;
    UnlinkStep(s, p, NextProc(s, p, inode));
  }

  lemma TextRuns(s: State, p: ProcId, inode: Inode)
    requires p in s.procs && ProcOk(s, p, s.procs[p]) && (s.procs[p].pc.WriteNew? || s.procs[p].pc.Truncate?)
    ensures var r := s.procs[p];
            var t := NextProc(s, p, inode);
            && r.fd.Some? && r.fd.value in s.files && r.child.Some? && r.lock.Exclusive?
            && HoldsOwnFile(r.pc) && !Abnormal(r.pc) && s.path == r.fd
            && t == r.(pc := t.pc)
            && (r.pc.WriteNew? ==> Owning(t.pc))
            && var text := if r.pc.WriteNew? then Names(r.child.value) else Blank;
            && ProcOk(WriteText(s, r.fd.value, text), p, t)
            && Exec(s, p, inode) == Set(WriteText(s, r.fd.value, text), p, t)
  {
  }

  lemma RunText(s: State, p: ProcId, inode: Inode)
    requires Inv(s) && Enabled(s, Run(p, inode)) && (s.procs[p].pc.WriteNew? || s.procs[p].pc.Truncate?)
    ensures Inv(Exec(s, p, inode))
  {
    ProcIsOk(s, p);
    TextRuns(s, p, inode);
    hide NextProc, Exec, ProcOk, FileNamesOk, LocksOk, LockFree;
    TextStep(s, p, if s.procs[p].pc.WriteNew? then Names(s.procs[p].child.value) else Blank, NextProc(s, p, inode));
  }

  lemma ReapRuns(s: State, p: ProcId, inode: Inode)
    requires p in s.procs && ProcOk(s, p, s.procs[p]) && (s.procs[p].pc.Reap? || s.procs[p].pc.Bailing?)
    ensures var r := s.procs[p];
            var t := NextProc(s, p, inode);
            && r.child.Some? && t == r.(pc := t.pc) && t.fd.None? && !Owning(r.pc)
            && (Abnormal(r.pc) ==> Abnormal(t.pc))
            && ProcOk(Reaped(s, r.child.value), p, t)
            && Exec(s, p, inode) == Set(Reaped(s, r.child.value), p, t)
  {
  }

  lemma RunReap(s: State, p: ProcId, inode: Inode)
    requires Inv(s) && Enabled(s, Run(p, inode)) && (s.procs[p].pc.Reap? || s.procs[p].pc.Bailing?)
    ensures Inv(Exec(s, p, inode))
  {
    ProcIsOk(s, p);
    ReapRuns(s, p, inode);
    hide NextProc, Exec, ProcOk, FileNamesOk, LocksOk, LockFree;
    ReapStep(s, p, NextProc(s, p, inode));
  }

  lemma FailedWriteRuns(s: State, p: ProcId, torn: bool)
    requires p in s.procs && ProcOk(s, p, s.procs[p]) && s.procs[p].pc.WriteNew?
    ensures var r := s.procs[p];
            && r.fd.Some? && r.fd.value in s.files && r.lock.Exclusive? && HoldsOwnFile(r.pc) && !Abnormal(r.pc)
            && ProcOk(WriteText(s, r.fd.value, if torn then Torn else Blank), p, r.(pc := Truncate))
  {
  }

  lemma WriteFailsKeepsInv(s: State, p: ProcId, torn: bool)
    requires Inv(s) && Enabled(s, WriteFails(p, torn))
    ensures Inv(Apply(s, WriteFails(p, torn)))
  {
    ProcIsOk(s, p);
    FailedWriteRuns(s, p, torn);
    hide ProcOk, FileNamesOk, LocksOk;
    TextStep(s, p, if torn then Torn else Blank, s.procs[p].(pc := Truncate));
  }

  lemma LeaverOk(s: State, p: ProcId, r: Proc)
    requires p in s.procs && ProcOk(s, p, s.procs[p])
    requires r == s.procs[p].(pc := r.pc, fd := None, lock := Unlocked)
    requires r.pc.Crashed? || (r.pc.Bailing? && s.procs[p].pc.Running?)
    ensures ProcOk(s, p, r)
  {
    hide FileNamesOk, Calling, EffortOk;
    assert !Calling(r.pc) by { LeaverCallsNot(r); }
  }

  lemma LeaverCallsNot(r: Proc)
    requires r.pc.Crashed? || r.pc.Bailing?
    ensures !Calling(r.pc) && Abnormal(r.pc)
  {
  }

  lemma LeaveStep(s: State, p: ProcId, r: Proc)
    requires Inv(s) && p in s.procs
    requires r == s.procs[p].(pc := r.pc, fd := None, lock := Unlocked)
    requires r.pc.Crashed? || (r.pc.Bailing? && s.procs[p].pc.Running?)
    ensures Inv(Set(s, p, r))
  {
    ProcIsOk(s, p);
    LeaverOk(s, p, r);
    LeaverCallsNot(r);
    hide Inv, ProcOk, NamesFit, LocksFit, Abnormal, Owning;
    NamesFitAny(s, p, r);
    LocksFitLess(s, p, r);
    LocalStep(s, p, r);
  }

  lemma RunnerIsUnlocked(s: State, p: ProcId)
    requires p in s.procs && ShapeOk(s, s.procs[p]) && s.procs[p].pc.Running?
    ensures s.procs[p].lock.Unlocked?
  {
  }

  lemma BailKeepsInv(s: State, p: ProcId)
    requires Inv(s) && Enabled(s, Bail(p))
    ensures Inv(Apply(s, Bail(p)))
  {
    ProcIsOk(s, p);
    RunnerIsUnlocked(s, p);
    hide ProcOk, FileNamesOk, LocksOk;
    LeaveStep(s, p, s.procs[p].(pc := Bailing, fd := None, lock := Unlocked));
  }

  lemma OrphanReapedKeepsInv(s: State, p: ProcId)
    requires Inv(s) && Enabled(s, OrphanReaped(p))
    ensures Inv(Apply(s, OrphanReaped(p)))
  {
    ProcIsOk(s, p);
    OrphanStaysOk(s, p);
    hide ProcOk, FileNamesOk, LocksOk;
    ReapStep(s, p, s.procs[p]);
    assert Set(Reaped(s, s.procs[p].child.value), p, s.procs[p]) == Reaped(s, s.procs[p].child.value);
  }

  lemma OrphanStaysOk(s: State, p: ProcId)
    requires p in s.procs && ProcOk(s, p, s.procs[p]) && s.procs[p].child.Some?
    requires s.procs[p].pc.Crashed? || s.procs[p].pc.Aborted?
    ensures ProcOk(Reaped(s, s.procs[p].child.value), p, s.procs[p])
  {
    hide EffortOk;
  }

  /** Every action of every process keeps the invariant. */
  lemma ApplyKeepsInv(s: State, a: Action)
    requires Inv(s) && Enabled(s, a)
    ensures Inv(Apply(s, a))
  {
    match a
    case SpawnSentry(p, child) => SpawnStep(s, p, Some(child));
    case SpawnClient(p) =>
      SpawnStep(s, p, None);
      assert Spawned(s, p, None) == Apply(s, a);
    case Run(p, inode) => RunKeepsInv(s, p, inode);
    case WriteFails(p, torn) => WriteFailsKeepsInv(s, p, torn);
    case Bail(p) => BailKeepsInv(s, p);
    case Crash(p) => LeaveStep(s, p, s.procs[p].(pc := Crashed, fd := None, lock := Unlocked));
    case OrphanReaped(p) => OrphanReapedKeepsInv(s, p);
  }

  // ------------------------------------------------------------------------------------------
  // What a lock keeps

  /** The content of the file is the same in both states, and so is whether the path names it. */
  predicate KeepsFile(s: State, t: State, i: Inode) {
    i in s.files && i in t.files && t.files[i] == s.files[i] && (t.path == Some(i) <==> s.path == Some(i))
  }

  lemma LockIsAlone(s: State, p: ProcId, q: ProcId)
    requires Inv(s) && p in s.procs && q in s.procs && p != q && s.procs[p].lock.Exclusive? && s.procs[p].fd.Some?
    ensures s.procs[q].fd == s.procs[p].fd ==> s.procs[q].lock.Unlocked?
  {
    assert LocksOk(s.procs[p], s.procs[q]);
  }

  /** A system call of q leaves a file alone that q does not hold exclusively. */
  lemma ExecKeepsFile(s: State, q: ProcId, inode: Inode, i: Inode)
    requires q in s.procs && ProcOk(s, q, s.procs[q]) && inode !in s.files && i in s.files
    requires s.procs[q].fd == Some(i) ==> s.procs[q].lock.Unlocked?
    ensures KeepsFile(s, Exec(s, q, inode), i)
  {
    hide NextProc, EffortOk;
  }

  /** While p holds a file exclusively locked, no action of another process changes it, unlinks it or puts
      it under the path. */
  lemma LockedFileIsKept(s: State, a: Action, p: ProcId)
    requires Inv(s) && Enabled(s, a) && a.p != p && p in s.procs
    requires s.procs[p].lock.Exclusive? && s.procs[p].fd.Some? && s.procs[p].fd.value in s.files
    ensures KeepsFile(s, Apply(s, a), s.procs[p].fd.value)
  {
    hide ProcOk, LocksOk, FileNamesOk, Exec, LockFree;
    if a.Run? {
      ProcIsOk(s, a.p);
      LockIsAlone(s, p, a.p);
      ExecKeepsFile(s, a.p, a.inode, s.procs[p].fd.value);
    } else if a.WriteFails? {
      LockIsAlone(s, p, a.p);
      WriterIsLocked(s, a.p);
    }
  }

  lemma WriterIsLocked(s: State, q: ProcId)
    requires Inv(s) && q in s.procs && s.procs[q].pc.WriteNew?
    ensures s.procs[q].lock.Exclusive?
  {
    ProcIsOk(s, q);
    hide Inv, FileOk, EffortOk;
  }

  /** A sentry that finds a live process named in the file it holds locked: the path names this file, another
      sentry created it, and the process is the child of that sentry. */
  predicate NamedByAnother(s: State, p: ProcId, i: Inode, who: Ident) {
    && s.path == Some(i) && i in s.files && s.files[i].text == Names(who)
    && s.files[i].creator != p && s.files[i].creator in s.procs
    && s.procs[s.files[i].creator].child == Some(who)
    && (who in s.live || Abnormal(s.procs[s.files[i].creator].pc))
  }

  lemma NamedFileIsAnothers(s: State, p: ProcId, i: Inode)
    requires Inv(s) && p in s.procs && i in s.files && s.files[i].text.Names? && s.path == Some(i)
    requires !Abnormal(s.procs[p].pc) && !Owning(s.procs[p].pc)
    ensures NamedByAnother(s, p, i, s.files[i].text.who)
  {
    assert FileNamesOk(s, i);
    ProcIsOk(s, s.files[i].creator);
  }

  lemma LiveNameIsUnderPath(s: State, i: Inode)
    requires Inv(s) && i in s.files && NamesLive(s, s.files[i].text)
    ensures s.path == Some(i)
  {
    assert FileNamesOk(s, i);
  }
}
