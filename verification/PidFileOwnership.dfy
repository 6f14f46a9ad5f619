/** What the pid file protocol guarantees in every run: every interleaving of any number of sentries
    and clients on one path, with crashes and failing writes at any point. */
module PidFileOwnership {
  import opened Common
  import opened PidFileProtocol
  import opened PidFileInvariant

  ghost predicate IsRun(run: seq<State>, acts: seq<Action>) {
    && |run| == |acts| + 1
    && run[0] == Init()
    && forall k :: 0 <= k < |acts| ==> Enabled(run[k], acts[k]) && run[k + 1] == Apply(run[k], acts[k])
  }

  lemma {:induction false} RunKeepsInvariant(run: seq<State>, acts: seq<Action>, n: nat)
    requires IsRun(run, acts) && n <= |acts|
    ensures Inv(run[n])
  {
    hide Apply, Enabled;
    if n == 0 {
    } else {
      RunKeepsInvariant(run, acts, n - 1);
      ApplyKeepsInv(run[n - 1], acts[n - 1]);
    }
  }

  // ------------------------------------------------------------------------------------------
  // Ownership

  /** The sentry has written its pid file and has not started to withdraw it. */
  predicate Owns(r: Proc) {
    r.pc.UnlockNew? || r.pc.Running? || r.pc.LockOwned?
  }

  /** Two sentries never own the path at the same time, and the path names the file of the owner,
      with its full content, while its child is still in the process table. */
  lemma OwnerIsUnique(run: seq<State>, acts: seq<Action>, n: nat, p: ProcId)
    requires IsRun(run, acts) && n <= |acts|
    requires p in run[n].procs && Owns(run[n].procs[p])
    ensures var s := run[n];
            && s.path.Some? && s.path == s.procs[p].fd && s.path.value in s.files
            && s.procs[p].child.Some? && s.procs[p].child.value in s.live
            && s.files[s.path.value] == File(p, Names(s.procs[p].child.value))
    ensures forall q :: q in run[n].procs && Owns(run[n].procs[q]) ==> q == p
  {
    hide Apply, Enabled, Inv, ProcOk, Owns;
    RunKeepsInvariant(run, acts, n);
    OwnerIsNamed(run[n], p);
    forall q | q in run[n].procs && Owns(run[n].procs[q]) ensures q == p {
      OwnerIsNamed(run[n], q);
    }
  }

  lemma OwnerIsNamed(s: State, p: ProcId)
    requires Inv(s) && p in s.procs && Owns(s.procs[p])
    ensures s.path.Some? && s.path == s.procs[p].fd && s.path.value in s.files
    ensures s.procs[p].child.Some? && s.procs[p].child.value in s.live
    ensures s.files[s.path.value] == File(p, Names(s.procs[p].child.value))
  {
    ProcIsOk(s, p);
    FileIsOk(s, s.procs[p].fd.value);
    hide Inv, EffortOk;
  }

  /** The same when sentries have died: the children of two different pid files are never both in the
      process table. */
  lemma LiveNameIsUnique(run: seq<State>, acts: seq<Action>, n: nat, i: Inode, j: Inode)
    requires IsRun(run, acts) && n <= |acts| && i in run[n].files && j in run[n].files
    requires NamesLive(run[n], run[n].files[i].text) && NamesLive(run[n], run[n].files[j].text)
    ensures i == j && run[n].path == Some(i)
  {
    hide Apply, Enabled, ProcOk;
    RunKeepsInvariant(run, acts, n);
    assert FileNamesOk(run[n], i) && FileNamesOk(run[n], j);
  }

  /** The only action that takes the name of a live process out of a file is the truncation by the
      sentry that wrote it. */
  lemma NameStays(s: State, a: Action, i: Inode)
    requires Inv(s) && Enabled(s, a) && i in s.files && s.files[i].text.Names?
    requires a.Run? && a.p == s.files[i].creator ==> a.p in s.procs && !s.procs[a.p].pc.Truncate?
    ensures i in Apply(s, a).files && Apply(s, a).files[i] == s.files[i]
  {
    assert FileNamesOk(s, i);
    assert a.p in s.procs ==> ProcOk(s, a.p, s.procs[a.p]);
  }

  lemma {:induction false} DeadStaysDead(run: seq<State>, acts: seq<Action>, m: nat, n: nat, who: Ident)
    requires IsRun(run, acts) && m <= n <= |acts|
    requires who in run[m].born && who in run[n].live
    ensures who in run[m].live
    decreases n - m
  {
    hide Apply, Enabled, Inv;
    if m < n {
      BornGrows(run, acts, m, n - 1, who);
      NoResurrection(run[n - 1], acts[n - 1], who);
      DeadStaysDead(run, acts, m, n - 1, who);
    }
  }

  lemma NoResurrection(s: State, a: Action, who: Ident)
    requires Enabled(s, a) && who in s.born && who in Apply(s, a).live
    ensures who in s.live
  {
  }

  lemma {:induction false} BornGrows(run: seq<State>, acts: seq<Action>, m: nat, n: nat, who: Ident)
    requires IsRun(run, acts) && m <= n <= |acts| && who in run[m].born
    ensures who in run[n].born
    decreases n - m
  {
    hide Enabled, NextProc;
    if m < n {
      BornGrows(run, acts, m, n - 1, who);
    }
  }

  lemma {:induction false} NamePersists(run: seq<State>, acts: seq<Action>, m: nat, n: nat, i: Inode)
    requires IsRun(run, acts) && m <= n <= |acts|
    requires i in run[m].files && run[m].files[i].text.Names?
    requires forall k :: m <= k < n && acts[k].Run? && acts[k].p == run[m].files[i].creator ==>
               acts[k].p in run[k].procs && !run[k].procs[acts[k].p].pc.Truncate?
    ensures i in run[n].files && run[n].files[i] == run[m].files[i]
    decreases n - m
  {
    hide Apply, Enabled, Inv;
    if m < n {
      NamePersists(run, acts, m, n - 1, i);
      RunKeepsInvariant(run, acts, n - 1);
      NameStays(run[n - 1], acts[n - 1], i);
    }
  }

  /** Once a sentry has published its child in file i, the path keeps naming file i with that content
      for as long as the child is in the process table and the sentry has not truncated the file:
      whatever the other processes do, and even if the sentry itself has died. */
  lemma OwnershipPersists(run: seq<State>, acts: seq<Action>, m: nat, n: nat, i: Inode)
    requires IsRun(run, acts) && m <= n <= |acts|
    requires i in run[m].files && run[m].files[i].text.Names?
    requires run[m].files[i].text.who in run[n].live
    requires forall k :: m <= k < n && acts[k].Run? && acts[k].p == run[m].files[i].creator ==>
               acts[k].p in run[k].procs && !run[k].procs[acts[k].p].pc.Truncate?
    ensures forall k :: m <= k <= n ==>
              run[k].path == Some(i) && i in run[k].files && run[k].files[i] == run[m].files[i]
  {
    hide Apply, Enabled, FileOk, EffortOk;
    var who := run[m].files[i].text.who;
    forall k | m <= k <= n
      ensures run[k].path == Some(i) && i in run[k].files && run[k].files[i] == run[m].files[i]
    {
      NamePersists(run, acts, m, k, i);
      RunKeepsInvariant(run, acts, m);
      assert FileNamesOk(run[m], i);
      assert ShapeOk(run[m], run[m].procs[run[m].files[i].creator]);
      BornGrows(run, acts, m, k, who);
      DeadStaysDead(run, acts, k, n, who);
      RunKeepsInvariant(run, acts, k);
      assert FileNamesOk(run[k], i);
    }
  }

  // ------------------------------------------------------------------------------------------
  // Precise unlink and typestate

  lemma UnlinkStepIsPrecise(s: State, a: Action)
    requires Inv(s) && Enabled(s, a) && s.path.Some? && Apply(s, a).path != s.path
    ensures a.Run? && Apply(s, a).path.None? && a.p in s.procs
    ensures s.procs[a.p].fd == s.path && s.procs[a.p].lock.Exclusive?
    ensures forall q :: q in s.procs && q != a.p && s.procs[q].fd == s.path ==> s.procs[q].lock.Unlocked?
    ensures s.path.value in s.files && !NamesLive(s, s.files[s.path.value].text)
  {
    assert ProcOk(s, a.p, s.procs[a.p]);
    forall q | q in s.procs && q != a.p && s.procs[q].fd == s.path ensures s.procs[q].lock.Unlocked? {
      assert LocksOk(s.procs[a.p], s.procs[q]);
    }
  }

  /** In every run the path loses its file only by an unlink of a process that has that very file open
      and locked exclusively, and only when the file names no process that is still in the process
      table. */
  lemma UnlinkIsPrecise(run: seq<State>, acts: seq<Action>, k: nat)
    requires IsRun(run, acts) && k < |acts| && run[k].path.Some? && run[k + 1].path != run[k].path
    ensures acts[k].Run? && run[k + 1].path.None? && acts[k].p in run[k].procs
    ensures run[k].procs[acts[k].p].fd == run[k].path && run[k].procs[acts[k].p].lock.Exclusive?
    ensures forall q :: q in run[k].procs && q != acts[k].p && run[k].procs[q].fd == run[k].path ==>
              run[k].procs[q].lock.Unlocked?
    ensures run[k].path.value in run[k].files && !NamesLive(run[k], run[k].files[run[k].path.value].text)
  {
    hide Inv, Enabled, Apply;
    RunKeepsInvariant(run, acts, k);
    UnlinkStepIsPrecise(run[k], acts[k]);
  }

  lemma WriteStepIsOwn(s: State, a: Action, i: Inode)
    requires Inv(s) && Enabled(s, a) && i in s.files && Apply(s, a).files[i] != s.files[i]
    ensures (a.Run? || a.WriteFails?) && a.p in s.procs && s.files[i].creator == a.p
    ensures s.procs[a.p].fd == Some(i) && s.procs[a.p].lock.Exclusive?
  {
    assert a.p in s.procs ==> ProcOk(s, a.p, s.procs[a.p]);
  }

  /** In every run the text of a file changes only in the hands of the process that created the file, with
      the file locked exclusively. */
  lemma WriteIsOwn(run: seq<State>, acts: seq<Action>, k: nat, i: Inode)
    requires IsRun(run, acts) && k < |acts| && i in run[k].files
    requires i in run[k + 1].files ==> run[k + 1].files[i] != run[k].files[i]
    ensures (acts[k].Run? || acts[k].WriteFails?) && acts[k].p in run[k].procs && run[k].files[i].creator == acts[k].p
    ensures run[k].procs[acts[k].p].fd == Some(i) && run[k].procs[acts[k].p].lock.Exclusive?
  {
    hide Inv, Enabled, Apply;
    RunKeepsInvariant(run, acts, k);
    FilesStay(run[k], acts[k], i);
    WriteStepIsOwn(run[k], acts[k], i);
  }

  lemma FilesStay(s: State, a: Action, i: Inode)
    requires Enabled(s, a) && i in s.files
    ensures i in Apply(s, a).files
  {
  }

  /** The assertions in the code hold: a lock is taken only when none is held, the file is read only
      under a lock, released only when locked, truncated and unlinked only under the exclusive lock;
      and the abort for a pid file that turns out not to be there is never reached. */
  lemma AssertionsHold(run: seq<State>, acts: seq<Action>, n: nat, p: ProcId)
    requires IsRun(run, acts) && n <= |acts| && p in run[n].procs
    ensures var r := run[n].procs[p];
            && !r.pc.Aborted?
            && (WantsLock(r.pc) ==> r.fd.Some? && r.lock.Unlocked?)
            && (r.pc.ReadOld? || r.pc.ClientRead? || r.pc.UnlockOld? || r.pc.UnlockZombie? || r.pc.UnlockNew? ==>
                  r.fd.Some? && !r.lock.Unlocked?)
            && (r.pc.UnlinkOld? || r.pc.UnlinkOwned? || r.pc.Truncate? || r.pc.WriteNew? ==>
                  r.fd == run[n].path && r.fd.Some? && r.lock.Exclusive?)
            && (r.pc.OpenOld? || r.pc.CreateNew? ==> r.fd.None? && r.lock.Unlocked?)
  {
    hide Apply, Enabled, EffortOk;
    RunKeepsInvariant(run, acts, n);
    assert ProcOk(run[n], p, run[n].procs[p]);
  }

  /** While a client holds the shared lock after reading an authentic pid, the sentry of that pid is
      at most waiting for the write lock and its child is still in the process table; unless the
      sentry went off the normal path. */
  lemma ReaderIsStable(run: seq<State>, acts: seq<Action>, n: nat, c: ProcId, p: ProcId)
    requires IsRun(run, acts) && n <= |acts|
    requires c in run[n].procs && run[n].procs[c].pc.ClientHold?
    requires run[n].procs[c].fd.Some? && run[n].procs[c].fd.value in run[n].files
    requires p == run[n].files[run[n].procs[c].fd.value].creator
    ensures p in run[n].procs && run[n].procs[p].child.Some?
    ensures run[n].files[run[n].procs[c].fd.value].text == Names(run[n].procs[p].child.value)
    ensures || Abnormal(run[n].procs[p].pc)
            || ((run[n].procs[p].pc.Running? || run[n].procs[p].pc.LockOwned?) &&
                run[n].procs[p].child.value in run[n].live && run[n].path == run[n].procs[c].fd)
  {
    hide Apply, Enabled, EffortOk;
    RunKeepsInvariant(run, acts, n);
    var s := run[n];
    assert ProcOk(s, c, s.procs[c]);
    assert FileNamesOk(s, s.procs[c].fd.value);
    if !Abnormal(s.procs[p].pc) {
      assert ProcOk(s, p, s.procs[p]);
      assert LocksOk(s.procs[p], s.procs[c]);
    }
  }

  /** Process p is about to find the name taken: the path names the file it holds, which another sentry
      created and which names the child of that sentry, still in the process table. */
  predicate TakenAt(s: State, p: ProcId) {
    && p in s.procs && s.procs[p].pc.CheckOld? && s.path.Some? && s.path == s.procs[p].fd
    && s.path.value in s.files && NamesLive(s, s.files[s.path.value].text)
    && NamedByAnother(s, p, s.path.value, s.files[s.path.value].text.who)
  }

  predicate TurnedAway(s: State, p: ProcId) {
    p in s.procs && (s.procs[p].pc.CloseTaken? || s.procs[p].pc.Rejected?)
  }

  lemma CheckTurnsAway(s: State, p: ProcId)
    requires Inv(s) && p in s.procs && s.procs[p].pc.CheckOld? && NamesLive(s, s.procs[p].seen)
    ensures TakenAt(s, p)
  {
    ProcIsOk(s, p);
    LiveNameIsUnderPath(s, s.procs[p].fd.value);
    NamedFileIsAnothers(s, p, s.procs[p].fd.value);
    hide Inv, EffortOk;
  }

  lemma StepTurnsAway(s: State, a: Action, p: ProcId)
    requires Enabled(s, a) && TurnedAway(Apply(s, a), p)
    ensures TurnedAway(s, p) ||
            (a.Run? && a.p == p && p in s.procs && s.procs[p].pc.CheckOld? && NamesLive(s, s.procs[p].seen))
  {
    hide LockFree, NamesLive;
    if a.p != p && p in s.procs {
      OthersRecordStays(s, a, p);
      hide Apply;
    }
  }

  /** In every run a sentry is turned away only when, at its check, the path named the unreaped child of
      another sentry. */
  lemma {:induction false} TurnedAwayOnlyWhenTaken(run: seq<State>, acts: seq<Action>, n: nat, p: ProcId)
    requires IsRun(run, acts) && n <= |acts| && TurnedAway(run[n], p)
    ensures exists k :: 0 <= k < n && acts[k].Run? && acts[k].p == p && TakenAt(run[k], p)
  {
    hide Enabled, Apply, Inv, TakenAt;
    if n == 0 {
    } else {
      StepTurnsAway(run[n - 1], acts[n - 1], p);
      if TurnedAway(run[n - 1], p) {
        TurnedAwayOnlyWhenTaken(run, acts, n - 1, p);
      } else {
        RunKeepsInvariant(run, acts, n - 1);
        CheckTurnsAway(run[n - 1], p);
      }
    }
  }

  // ------------------------------------------------------------------------------------------
  // Progress

  lemma HolderCanRun(s: State, q: ProcId, inode: Inode)
    requires q in s.procs && ShapeOk(s, s.procs[q]) && !s.procs[q].lock.Unlocked? && inode !in s.files
    ensures Enabled(s, Run(q, inode))
  {
    hide LockFree;
  }

  lemma FreeCanRun(s: State, p: ProcId, inode: Inode)
    requires p in s.procs && ShapeOk(s, s.procs[p]) && !Terminal(s.procs[p].pc) && inode !in s.files
    requires WantsLock(s.procs[p].pc) ==> LockFree(s, p, if s.procs[p].pc.ClientLock? then Shared else Exclusive)
    ensures Enabled(s, Run(p, inode))
  {
    hide LockFree, WantsLock, Terminal, HoldsExclusive, HoldsShared, KeepsChild;
  }

  /** Whoever holds a lock is not waiting for one, so there is no deadlock: a process that has not
      finished either can take its next step or waits for a process that can take its next step. */
  lemma NoDeadlock(run: seq<State>, acts: seq<Action>, n: nat, p: ProcId, inode: Inode)
    requires IsRun(run, acts) && n <= |acts|
    requires p in run[n].procs && !Terminal(run[n].procs[p].pc) && inode !in run[n].files
    ensures || Enabled(run[n], Run(p, inode))
            || exists q :: q in run[n].procs && q != p && Enabled(run[n], Run(q, inode)) &&
                           run[n].procs[q].fd == run[n].procs[p].fd && !run[n].procs[q].lock.Unlocked?
  {
    RunKeepsInvariant(run, acts, n);
    var s := run[n];
    assert forall q :: q in s.procs ==> ProcOk(s, q, s.procs[q]);
    hide Apply, Enabled, ShapeOk, EffortOk, FileOk, WantsLock, Terminal, FileNamesOk, LocksOk, IsRun;
    var want := if s.procs[p].pc.ClientLock? then Shared else Exclusive;
    if WantsLock(s.procs[p].pc) && !LockFree(s, p, want) {
      var q :| q in s.procs && q != p && s.procs[q].fd == s.procs[p].fd && !Compatible(want, s.procs[q].lock);
      HolderCanRun(s, q, inode);
    } else {
      FreeCanRun(s, p, inode);
    }
  }

  // ------------------------------------------------------------------------------------------
  // Retries

  ghost predicate RetriesAt(run: seq<State>, acts: seq<Action>, p: ProcId, k: nat)
    requires IsRun(run, acts) && k < |acts|
  {
    acts[k].Run? && acts[k].p == p && p in run[k + 1].procs && run[k + 1].procs[p].pc.OpenOld?
  }

  /** How often p starts over in the part m..n of the run. */
  ghost function Retries(run: seq<State>, acts: seq<Action>, p: ProcId, m: nat, n: nat): nat
    requires IsRun(run, acts) && m <= n <= |acts|
    decreases n
  {
    if n == m then 0
    else Retries(run, acts, p, m, n - 1) + if RetriesAt(run, acts, p, n - 1) then 1 else 0
  }

  /** How often another process creates or unlinks the path in the part m..n of the run. */
  ghost function ChangesByOthers(run: seq<State>, acts: seq<Action>, p: ProcId, m: nat, n: nat): nat
    requires IsRun(run, acts) && m <= n <= |acts|
    decreases n
  {
    if n == m then 0
    else ChangesByOthers(run, acts, p, m, n - 1) + if acts[n - 1].p != p && run[n].path != run[n - 1].path then 1 else 0
  }

  lemma OwnStepCounts(s: State, a: Action, p: ProcId)
    requires p in s.procs && ProcOk(s, p, s.procs[p]) && Enabled(s, a) && Calling(s.procs[p].pc) && a.p == p
    ensures p in Apply(s, a).procs
    ensures var t := Apply(s, a);
            Calling(t.procs[p].pc) ==>
              && t.procs[p].effort.retries == s.procs[p].effort.retries +
                   (if a.Run? && t.procs[p].pc.OpenOld? then 1 else 0)
              && t.procs[p].effort.past + OthersNow(t, t.procs[p]) ==
                   s.procs[p].effort.past + OthersNow(s, s.procs[p])
  {
  }

  lemma OthersRecordStays(s: State, a: Action, p: ProcId)
    requires Enabled(s, a) && p in s.procs && a.p != p
    ensures p in Apply(s, a).procs && Apply(s, a).procs[p] == s.procs[p]
  {
    hide NextProc, LockFree;
  }

  lemma ChangesAreCounted(s: State, a: Action)
    requires Enabled(s, a) && (a.Run? ==> ProcOk(s, a.p, s.procs[a.p]))
    ensures Apply(s, a).changes == s.changes + if Apply(s, a).path != s.path then 1 else 0
  {
    hide NextProc, LockFree;
  }

  lemma OtherStepCounts(s: State, a: Action, p: ProcId)
    requires Inv(s) && Enabled(s, a) && p in s.procs && a.p != p
    ensures p in Apply(s, a).procs && Apply(s, a).procs[p] == s.procs[p]
    ensures Apply(s, a).changes == s.changes + if Apply(s, a).path != s.path then 1 else 0
  {
    if a.Run? {
      ProcIsOk(s, a.p);
    }
    hide Apply, Inv, ProcOk, LockFree;
    OthersRecordStays(s, a, p);
    ChangesAreCounted(s, a);
  }

  lemma NeverCallsAgain(s: State, a: Action, p: ProcId)
    requires Inv(s) && Enabled(s, a) && p in s.procs && !Calling(s.procs[p].pc)
    ensures p in Apply(s, a).procs && !Calling(Apply(s, a).procs[p].pc)
  {
    hide Inv, LockFree;
    if a.p != p {
      OthersRecordStays(s, a, p);
      hide Apply;
    } else if a.Run? {
      OtherCallsNot(s, p, a.inode);
      hide NextProc, Calling;
    }
  }

  lemma {:induction false} EffortCounts(run: seq<State>, acts: seq<Action>, p: ProcId, m: nat, n: nat)
    requires IsRun(run, acts) && m < n <= |acts| && acts[m].SpawnSentry? && acts[m].p == p
    ensures p in run[n].procs
    ensures Calling(run[n].procs[p].pc) ==>
              && run[n].procs[p].effort.retries == Retries(run, acts, p, m + 1, n)
              && run[n].procs[p].effort.past + OthersNow(run[n], run[n].procs[p]) ==
                 ChangesByOthers(run, acts, p, m + 1, n)
  {
    hide Enabled, NextProc;
    if n == m + 1 {
    } else {
      EffortCounts(run, acts, p, m, n - 1);
      RunKeepsInvariant(run, acts, n - 1);
      assert ProcOk(run[n - 1], p, run[n - 1].procs[p]);
      if acts[n - 1].p != p {
        OtherStepCounts(run[n - 1], acts[n - 1], p);
      } else if Calling(run[n - 1].procs[p].pc) {
        OwnStepCounts(run[n - 1], acts[n - 1], p);
      } else {
        NeverCallsAgain(run[n - 1], acts[n - 1], p);
      }
    }
  }

  /** Amortised termination of createPidFile: in any run the number of times a process starts over is
      at most the number of creations and unlinks of the path by other processes since its call
      began. Left alone it makes a single pass. */
  lemma {:induction false} RetriesAreAmortised(run: seq<State>, acts: seq<Action>, p: ProcId, m: nat, n: nat)
    requires IsRun(run, acts) && m < n <= |acts| && acts[m].SpawnSentry? && acts[m].p == p
    ensures Retries(run, acts, p, m + 1, n) <= ChangesByOthers(run, acts, p, m + 1, n)
  {
    hide Apply, Enabled, ShapeOk, FileOk;
    EffortCounts(run, acts, p, m, n);
    RunKeepsInvariant(run, acts, n);
    assert ProcOk(run[n], p, run[n].procs[p]);
    if !Calling(run[n].procs[p].pc) && n > m + 1 {
      RetriesAreAmortised(run, acts, p, m, n - 1);
    }
  }
}
