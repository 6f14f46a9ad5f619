/** A client from the moment it has read the pid file to the reaping of its command: the pid file protocol
    keeps the child unreaped while the client holds the shared lock, and the umbilical process keeps its
    pid reserved from the acknowledgement on.

    The two protocols run over one process table: a child that the pid file protocol has unreaped is in
    the table of the system. */
module EndToEnd {
  import opened Common
  import P = PidFileProtocol
  import O = PidFileOwnership
  import R = Reservation
  import opened UmbilicalLoop

  /** Moments of a run of both protocols: how far each of them is, in an order both agree on. */
  ghost predicate Joint(
    files: seq<P.State>, fileActs: seq<P.Action>, dogs: seq<R.State>, dogActs: seq<R.Action>, clock: seq<(nat, nat)>)
  {
    && O.IsRun(files, fileActs) && R.IsRun(dogs, dogActs)
    && |files| == |fileActs| + 1 && |dogs| == |dogActs| + 1
    && (forall t :: 0 <= t < |clock| ==> clock[t].0 < |files| && clock[t].1 < |dogs|)
    && (forall t, u :: 0 <= t <= u < |clock| ==> clock[t].0 <= clock[u].0 && clock[t].1 <= clock[u].1)
    && (forall t :: 0 <= t < |clock| ==> files[clock[t].0].live <= dogs[clock[t].1].table)
  }

  /** The client holds the shared lock on file i after it has read an authentic pid from it. */
  predicate HoldsRead(s: P.State, reader: P.ProcId, i: P.Inode) {
    && reader in s.procs && s.procs[reader].pc.ClientHold? && s.procs[reader].fd == Some(i) && i in s.files
  }

  /** The sentry that wrote the file is on its normal path. */
  predicate WriterIsNormal(s: P.State, i: P.Inode) {
    i in s.files && s.files[i].creator in s.procs && !P.Abnormal(s.procs[s.files[i].creator].pc)
  }

  lemma StepPersists(s: P.State, a: P.Action, i: P.Inode, p: P.ProcId)
    requires P.Enabled(s, a)
    ensures i in s.files ==> i in P.Apply(s, a).files && P.Apply(s, a).files[i].creator == s.files[i].creator
    ensures p in s.procs ==> p in P.Apply(s, a).procs && P.Apply(s, a).procs[p].child == s.procs[p].child
  {
    hide P.LockFree, P.NamesLive;
  }

  /** Who created a file, and whose child a process is, never changes. */
  lemma {:induction false} RunPersists(
    run: seq<P.State>, acts: seq<P.Action>, m: nat, n: nat, i: P.Inode, p: P.ProcId)
    requires O.IsRun(run, acts) && m <= n <= |acts| && i in run[m].files && p in run[m].procs
    ensures i in run[n].files && run[n].files[i].creator == run[m].files[i].creator
    ensures p in run[n].procs && run[n].procs[p].child == run[m].procs[p].child
    decreases n - m
  {
    hide P.Enabled, P.Apply;
    if m < n {
      RunPersists(run, acts, m, n - 1, i, p);
      StepPersists(run[n - 1], acts[n - 1], i, p);
    }
  }

  /** While the client holds the lock, the process it has read is the one the file named first, and it is
      not reaped. */
  lemma ReadStaysLive(
    run: seq<P.State>, acts: seq<P.Action>, m: nat, n: nat, reader: P.ProcId, i: P.Inode, who: Ident)
    requires O.IsRun(run, acts) && m <= n <= |acts|
    requires HoldsRead(run[m], reader, i) && HoldsRead(run[n], reader, i) && WriterIsNormal(run[n], i)
    requires run[m].files[i].text == P.Names(who)
    ensures run[n].files[i].text == P.Names(who) && who in run[n].live
  {
    hide P.Abnormal, P.Enabled, P.Apply;
    var p := run[m].files[i].creator;
    O.ReaderIsStable(run, acts, m, reader, p);
    RunPersists(run, acts, m, n, i, p);
    O.ReaderIsStable(run, acts, n, reader, p);
  }

  lemma InTableIsSafe(dogs: seq<R.State>, acts: seq<R.Action>, k: nat, who: Ident)
    requires R.IsRun(dogs, acts) && k <= |acts| && who in dogs[k].table
    ensures R.Safe(dogs[k], who)
  {
    hide R.Enabled, R.Apply;
    R.RunKeepsInv(dogs, acts, k);
  }

  /** From the read to the reaping: a client reads an authentic pid and keeps the shared lock until it is
      acknowledged, runs its command, and success is reported. If the sentry that wrote the file stayed
      on its normal path while the lock was held, then at every moment from the read to the reaping the
      pid was reserved, and no process but the one the file named could have it. */
  lemma FromReadToReap(
    files: seq<P.State>, fileActs: seq<P.Action>, dogs: seq<R.State>, dogActs: seq<R.Action>, clock: seq<(nat, nat)>,
    reader: P.ProcId, i: P.Inode, conn: Conn, who: Ident, read: nat, acked: nat, reaped: nat)
    requires Joint(files, fileActs, dogs, dogActs, clock) && read <= acked <= reaped < |clock|
    requires forall t :: read <= t <= acked ==>
               HoldsRead(files[clock[t].0], reader, i) && WriterIsNormal(files[clock[t].0], i)
    requires var s := files[clock[read].0]; i in s.files && s.files[i].text == P.Names(who)
    requires var s := dogs[clock[acked].1];
             conn in s.clients && R.Acked(s.clients[conn].phase) && s.clients[conn].who == who
    requires var k := clock[reaped].1;
             && k < |dogActs| && dogActs[k] == R.ReapCommand(conn)
             && conn in dogs[k + 1].clients && dogs[k + 1].clients[conn].phase == R.Reported(0)
    ensures forall t :: read <= t <= reaped ==> R.Safe(dogs[clock[t].1], who)
  {
    hide O.IsRun, R.IsRun, R.Safe, R.Acked, HoldsRead, WriterIsNormal;
    R.SuccessMeansReserved(dogs, dogActs, clock[acked].1, clock[reaped].1, conn);
    forall t | read <= t <= reaped ensures R.Safe(dogs[clock[t].1], who) {
      if t <= acked {
        ReadStaysLive(files, fileActs, clock[read].0, clock[t].0, reader, i, who);
        InTableIsSafe(dogs, dogActs, clock[t].1, who);
      }
    }
  }
}
