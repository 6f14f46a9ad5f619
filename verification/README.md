# A Dafny model of pidsentry

pidsentry is a watchdog made of cooperating processes. A *sentry* forks a *child*, publishes the pid of
the child in a pid file, and monitors it; an *umbilical* process watches the sentry and keeps the pid of
the child from being reused while *client* commands hold a reference to it. What the program promises lies
in the protocols between these processes, and this project models those protocols and proves what they
keep.

Each C object that the source updates in place is a class here, and each of its callbacks a method.
The effect of a callback is also written as a function on values; the method is proved to
have that effect on the fields, and the properties of whole runs, of several processes, or of real time are
proved about the functions. Protocols between processes are state machines whose actions are single system
calls or callbacks, in every interleaving.

| files | what they model |
|---|---|
| `PidFileProtocol`, `PidFileInvariant`, `PidFileOwnership` | any number of sentries and clients that open, lock, read, unlink, create, write and truncate one path, with crashes at every step; the invariant; who owns the path |
| `PidFileObject` | the class `PidFile` with its retry loops, running against a schedule of other processes |
| `PidFileText`, `PidSignature` | the text of the pid file; the scan of `/proc/<pid>/stat`, the wire format and the order of signatures |
| `Reservation`, `EndToEnd` | sentry, umbilical, child, clients and a system that recycles pids, end to end; and from the reading of the pid file on |
| `Heartbeat`, `HeartbeatTiming`, `Timers` | the ping and echo protocol of the umbilical connection, without and with real time |
| `UmbilicalLoop`, `UmbilicalMonitor`, `UmbilicalStop`, `RefusedClient` | the event loop of the umbilical process, the pid server, how the sentry stops the umbilical, and what a refused client does to the child |
| `ChildLoop`, `ChildMonitor`, `Escalation`, `TetherWatch` | the event loop of the sentry: heartbeat, tether timeout and signal escalation side by side |
| `LinkedLoops`, `Supervision` | the two event loops joined by their connection: they refine `Heartbeat`; and in real time, what the two processes together promise about the child |
| `TetherCopy` | the thread that copies what the child writes |
| `StartHandshake`, `Sentry` | the bells before the child executes; the order of the effects of the sentry, whichever step fails |
| `Command`, `Options` | the client; the timeouts |

## Assumptions

The `ert` library and the operating system are not part of this model. What is assumed of them is stated at
the head of each file; in short:

- a lock is a blocking flock on the open file, dropped when the file is closed or the process dies;
- a pair (pid, signature) never names two processes; a pid is not reused while a process, or a process group,
  with that number exists ("Process ID Reuse", section 4.12 of the base definitions of POSIX.1-2004);
- a timer is due one period after its `mSince`, is lapped before its callback runs, and is disabled by a zero
  period; "trigger" makes it due now, "restart" starts a fresh period, "delay" shifts it; one that has never run
  starts to run when it is given a period;
- a bell is heard once, and waiting for one fails when every copy of the far end is closed;
- nobody outside the protocol touches the pid file, and disks and memory do not run out.

Times are unbounded integers; the largest timeout that the options accept stays below 2^63 nanoseconds.

## Where the code and its descriptions disagree

The model follows the code.

- `src/childprocess.c:1247-1266` treats a ping that is outstanding as one that is yet to be sent, the opposite of
  the comment at lines 1238-1245. A continuation of the sentry while it waits for an echo counts a cycle at once: the
  wait shrinks from a whole umbilical timeout to half of it (`HeartbeatTiming.SentryIsPatient`), and a second
  continuation ends it on the spot (`Heartbeat.TwoContinuationsTimeOut`). Exactly what this costs is
  `HeartbeatTiming.NoFalseAlarmIff`: with delays that are small enough one continuation for each ping is harmless,
  and two can raise a false alarm however fast everything is; and `HeartbeatTiming.ContinuationMayAlarmIff`: the
  continuation that can cost the link is the one that comes after the sentry has already counted one cycle.
- The usage text lets every value of `--timeout` be empty; the code rejects an empty first value
  (`Options.FirstValueIsNeeded`).
- The usage text says that `--relaxed` always runs the command; the code does so only when the pid file does not
  exist or is stale, and fails when it is malformed or the pid server does not answer (`Command.Command.CreateCommand`).
- A poll of the clients that fails at `src/umbilical.c:101` counts as "no clients left", so references can be dropped
  while their clients still rely on them (`UmbilicalLoop.FailedPollDropsReferences`). Exactly when:
  `UmbilicalLoop.SlotLostIff` and `UmbilicalLoop.CompletesIff`.
- A client that the pid server refuses ends the whole event loop of the umbilical process with an error
  (`src/umbilical.c:74-75`), and the process then leaves at `src/umbilical.c:721-722`, before it kills the process group
  of the child or of the sentry. So neither is killed although the sentry never asked the umbilical to close
  (`UmbilicalLoop.SentryKilledIff` for exactly when, `UmbilicalLoop.RefusedClientSparesAll` for the run). The sentry
  finds the connection broken and terminates the child itself (`RefusedClient.RefusalReachesChild`). While it accepts
  a client the umbilical process can wait up to thirty seconds for the signature (`src/pidserver.c:324-336`) and reads
  no pings meanwhile: `HeartbeatTiming.SlowClientIsHarmlessIff`.
- A line of `/proc/<pid>/stat` that ends after field 21 yields an empty start time instead of an error, and the
  reader of the pid file accepts an empty address that the writer would refuse.

## Model

| member | source | states |
|---|---|---|
| PidFileInvariant.ApplyKeepsInv | src/pidfile_.c:439-894 | every system call of every sentry and client, every failed write, and every crash keeps the invariant of locks, file contents, program counters and process table |
| PidFileOwnership.OwnerIsUnique | src/pidfile_.c:803-894 | in every run at most one sentry owns the path, and while it does the path names its file with the full content and its child is unreaped |
| PidFileOwnership.LiveNameIsUnique | src/pidfile_.c:453-537 | even with dead sentries, there are never two files that name unreaped children, and the one there is is the file under the path |
| PidFileOwnership.OwnershipPersists | src/pidfile_.c:803-894 | once published, the path keeps naming that file with that content until its creator truncates it or the child leaves the process table, whatever others do and even if the creator dies |
| PidFileOwnership.UnlinkIsPrecise | src/pidfile_.c:398-435 | in every run the path loses its file only by an unlink of a process holding exactly that file exclusively locked, and only when the file names nobody alive |
| PidFileOwnership.WriteIsOwn | src/pidfile_.c:644-651 | in every run a text changes only in the hands of the process that created the file with O_EXCL, under its exclusive lock |
| PidFileOwnership.AssertionsHold | src/pidfile_.c:64-100 | the assertions on locks and descriptors hold at every program counter of every run, and the abort for an owner whose file is gone is unreachable |
| PidFileOwnership.ReaderIsStable | src/command.c:111-137 | while a client holds the shared lock after reading an authentic pid, the sentry of that pid is at most waiting for the write lock and its child is unreaped, unless it left the normal path |
| PidFileOwnership.NoDeadlock | src/pidfile_.c:64-100 | a process that has not finished can go on, or waits for a lock whose holder can go on |
| PidFileOwnership.TurnedAwayOnlyWhenTaken | src/pidfile_.c:439-554 | in every run a sentry is turned away only when, at its check, the path named the unreaped child of another sentry |
| PidFileOwnership.RetriesAreAmortised | src/pidfile_.c:453-537 | in any run the retries of a createPidFile call are at most the creations and unlinks of the path by other processes since it began |
| PidFileObject.PidFile.LockPidFile | src/pidfile_.c:64-100 | waits until the lock is compatible with those held by others, and then holds it |
| PidFileObject.PidFile.ReadPidFile | src/pidfile_.c:213-279 | the result is the live process that the locked file names, and none exactly when it names none; the path then names this file, and another sentry wrote it for its own child |
| PidFileObject.PidFile.DetectZombie | src/pidfile_.c:352-394 | a zombie exactly when the path names another file or none, which the lock keeps from changing; never for the owner |
| PidFileObject.PidFile.UnlinkPidFile | src/pidfile_.c:398-435 | the path is removed exactly when it named this file at the call, the file itself is unchanged, and the owner always succeeds |
| PidFileObject.PidFile.GeneratePidFile | src/pidfile_.c:439-554 | the loop ends, whatever the others do, with a newly created file, or blocked for ever, or with the process that has the name: the path names a file another sentry wrote for its own child, live unless that sentry left the normal path meanwhile |
| PidFileObject.PidFile.CreatePidFile | src/pidfile_.c:803-894 | on success the path names the file of this object with the full content and no lock is held; on rejection the path names the file of another sentry and the result is the child of that sentry; without interference it makes a single pass |
| PidFileObject.PidFile.WithdrawPidFile | src/pidfile_.c:638-678 | under the write lock the owner truncates, unlinks and closes its file; afterwards the file is empty, the path does not name it, and only then may it reap |
| PidFileText.LineEndsOfLines | src/pidfile_.c:110-197 | four printed lines are split exactly where they were joined |
| PidFileText.ReadPrinted | src/pidfile_.c:727-799 | round trip: a printed text is read back as the same pid and signature with the zero padded address while the process lives, and as stale afterwards |
| PidFileText.PrintedLayout | src/pidfile_.c:759-777 | what is printed, and that nothing is when it exceeds the limit; the pid has no leading zeros |
| PidFileText.AuthenticIff | src/pidfile_.c:104-210 | exactly which files are read as authentic |
| PidFileText.ContentIff | src/pidfile_.c:104-210 | exactly which files are read as stale, as malformed, and as having an address that does not fit |
| PidFileText.SunPathMeans | src/pidfile_.c:154-158 | the name of the socket is a NUL, the address, and NULs up to the size of sun_path |
| PidFileText.TornTextIsMalformed | src/pidfile_.c:727-799 | every proper prefix of a printed text is malformed |
| PidFileText.FindLineEnds | src/pidfile_.c:110-150 | the scan with strchr finds exactly the line ends |
| PidFileText.ParseInPlace | src/pidfile_.c:104-210 | splitting the buffer in place with NULs gives the same result as parsing the text |
| PidFileText.ReadPidFile | src/pidfile_.c:213-279 | reading through a buffer of limited size agrees with parsing the file, and a larger file is malformed |
| PidSignature.ScanStartTime | src/pidsignature_.c:103-133 | the scanning loops compute the twentieth word after the last parenthesis and stay within the buffer |
| PidSignature.WordsAreFields | src/pidsignature_.c:111-125 | each pass of the loop advances by exactly one field |
| PidSignature.StartTimeIsField22 | src/pidsignature_.c:103-133 | for every command name the scan returns exactly field 22, an empty field when there are 21, and an error when there are fewer |
| PidSignature.SignatureParts | src/pidsignature_.c:136-147 | the incarnation comes first, then a colon, then the start time |
| PidSignature.SignatureIsInjective | src/pidsignature_.c:136-147 | incarnation and timestamp can be recovered from a signature |
| PidSignature.SendPidSignature | src/pidsignature_.c:222-265 | three writes append the sent form, or exactly the part of it the far end takes before the deadline; success exactly when all of it was taken |
| PidSignature.RecvPidSignature | src/pidsignature_.c:293-349 | what is taken from the stream, on success and for every way of failing |
| PidSignature.WireLayout | src/pidsignature_.c:222-265 | every octet on the wire: the pid in two's complement and the length, least significant octet first, then the signature |
| PidSignature.ReceiveSent | src/pidsignature_.c:293-349 | round trip: a stream that begins with a sent signature yields that pid and signature and loses exactly its octets |
| PidSignature.ReceivedWasSent | src/pidsignature_.c:293-349 | whatever is accepted is the sent form of the result, so nothing over 1024 octets or with an embedded NUL is |
| PidSignature.RankIsTotalOrder | src/pidsignature_.c:279-289 | the comparison is a total order that is zero exactly on equality |
| PidSignature.RankMeans | src/pidsignature_.c:279-289 | a smaller pid ranks lower; with equal pids a proper prefix does, or the smaller character where the signatures first differ |
| Reservation.ApplyKeepsInv | src/umbilical.c:591-663 | every action of sentries, umbilicals, clients and the system keeps the invariant that ties references to anchors and anchors to pids |
| Reservation.ReferenceReserves | src/umbilical.c:602-632 | while an umbilical holds the reference of a client, the pid is reserved and no process but the one the client read can have it, whether or not sentry and child still live |
| Reservation.HeldSinceAck | src/pidserver.c:334-376 | a reference that is held when the command is reaped has been held since the acknowledgement |
| Reservation.SuccessMeansReserved | src/command.c:423-462 | if reapCommand reports success, the pid was reserved for the right process at every moment from the acknowledgement on |
| Reservation.ReportedExactly | src/command.c:423-462 | for a client that was acknowledged the code of the command is reported unchanged, except that success becomes 255 if and only if its umbilical refused a client or ended between the acknowledgement and the reaping |
| Reservation.SentryMayDie | README.md:108-122 | the guarantee covers runs in which the sentry dies and the child is reaped |
| Reservation.LostReferenceIsReported | src/command.c:435-450 | a run in which the umbilical ends and the pid is reused: the success of the command is reported as 255 |
| EndToEnd.ReadStaysLive | src/command.c:111-137 | while a client holds the shared lock the file keeps naming the process it has read, and that process is unreaped, if its sentry is on the normal path |
| EndToEnd.FromReadToReap | src/command.c:58-234 | a client that reads an authentic pid, keeps the lock until it is acknowledged, and reports success: the pid was reserved for the right process at every moment from the read to the reaping |
| Heartbeat.NextKeepsInv | src/childprocess.c:1077-1383 | every callback of either end keeps the invariant of counters, slots, latch and the two byte streams |
| Heartbeat.SinglePingOutstanding | src/childprocess.c:1160-1188 | while both ends are open and the sentry monitors, pings in flight, latched echo request and echoes in flight add up to one exactly while the sentry waits, in every order of callbacks |
| Heartbeat.CallbackAssertionsHold | src/umbilical.c:183-201 | the assertions on the cycle counter and on "not already closed" hold, and the latch never swallows a request |
| Heartbeat.AtMostOneEchoIsDrained | src/umbilical.c:842-957 | after the close request at most one echo is left to drain |
| Heartbeat.TwoContinuationsTimeOut | src/childprocess.c:1233-1275 | a run in which two continuations with a ping outstanding make the sentry give up on a live umbilical in one instant |
| Heartbeat.ContinuationClosesIff | src/childprocess.c:1247-1266 | the firing that a continuation brings about at once closes the link exactly when a ping is outstanding, one cycle was already counted and the umbilical is running; earlier it only counts that cycle |
| Heartbeat.WriteOutcomes | src/childprocess.c:1326-1371 | what each outcome of writing a ping leads to: only a broken connection closes the link, only a written ping is awaited, only an interrupted write is due again at once |
| Heartbeat.FindingOutcomes | src/childprocess.c:1283-1325 | what each state of the umbilical process leads to while an echo is awaited: gone waits, stopped gets two fresh cycles, running is given up at the second miss |
| Heartbeat.PingAfterEcho | src/childprocess.c:1127-1145 | across continuation, ping and echo: the next ping is due one period after the echo, or at once exactly when the sentry was continued before the ping was written |
| Heartbeat.UmbilicalOutcomes | src/umbilical.c:203-269 | the umbilical gives up at the second firing that finds the sentry running; a stopped sentry gets two fresh cycles; a byte sets the timer half a period out of phase |
| HeartbeatTiming.SilentSentryIsDetected | src/umbilical.c:233-269 | in every run an umbilical that runs has closed the connection three quarters of the timeout after the last ping it read, or a timeout after it last found the sentry stopped; plus two latenesses, or one if firings are less than a period late |
| HeartbeatTiming.SilentUmbilicalIsDetected | src/childprocess.c:1278-1325 | in every run a sentry that runs has given up one timeout after its last ping, its last finding that the umbilical was stopped or gone, or the continuation of the umbilical, whichever is last; plus two latenesses however often the sentry is continued, or one if it is not and firings are less than a period late |
| HeartbeatTiming.SentryIsPatient | src/childprocess.c:1278-1325 | the sentry never gives up earlier than a timeout less one lateness after its ping if it was not continued, nor earlier than half the timeout if it was continued only before the first cycle was counted |
| HeartbeatTiming.FastEnoughIsQuiet | src/umbilical.c:203-220 | with twice the delay plus the lateness below a quarter of the timeout, every healthy run in which the sentry is never continued after it counted one cycle is on time, whatever its length |
| HeartbeatTiming.OneContinuationIsHarmless | src/childprocess.c:1233-1275 | under that condition a single continuation for each ping never comes after a counted cycle |
| HeartbeatTiming.SlowRunAlarms | src/umbilical.c:255-259 | otherwise there is a run with a false alarm |
| HeartbeatTiming.StrikeAlarms | src/childprocess.c:1233-1275 | whatever the delays, a sentry that has counted one cycle and is continued gives up at once if its timer is served before the echo is read |
| HeartbeatTiming.TwoContinuationsAlarm | src/childprocess.c:1233-1275 | a healthy run with two continuations for one ping and a false alarm in the instant of the ping, for every configuration |
| HeartbeatTiming.ContinuationMayAlarmIff | src/childprocess.c:1233-1275 | in a fast enough heartbeat the next continuation makes a false alarm possible without a further one if and only if the sentry is waiting for an echo and has counted one cycle |
| HeartbeatTiming.NoFalseAlarmIff | src/umbilical.c:203-269 | no healthy run of any length with at most k continuations of the sentry for each ping, and any of the umbilical, alarms if and only if 4 (2 delay + lateness) is less than the timeout and k is at most one |
| HeartbeatTiming.SlowClientIsHarmlessIff | src/pidserver.c:324-336 | with the delay of a client that withholds its signature the heartbeat is quiet if and only if the timeout exceeds four minutes and four latenesses |
| HeartbeatTiming.OneMessageUnderWay | src/childprocess.c:1160-1188 | in every timed run at most one ping, latched request or echo is under way, and the sentry waits for it unless it has given up |
| LinkedLoops.StepRefines | src/childprocess.c:1077-1383 | every callback of the loop of the sentry and of the loop of the umbilical takes the step of the heartbeat that it stands for, on the state of the connection, the bytes and the echoes; the others leave the connection alone |
| LinkedLoops.RunRefines | src/umbilical.c:141-313 | every run of the two loops, in any order of callbacks and whoever dies, is a run of the heartbeat from its initial state for the configured timeout |
| LinkedLoops.ConnectionIsKept | src/umbilical.c:183-201 | in every run of the two loops an echo that arrives is awaited, a byte arrives before any close request and a ping when the latch is free, and a close request is read only after the sentry has left its loop |
| Supervision.LoopsKeepTime | src/childprocess.c:1077-1585 | in every timed run of the two loops with all their callbacks, the ends of the connection and the watch of the tether are what the timed machines say, and every signal plan has its cause |
| Supervision.LinkCallbackIsReady | src/childprocess.c:1127-1132 | every callback of the connection that the timed machine allows is one the loops can take |
| Supervision.HealthyChildIsLeftAlone | README.md:12-16 | with small enough delays, live processes, at most one continuation for each ping and a live parent: the connection is kept, and the child is terminated only for its own silence, by SIGABRT first, after exactly the tether timeout if firings are on time |
| Supervision.SilentChildIsTerminated | src/childprocess.c:1495-1585 | in every run the termination has begun one tether timeout after the silence of the child was last excused, plus two latenesses, or one if firings are less than a cycle late |
| Supervision.SilentUmbilicalEndsChild | src/childprocess.c:1278-1325 | in every run a sentry that runs has closed the connection and started the termination one umbilical timeout after the umbilical was last excused, plus two latenesses |
| Supervision.SilentSentryEndsBoth | src/umbilical.c:718-742 | in every run an umbilical that runs has closed connection and pid server when the ping is overdue, and when the last client has left it kills the groups of the child and of the sentry |
| UmbilicalMonitor.PidServer.AcceptConnection | src/pidserver.c:295-391 | a client is enqueued, last, exactly when it runs as the user of the server or as root, sent the identity of the child of this server, and was acknowledged |
| UmbilicalMonitor.PidServer.Clean | src/pidserver.c:395-417 | drops exactly the clients that hung up, keeping the order of the others |
| UmbilicalLoop.OthersStay | src/pidserver.c:395-417 | the clients that stay keep their order and their number |
| UmbilicalMonitor.PidServer.Close | src/pidserver.c:273-291 | leaves no client |
| UmbilicalMonitor.UmbilicalMonitor.CloseFdUmbilical | src/umbilical.c:120-138 | closes the connection and the server slot and stops the timer |
| UmbilicalMonitor.UmbilicalMonitor.PollFdUmbilical | src/umbilical.c:141-230 | the step of the loop for a byte, or for the end of the stream; likewise |
| UmbilicalMonitor.UmbilicalMonitor.PollFdTimerUmbilical | src/umbilical.c:233-269 | the step of the loop for the timer, which UmbilicalLoop.ClosedIff and LinkedLoops.StepRefines characterise |
| UmbilicalMonitor.UmbilicalMonitor.PollFdSendEcho | src/umbilical.c:273-313 | serves the latched request, and echoes only while the connection is open |
| UmbilicalMonitor.UmbilicalMonitor.PollFdPidServer | src/umbilical.c:69-93 | the client slot is polled once a client was accepted; a client that is not accepted makes the loop fail |
| UmbilicalMonitor.UmbilicalMonitor.PollFdPidClient | src/umbilical.c:96-116 | the client slot is closed when no client is left, or when polling fails |
| UmbilicalMonitor.UmbilicalMonitor.PollFdCompletion | src/umbilical.c:345-355 | completion as the loop defines it |
| UmbilicalMonitor.UmbilicalMonitor.Finish | src/umbilical.c:718-742 | kills what UmbilicalLoop.SentryKilledIff characterises: nothing after a loop that failed |
| UmbilicalLoop.ClosedIff | src/umbilical.c:233-269 | in every run the connection is closed exactly at the end of the stream, or when the timer has fired twice in a row on a running sentry that has sent nothing in between |
| UmbilicalLoop.SlotIffReferences | src/umbilical.c:69-116 | the client slot is polled exactly while clients hold references |
| UmbilicalLoop.CompletesWhenReleased | src/umbilical.c:345-355 | the loop completes exactly when the connection is closed and every reference is gone |
| UmbilicalLoop.SlotLostIff | src/umbilical.c:69-116 | in every run, with polls that may fail, held references are no longer polled if and only if a poll has failed and no client was accepted since |
| UmbilicalLoop.CompletesIff | src/umbilical.c:345-355 | exactly when the loop completes: the connection is closed, and every reference is gone or a poll has failed since the last accept, in which case references may still be held |
| UmbilicalLoop.FailedPollDropsReferences | src/umbilical.c:96-116 | a run of that kind exists |
| UmbilicalLoop.ReferencesOnlyDecrease | src/pidserver.c:395-417 | after the connection was closed no reference is added |
| UmbilicalLoop.SentryKilledIff | src/umbilical.c:718-742 | over all loops that have ended, the group of the child is killed if and only if the loop completed, that is if and only if no client was refused and no other call failed; the group of the sentry if and only if, besides, no close request was read |
| UmbilicalLoop.SentryIsSpared | src/umbilical.c:734-742 | once a close request was read the group of the sentry is not killed, however the loop ends |
| UmbilicalLoop.RefusedClientSparesAll | src/umbilical.c:718-722 | a run of two events, the first ping and a refused client, after which neither group is killed although no close request was read |
| RefusedClient.RefusalReachesChild | src/childprocess.c:1077-1125 | a refused client ends the umbilical process, the sentry finds the connection closed, starts the termination unless it runs already, and the signal due at once is SIGTERM |
| RefusedClient.BrokenLinkTerminates | src/childprocess.c:925-997 | in every run in which the broken connection is the first cause, the child is sent SIGTERM once and then only SIGKILL |
| UmbilicalStop.StopUmbilicalProcess | src/umbilical.c:842-957 | success means the connection was drained and the process then seen to end; giving up means that a deadline expired without the sentry having been stopped |
| UmbilicalStop.TurnOutcomes | src/umbilical.c:882-947 | exactly when a turn of the loop gives up, ends the draining, and ends the waiting |
| Escalation.ActivePlanEscalates | src/childprocess.c:959-997 | an active plan sends its current signal and then only SIGKILL, whatever is activated meanwhile |
| Escalation.SignalsEscalate | src/childprocess.c:925-997 | for every sequence of causes and firings the signals are the first signal of the first cause once, then SIGKILL |
| Escalation.PlanIffTimer | src/childprocess.c:925-956 | the plan is set exactly while the timer is active and its pointer never reaches the sentinel |
| Escalation.PlanKeepsItsPace | src/childprocess.c:925-956 | the first signal is due at once, the next a period later, and a later activation changes nothing |
| Escalation.AssertionNeedsDelay | src/childprocess.c:944-950 | the assertion that no plan is set when one is activated holds in every sequence of activations and firings if and only if the signal delay is not zero |
| TetherWatch.TimeoutIsExact | src/childprocess.c:1495-1585 | with firings on time the abort begins exactly one timeout after the silence of the child was last excused, never earlier, never missed |
| TetherWatch.LateTimeoutIsBounded | src/childprocess.c:1522-1571 | however late the firings are, the abort is at most two latenesses late, or one if they are less than a cycle late, and the child has been silent for at least half the timeout |
| TetherWatch.StoppedChildIsExcused | src/childprocess.c:1533-1544 | a stopped child never triggers the timeout and gets two fresh cycles |
| TetherWatch.FiringOutcomes | src/childprocess.c:1514-1571 | a firing aborts exactly when the child is gone, or runs and has been silent for two cycles; recent activity reschedules from that activity |
| ChildLoop.NextKeepsInv | src/childprocess.c:925-1732 | every callback keeps the invariant of plan, timers, slots and counters; the termination timer is started exactly by a cause |
| ChildLoop.FirstCauseDecides | src/childprocess.c:925-1585 | in every run of the monitor the child is signalled only after a cause, the first cause alone decides the first signal, the rest are SIGKILL, one for each firing |
| ChildLoop.TerminationIsFinal | src/childprocess.c:925-956 | once supervision has ended the termination runs at every later step, and the tether is never watched again |
| ChildLoop.CompletesIff | src/childprocess.c:1589-1664 | the loop completes exactly when the child has ended and the tether was shut down; the thread was then told to flush |
| ChildLoop.NewMonitorMeans | src/childprocess.c:1959-2003 | each timer gets the timeout that belongs to it: the link starts as the heartbeat does with the umbilical timeout, the watch as the tether watch does with the tether timeout and only with a tether, the signals are the signal delay apart |
| ChildLoop.ConnectionLostIff | src/childprocess.c:1077-1383 | in every run the connection is lost exactly when it breaks, when a ping finds it broken, or when the timer has fired twice in a row on a running umbilical that has not answered its ping |
| ChildLoop.SlotsShow | src/childprocess.c:1006-1230 | in every run supervision has ended exactly when a cause has asked the child to terminate; parent and umbilical process are listened to until they end |
| ChildLoop.ThreadIsPinged | src/childprocess.c:1648-1688 | the tether thread is pinged first one second after the end of the child, then at least every second |
| ChildMonitor.ChildMonitor.constructor | src/childprocess.c:1776-2102 | the monitor starts out in the initial state of the loop, which ChildLoop.NewMonitorMeans spells out: each timer with its own timeout, and the first ping due at once |
| ChildMonitor.ChildMonitor.ActivateFdTimerTermination | src/childprocess.c:925-956 | stops the tether timer, and starts the plan unless one is active |
| ChildMonitor.ChildMonitor.PollFdTimerTermination | src/childprocess.c:959-997 | the signal sent is the one the plan points at, and the plan advances |
| ChildMonitor.ChildMonitor.PollFdParent | src/childprocess.c:1006-1031 | the step of the loop for the death of the parent |
| ChildMonitor.ChildMonitor.PollFdUmbilical | src/childprocess.c:1077-1157 | the step of the loop for an echo, or for a broken connection, which LinkedLoops.StepRefines and ChildLoop.ConnectionLostIff characterise |
| ChildMonitor.ChildMonitor.PollFdReapUmbilicalEvent | src/childprocess.c:1191-1230 | the step of the loop when the umbilical process runs again or has ended |
| ChildMonitor.ChildMonitor.PollFdContEvent | src/childprocess.c:1233-1275 | the step of the loop when the sentry was continued, as the code has it |
| ChildMonitor.ChildMonitor.PollFdTimerUmbilical | src/childprocess.c:1278-1383 | the step of the loop for the umbilical timer, with every outcome of the write |
| ChildMonitor.ChildMonitor.PollFdTether | src/childprocess.c:1454-1474 | the step of the loop when the tether thread has ended |
| ChildMonitor.ChildMonitor.PollFdTimerTether | src/childprocess.c:1495-1585 | the step of the loop for the tether timer |
| ChildMonitor.ChildMonitor.PollFdReapChildEvent | src/childprocess.c:1609-1664 | the step of the loop when the child runs again or has ended |
| ChildMonitor.ChildMonitor.PollFdTimerChild | src/childprocess.c:1667-1688 | the tether thread is pinged only after the child has ended |
| ChildMonitor.ChildMonitor.PollFdCompletion | src/childprocess.c:1589-1597 | completion as the loop defines it |
| TetherCopy.DrainKeepsInv | src/tether.c:126-248 | every outcome of a read or a write keeps written plus buffered equal to read, and the poll masks in step with the buffer |
| TetherCopy.TetherPoll.PollFdDrainCopy | src/tether.c:126-248 | the buffer, its two pointers and the masks after one read or one write |
| TetherCopy.TetherPoll.PollFdDrain | src/tether.c:376-412 | records the activity, copies, and completes when drained; TetherCopy.ActivityIsLastDrain says what is recorded |
| TetherCopy.TetherPoll.PollFdControl | src/tether.c:94-123 | starts the drain timeout and changes nothing else; TetherCopy.ForcedIff says when it expires |
| TetherCopy.TetherPoll.PollFdTimerDisconnected | src/tether.c:415-435 | disables the timer and completes |
| TetherCopy.NothingIsLost | src/tether.c:126-248 | in every run what the child wrote is what was delivered, then the buffer, then the pipe, in order; output is polled exactly while the buffer holds something |
| TetherCopy.CompletionDelivers | src/tether.c:133-241 | a thread that completes has delivered everything written until then, unless the output was lost or the drain timeout expired, and copies nothing afterwards |
| TetherCopy.DrainingEnds | src/tether.c:133-241 | once the child stops writing, the reads and writes still to come are bounded by the bytes left |
| TetherCopy.DrainOutcome | src/tether.c:126-248 | exactly when one turn completes the thread and when it fails; neither touches the data |
| TetherCopy.ActivityIsLastDrain | src/tether.c:382-390 | in every run the recorded activity is the time of the last drain, or of the creation of the thread |
| TetherCopy.ForcedIff | src/tether.c:94-123 | in every run the thread can be made to end exactly when there is a drain timeout and it has passed since the first request to flush |
| StartHandshake.NextKeepsInv | src/sentry.c:338-414 | every step and every death keeps the invariant of bells, descriptors and program counters |
| StartHandshake.ExecutesOnlyWhenReady | src/childprocess.c:466-633 | the child executes only after both bells, hence after the pid file was announced, the umbilical created and the pid printed |
| StartHandshake.MonitorsOnlyAfterExecution | src/sentry.c:406-436 | the last wait of the sentry never hears a second bell, and monitoring begins only when the child has executed or is dead |
| StartHandshake.NoDeadlock | src/sentry.c:338-414 | whoever died at whatever step, one side can go on until both have settled |
| StartHandshake.HandshakeEnds | src/childprocess.c:466-633 | no run has more than fifteen steps |
| StartHandshake.StartsIfNobodyDies | src/sentry.c:338-436 | if nobody dies, every run that cannot go on has started the program and the monitor |
| Sentry.Sentry.CreateSentry | src/sentry.c:81-214 | fails exactly when one of its steps does; everything acquired is then released again, and the child, if forked, is killed and then reaped; the exact effects |
| Sentry.Sentry.CloseSentry | src/sentry.c:218-231 | releases everything: a locked pid file is withdrawn, an unlocked one only closed, the signals are no longer propagated, and a child that was not reaped is killed and then reaped; exactly these effects in this order |
| Sentry.Sentry.AnnounceSentryPidFile | src/sentry.c:235-249 | the pid file is named exactly when one is wanted and its creation succeeds |
| Sentry.Sentry.RunSentry | src/sentry.c:260-604 | the outcome and the exact effects for each step that can fail; when none does the umbilical is stopped, the process group killed, the pid file withdrawn and the child reaped |
| Sentry.Sentry.RunAgentSentry | src/agent.c:112-164 | whichever call fails: the child is never touched after it was reaped, is reaped only when signals are no longer propagated to it and a created pid file is withdrawn or given up, the pid file is withdrawn only locked and after the umbilical was stopped, the child is started only when umbilical and pid file exist; and unless the process ends on the spot no unreaped child, propagated signal or named pid file is left; the outcome and the exact effects for each failing call; a child that was forked is killed right before it is reaped unless it was monitored to its end |
| Sentry.FinishedLife | src/sentry.c:260-604 | the whole life without a failure: fork, announce, umbilical, start, monitor, stop the umbilical, kill the group, withdraw the pid file under its lock, reap |
| Sentry.UnfinishedLife | src/childprocess.c:811-822 | whichever step fails or whoever is rejected: a child that was forked is killed and reaped as the last two effects, and neither before; without a child nothing has happened |
| Sentry.TerminatedLife | src/sentry.c:274-333 | a sentry that is terminated on the spot leaves the child to the umbilical: it is neither killed nor reaped |
| Command.Command.CreateCommand | src/command.c:58-234 | the command runs against a child exactly when the file is authentic and its identity acknowledged; each status exactly when; the connection is kept exactly in the first case; what is sent |
| Command.Command.ReapCommand | src/command.c:423-462 | success is reported exactly when the command succeeded and the reference, if any, is still held |
| Command.AcknowledgedMeansSameChild | src/command.c:111-174 | whatever wrote the file, the identity reaches the server unchanged and is accepted exactly when it is that of its own child |
| Command.ClientReachesItsServer | src/pidserver.c:334-376 | from printing through reading and sending to the comparison, a client reaches the server of the child that was announced and no other |
| Options.Options.ProcessTimeoutOption | src/options_.c:220-275 | exactly which lists are accepted, what they change, and when a failure leaves a zero delay behind |
| Options.SignalDelayIsPositive | src/options_.c:202-275 | after any number of accepted options each timeout is the last value given or its default, and the signal delay is positive |
| Options.FirstValueIsNeeded | src/options_.c:104-120 | the first value may not be empty, contrary to the usage text; after any first value that is a number, exactly which lists are accepted |
| Options.MonitorStartsValid | src/childprocess.c:1859-2003 | so the monitor of every accepted command line starts out with its invariant, its tether timer with the first value, its umbilical timer with the second, and the signals with the third |

## Left out

- The `ert` library: poll loops, latches, event pipes, sockets, fork and job control are assumptions.
- The splicing copy of the tether thread (`src/tether.c:251-373`): the data stays inside the kernel.
- Getopt handling, usage text, mode parsing, and the substitution of the tether name in the arguments of the child.
- `parentprocess.c`, `shellcommand.c`, `_pidsentry.c` and the process plumbing of `agent.c` around `runAgentSentry_`.
- Redirection of standard streams, change of directory, descriptor hygiene, logging and test hooks.
- Removal of the pid file by outsiders, disk and allocation errors, and how the credentials of a peer are obtained.
- Extraction of exit codes and the core dump in sympathy with the child.
- The event pipe and the linked list nodes of the pid server: the list of clients is a sequence that the methods reassign, so the ownership pointers of its nodes are not captured.
- HeartbeatTiming.NoFalseAlarmIff: leaves out a process that stays stopped for longer than the assumed delays, because then time passes that no bound on delays covers; SIGCONT, and findings that the other process is stopped, may occur at any time.
- Supervision.HealthyChildIsLeftAlone: does not cover callbacks in which a library call fails, because such a failure ends the loop with an error, which `UmbilicalLoop` and `Sentry` follow.
- TetherWatch.TimeoutIsExact: activity in the very instant of a firing is taken to be recorded before it.
- PidFileOwnership.ReaderIsStable: does not cover a sentry that fails while it monitors; it then kills and reaps its child without withdrawing the pid file.
