/** How the sentry stops the umbilical process: it asks the umbilical to close, drains the echoes that are
    still under way, and waits for the process to end. */
module UmbilicalStop {

  /** What read(2) finds on the umbilical socket; an echo that was under way, a reset connection, or the
      end of the stream. */
  datatype Found = EchoByte | Reset | EndOfStream

  /** What one turn of the loop meets: whether the deadline has expired, and whether the sentry was
      continued since the last expiry; whether the socket became readable, and what was found; whether
      the process has ended. */
  datatype Turn = Turn(expired: bool, continued: bool, ready: bool, found: Found, ended: bool)

  datatype Stage = Running | Stopping | Stopped

  /** GivesUp is ETIMEDOUT; Waiting is a loop that is still going on after the turns considered. */
  datatype Result = AlreadyGone | HasStopped | GivesUp | Waiting

  /** The deadline has expired, and not because the sentry itself was stopped. */
  predicate Fatal(t: Turn) {
    t.expired && !t.continued
  }

  /** A turn that goes on draining: an expiry that is excused, an echo, or a reset. */
  predicate Drains(t: Turn) {
    if t.expired then t.continued else t.ready && !t.found.EndOfStream?
  }

  /** A turn that goes on waiting for the process. */
  predicate Waits(t: Turn) {
    if t.expired then t.continued else !t.ended
  }

  /** What a turn can do. It gives up exactly when the deadline has expired and the sentry was not continued since; it
      starts over when it was. Otherwise draining is over exactly at the end of the stream or when nothing has
      come before the deadline, and waiting is over exactly when the process has ended. */
  lemma TurnOutcomes(t: Turn)
    ensures Fatal(t) <==> t.expired && !t.continued
    ensures !Fatal(t) && !Drains(t) <==> !t.expired && (t.ready ==> t.found == EndOfStream)
    ensures !Fatal(t) && !Waits(t) <==> !t.expired && t.ended
  {
  }

  predicate AllDrain(turns: seq<Turn>, n: nat)
    requires n <= |turns|
  {
    forall k :: 0 <= k < n ==> Drains(turns[k])
  }

  predicate AllWait(turns: seq<Turn>, m: nat, n: nat)
    requires m <= n <= |turns|
  {
    forall k :: m <= k < n ==> Waits(turns[k])
  }

  /** The connection is drained at turn d, and turns up to n wait for the process. */
  predicate DrainedAt(turns: seq<Turn>, d: nat, n: nat)
    requires d < n <= |turns|
  {
    AllDrain(turns, d) && !Drains(turns[d]) && !Fatal(turns[d]) && AllWait(turns, d + 1, n)
  }

  function Echoes(turns: seq<Turn>, n: nat): nat
    requires n <= |turns|
  {
    if n == 0 then 0
    else Echoes(turns, n - 1) + if !turns[n - 1].expired && turns[n - 1].ready && turns[n - 1].found.EchoByte? then
      1 else 0
  }

  /** stopUmbilicalProcess, given whether the close request could be written and the turns of the loop.
      It succeeds only when the connection has been drained to its end, or fell silent until the
      deadline, and the process was then seen to end; it gives up at the first deadline that expires
      without the sentry having been stopped in the meantime, and only then. Every echo before the end
      is drained. */
  method StopUmbilicalProcess(written: bool, turns: seq<Turn>) returns (result: Result, used: nat, drained: nat)
    ensures used <= |turns|
    ensures result.AlreadyGone? <==> !written
    ensures result.GivesUp? ==> 0 < used && Fatal(turns[used - 1])
    ensures result.HasStopped? ==>
              exists d :: 0 <= d < used - 1 && DrainedAt(turns, d, used - 1) && drained == Echoes(turns, d)
                          && !turns[used - 1].expired && turns[used - 1].ended
    ensures result.HasStopped? || result.GivesUp? ==> forall k :: 0 <= k < used - 1 ==> !Fatal(turns[k])
    ensures result.Waiting? ==> used == |turns| && forall k :: 0 <= k < used ==> !Fatal(turns[k])
    ensures result.Waiting? ==>
              AllDrain(turns, used) || exists d ::
                  0 <= d < used && DrainedAt(turns, d, used) && drained == Echoes(turns, d)
  {
    used, drained := 0, 0;
    if !written {
      return AlreadyGone, 0, 0;
    }
    var stage := Running;
    ghost var end: nat := 0;
    while stage != Stopped && used < |turns|
      invariant used <= |turns|
      invariant forall k :: 0 <= k < used - 1 ==> !Fatal(turns[k])
      invariant 0 < used ==> !Fatal(turns[used - 1])
      invariant stage.Running? ==> AllDrain(turns, used) && drained == Echoes(turns, used)
      invariant stage.Stopping? ==> end < used && DrainedAt(turns, end, used) && drained == Echoes(turns, end)
      invariant stage.Stopped? ==>
                  && end < used - 1 && DrainedAt(turns, end, used - 1) && drained == Echoes(turns, end)
                  && !turns[used - 1].expired && turns[used - 1].ended
      decreases |turns| - used
    {
      var t := turns[used];
      used := used + 1;
      if t.expired && !t.continued {
        return GivesUp, used, drained;
      }
      if t.expired {
        continue;
      }
      if stage.Running? {
        if t.ready {
          if t.found.EchoByte? {
            drained := drained + 1;
          }
          if !t.found.EndOfStream? {
            continue;
          }
        }
        stage := Stopping;
        end := used - 1;
      } else if t.ended {
        stage := Stopped;
      }
    }
    result := if stage.Stopped? then HasStopped else Waiting;
  }
}
