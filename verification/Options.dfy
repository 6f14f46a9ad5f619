/** The timeouts of the server: their defaults and the option that changes them.

    Assumptions about the parsing library: an unsigned integer is a decimal number that fits 32 bits,
    and a failed parse stores nothing; the argument is split at its commas before it gets here. */
module Options {
  import opened Common
  import opened PidFileText
  import opened Timers
  import opened ChildLoop

  const DEFAULT_TIMEOUT: nat := 30
  const MAX_UINT: nat := 0xffff_ffff

  datatype Timeouts = Timeouts(tether: nat, umbilical: nat, signal: nat, drain: nat)

  function Defaults(): Timeouts {
    Timeouts(DEFAULT_TIMEOUT, DEFAULT_TIMEOUT, DEFAULT_TIMEOUT, DEFAULT_TIMEOUT)
  }

  function ParseUInt(s: string): Option<nat> {
    if s == "" || exists k :: 0 <= k < |s| && !IsDigit(s[k]) then None
    else if DigitsValue(s) < 0 || MAX_UINT < DigitsValue(s) then None
    else Some(DigitsValue(s))
  }

  /** What a list says about its n-th value: nothing when it is missing or empty. */
  predicate Says(list: seq<string>, n: nat) {
    n < |list| && list[n] != ""
  }

  /** A list that is accepted. */
  predicate Acceptable(list: seq<string>) {
    && 1 <= |list| <= 4
    && ParseUInt(list[0]).Some?
    && (forall n :: 1 <= n < 4 && Says(list, n) ==> ParseUInt(list[n]).Some?)
    && (Says(list, 2) ==> ParseUInt(list[2]) != Some(0))
  }

  function ValueOr(list: seq<string>, n: nat, previous: nat): nat {
    if Says(list, n) && ParseUInt(list[n]).Some? then ParseUInt(list[n]).value else previous
  }

  /** The timeouts after an acceptable list. */
  function Updated(t: Timeouts, list: seq<string>): Timeouts {
    Timeouts(ValueOr(list, 0, t.tether), ValueOr(list, 1, t.umbilical),
             ValueOr(list, 2, t.signal), ValueOr(list, 3, t.drain))
  }

  class Options {
    var tether: nat
    var umbilical: nat
    var signal: nat
    var drain: nat

    ghost function View(): Timeouts
      reads this
    {
      Timeouts(tether, umbilical, signal, drain)
    }

    /** initOptions */
    constructor ()
      ensures View() == Defaults()
    {
      tether, signal, umbilical, drain := DEFAULT_TIMEOUT, DEFAULT_TIMEOUT, DEFAULT_TIMEOUT, DEFAULT_TIMEOUT;
    }

    /** processTimeoutOption: a list that is not accepted ends the program; until then it may have left a
        signal delay of zero, in which case exactly the values before it were stored. */
    method ProcessTimeoutOption(list: seq<string>) returns (ok: bool)
      modifies this
      ensures ok <==> Acceptable(list)
      ensures ok ==> View() == Updated(old(View()), list)
      ensures !ok && signal == 0 && old(signal) != 0 ==>
                && Says(list, 2) && ParseUInt(list[2]) == Some(0)
                && View() == Updated(old(View()), list[..3])
    {
      if |list| < 1 || 4 < |list| {
        return false;
      }
      var parsed := ParseUInt(list[0]);
      if parsed.None? {
        return false;
      }
      tether := parsed.value;
      if 1 < |list| && list[1] != "" {
        parsed := ParseUInt(list[1]);
        if parsed.None? {
          return false;
        }
        umbilical := parsed.value;
      }
      if 2 < |list| && list[2] != "" {
        parsed := ParseUInt(list[2]);
        if parsed.None? {
          return false;
        }
        signal := parsed.value;
        if signal <= 0 {
          return false;
        }
      }
      if 3 < |list| && list[3] != "" {
        parsed := ParseUInt(list[3]);
        if parsed.None? {
          return false;
        }
        drain := parsed.value;
      }
      ok := true;
    }
  }

  // ------------------------------------------------------------------------------------------
  // Any number of options

  /** The timeouts after all the options of a command line; None when the program ends on one of them. */
  function Configured(options: seq<seq<string>>): Option<Timeouts> {
    if options == [] then Some(Defaults())
    else
      var last := options[|options| - 1];
      match Configured(options[..|options| - 1])
      case None => None
      case Some(t) => if Acceptable(last) then Some(Updated(t, last)) else None
  }

  /** The last thing the options say about their n-th value. */
  function LastSaid(options: seq<seq<string>>, n: nat): Option<nat> {
    if options == [] then None
    else
      var last := options[|options| - 1];
      if Says(last, n) then ParseUInt(last[n]) else LastSaid(options[..|options| - 1], n)
  }

  function Said(options: seq<seq<string>>, n: nat): nat {
    if LastSaid(options, n).Some? then LastSaid(options, n).value else DEFAULT_TIMEOUT
  }

  /** Every command line that is accepted configures each timeout to the last value given for it, or its
      default, and never a signal delay of zero: what the termination state machine rests on. */
  lemma {:induction false} SignalDelayIsPositive(options: seq<seq<string>>)
    requires Configured(options).Some?
    ensures Configured(options).value ==
              Timeouts(Said(options, 0), Said(options, 1), Said(options, 2), Said(options, 3))
    ensures Configured(options).value.signal > 0
    ensures forall n :: LastSaid(options, n).None? ==> Said(options, n) == 30
  {
    if options != [] {
      SignalDelayIsPositive(options[..|options| - 1]);
    }
  }

  /** The usage text lets every value be empty; the code does not let the first one be. With a first value
      that is a number, a list is accepted exactly when no more than three values follow, each empty or
      a number, and the signal delay is not zero. */
  lemma FirstValueIsNeeded(first: string, rest: seq<string>)
    ensures first == "" ==> !Acceptable([first] + rest)
    ensures ParseUInt(first).Some? ==>
              (Acceptable([first] + rest) <==>
               && |rest| <= 3
               && (forall n :: 0 <= n < |rest| && rest[n] != "" ==> ParseUInt(rest[n]).Some?)
               && (1 < |rest| && rest[1] != "" ==> ParseUInt(rest[1]) != Some(0)))
  {
    var list := [first] + rest;
    assert list[0] == first;
    assert forall n :: 1 <= n < 4 ==> (Says(list, n) <==> n - 1 < |rest| && rest[n - 1] != "");
    assert forall n :: 0 <= n < |rest| ==> list[n + 1] == rest[n];
    hide ParseUInt;
    if Acceptable(list) {
      forall n | 0 <= n < |rest| && rest[n] != "" ensures ParseUInt(rest[n]).Some? {
        assert Says(list, n + 1);
      }
    }
  }

  /** So the monitor of every accepted command line starts out with its invariant, and with the timeouts that were
      given, in seconds: the first value for the tether, if there is one, the second for the umbilical
      connection, both of which are two timer periods, and the third between the signals. */
  lemma MonitorStartsValid(options: seq<seq<string>>, tethered: bool, hasParent: bool, now: int)
    requires Configured(options).Some?
    ensures var t := Configured(options).value;
            var m := NewMonitor(Settings(tethered, t.tether, t.umbilical, t.signal, hasParent), now);
            && Inv(m)
            && 2 * m.tether.timer.period == (if tethered then Said(options, 0) else 0) * NANOSECONDS
            && 2 * m.link.timer.period == Said(options, 1) * NANOSECONDS
            && m.termination.period == Said(options, 2) * NANOSECONDS
  {
    SignalDelayIsPositive(options);
    var t := Configured(options).value;
    NewMonitorMeans(Settings(tethered, t.tether, t.umbilical, t.signal, hasParent), now);
  }
}
