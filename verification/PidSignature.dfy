/** The signature of a process: how it is found in /proc, how it travels over a stream, and how two
    signatures compare. Strings are C strings without their terminating NUL. */
module PidSignature {
  import opened Common

  // ------------------------------------------------------------------------------------------
  // The scan of /proc/<pid>/stat

  predicate IsSpace(c: char) {
    c == ' ' || 9 <= c as int <= 13
  }

  function SkipWord(s: string, i: nat): (j: nat)
    requires i <= |s|
    ensures i <= j <= |s| && (j < |s| ==> IsSpace(s[j])) && forall k :: i <= k < j ==> !IsSpace(s[k])
    decreases |s| - i
  {
    if i == |s| || IsSpace(s[i]) then i else SkipWord(s, i + 1)
  }

  function SkipSpace(s: string, i: nat): (j: nat)
    requires i <= |s|
    ensures i <= j <= |s| && (j < |s| ==> !IsSpace(s[j])) && forall k :: i <= k < j ==> IsSpace(s[k])
    decreases |s| - i
  {
    if i == |s| || !IsSpace(s[i]) then i else SkipSpace(s, i + 1)
  }

  /** The position of the n-th word after the one at i; None when the buffer ends within a word before. */
  function NthWord(s: string, i: nat, n: nat): (j: Option<nat>)
    requires i <= |s|
    ensures j.Some? ==> i <= j.value <= |s|
    decreases n
  {
    if n == 0 then Some(i)
    else
      var end := SkipWord(s, i);
      if end == |s| then None else NthWord(s, SkipSpace(s, end), n - 1)
  }

  lemma NthWordSteps(s: string, i: nat, n: nat)
    requires i <= |s|
    ensures n == 0 ==> NthWord(s, i, n) == Some(i)
    ensures n > 0 ==> NthWord(s, i, n) ==
                      if SkipWord(s, i) == |s| then None else NthWord(s, SkipSpace(s, SkipWord(s, i)), n - 1)
  {
  }

  function LastParen(s: string): (i: Option<nat>)
    ensures i.Some? ==> i.value < |s| && s[i.value] == ')' && ')' !in s[i.value + 1..]
    ensures i.None? ==> ')' !in s
  {
    if s == "" then None
    else if s[|s| - 1] == ')' then Some(|s| - 1)
    else
      var i := LastParen(s[..|s| - 1]);
      assert s == s[..|s| - 1] + [s[|s| - 1]];
      if i.None? then None
      else
        assert s[i.value + 1..] == s[..|s| - 1][i.value + 1..] + [s[|s| - 1]];
        i
  }

  /** Field 22 as the code finds it: the twentieth word after the last ')'. */
  function StartTime(s: string): Option<string> {
    match LastParen(s)
    case None => None
    case Some(i) =>
      match NthWord(s, i, 20)
      case None => None
      case Some(w) => Some(s[w..SkipWord(s, w)])
  }

  /** memrchr for ')' */
  method FindLastParen(buf: string) returns (i: Option<nat>)
    ensures i == LastParen(buf)
  {
    var end := |buf|;
    while end > 0 && buf[end - 1] != ')'
      invariant 0 <= end <= |buf|
      invariant LastParen(buf) == LastParen(buf[..end])
    {
      assert buf[..end][..end - 1] == buf[..end - 1];
      end := end - 1;
    }
    i := if end == 0 then None else Some(end - 1);
  }

  method FindSpace(buf: string, start: nat) returns (word: nat)
    requires start <= |buf|
    ensures word == SkipWord(buf, start)
  {
    word := start;
    while word != |buf| && !IsSpace(buf[word])
      invariant start <= word <= |buf| && SkipWord(buf, start) == SkipWord(buf, word)
    {
      word := word + 1;
    }
  }

  method FindNonSpace(buf: string, start: nat) returns (word: nat)
    requires start <= |buf|
    ensures word == SkipSpace(buf, start)
  {
    word := start;
    while word != |buf| && IsSpace(buf[word])
      invariant start <= word <= |buf| && SkipSpace(buf, start) == SkipSpace(buf, word)
    {
      word := word + 1;
    }
  }

  /** The scan in fetchProcessSignature_. */
  method ScanStartTime(buf: string) returns (field: Option<string>)
    ensures field == StartTime(buf)
  {
    hide NthWord, SkipWord, SkipSpace, LastParen;
    var paren := FindLastParen(buf);
    if paren.None? {
      return None;
    }
    var word: nat := paren.value;
    for ix := 2 to 22
      invariant word <= |buf|
      invariant NthWord(buf, paren.value, 20) == NthWord(buf, word, 22 - ix)
    {
      NthWordSteps(buf, word, 22 - ix);
      word := FindSpace(buf, word);
      if word == |buf| {
        return None;
      }
      word := FindNonSpace(buf, word);
    }
    NthWordSteps(buf, word, 0);
    var end := FindSpace(buf, word);
    field := Some(buf[word..end]);
  }

  predicate IsWord(s: string) {
    s != "" && forall k :: 0 <= k < |s| ==> !IsSpace(s[k]) && s[k] != ')'
  }

  /** The fields from the third on, each after a single space, up to the end of the line. */
  function Tail(fields: seq<string>): string {
    if fields == [] then "\n" else " " + fields[0] + Tail(fields[1..])
  }

  /** A line of /proc/<pid>/stat: pid, command name in parentheses, and the other fields. */
  function StatLine(pid: string, name: string, fields: seq<string>): string {
    pid + " (" + name + ")" + Tail(fields)
  }

  lemma {:induction false} TailHasNoParen(fields: seq<string>)
    requires forall k :: 0 <= k < |fields| ==> IsWord(fields[k])
    ensures ')' !in Tail(fields)
  {
    if fields == [] {
    } else {
      TailHasNoParen(fields[1..]);
      assert IsWord(fields[0]);
    }
  }

  lemma {:induction false} LastParenIsLast(head: string, tail: string)
    requires ')' !in tail
    ensures LastParen(head + ")" + tail) == Some(|head|)
  {
    var s := head + ")" + tail;
    if tail == "" {
    } else {
      assert s[..|s| - 1] == head + ")" + tail[..|tail| - 1];
      LastParenIsLast(head, tail[..|tail| - 1]);
    }
  }

  /** Starting inside a word, the scan steps from field to field. */
  lemma {:induction false} WordsAreFields(s: string, i: nat, word: string, fields: seq<string>, n: nat)
    requires i <= |s| && s[i..] == word + Tail(fields)
    requires forall k :: 0 <= k < |word| ==> !IsSpace(word[k])
    requires forall k :: 0 <= k < |fields| ==> IsWord(fields[k])
    ensures n == 0 ==> NthWord(s, i, n) == Some(i)
    ensures 1 <= n <= |fields| ==>
              && NthWord(s, i, n).Some?
              && s[NthWord(s, i, n).value..] == fields[n - 1] + Tail(fields[n..])
    ensures n == |fields| + 1 ==> NthWord(s, i, n) == Some(|s|)
    ensures n > |fields| + 1 ==> NthWord(s, i, n).None?
    decreases n
  {
    hide Tail, NthWord, SkipWord, SkipSpace;
    NthWordSteps(s, i, n);
    if n > 0 {
      FieldStep(s, i, word, fields);
      if fields == [] {
        NthWordSteps(s, |s|, n - 1);
      } else {
        assert IsWord(fields[0]);
        WordsAreFields(s, i + |word| + 1, fields[0], fields[1..], n - 1);
        if 2 <= n <= |fields| {
          assert fields[1..][n - 1..] == fields[n..];
        }
      }
    }
  }

  lemma FieldStep(s: string, i: nat, word: string, fields: seq<string>)
    requires i <= |s| && s[i..] == word + Tail(fields)
    requires forall k :: 0 <= k < |word| ==> !IsSpace(word[k])
    requires forall k :: 0 <= k < |fields| ==> IsWord(fields[k])
    ensures SkipWord(s, i) == i + |word| < |s|
    ensures fields == [] ==> SkipSpace(s, i + |word|) == |s|
    ensures fields != [] ==> && SkipSpace(s, i + |word|) == i + |word| + 1
                             && s[i + |word| + 1..] == fields[0] + Tail(fields[1..])
  {
    hide SkipWord, SkipSpace;
    var end := i + |word|;
    TailStartsWithSpace(fields);
    SkipsExactly(s, i, word, Tail(fields));
    assert s[end..] == Tail(fields);
    if fields == [] {
      assert |s| == end + 1;
    } else {
      assert s[end + 1..] == s[end..][1..] == fields[0] + Tail(fields[1..]);
      assert IsWord(fields[0]) && s[end + 1] == s[end + 1..][0] == fields[0][0];
    }
  }

  lemma SkipsExactly(s: string, i: nat, word: string, rest: string)
    requires i <= |s| && s[i..] == word + rest && rest != "" && IsSpace(rest[0])
    requires forall k :: 0 <= k < |word| ==> !IsSpace(word[k])
    ensures SkipWord(s, i) == i + |word|
  {
    assert |s| - i == |word| + |rest|;
    forall p | i <= p < i + |word| ensures !IsSpace(s[p]) {
      assert s[p] == s[i..][p - i] == word[p - i];
    }
    assert s[i + |word|] == s[i..][|word|] == rest[0];
  }

  lemma {:induction false} TailStartsWithSpace(fields: seq<string>)
    ensures Tail(fields) != "" && IsSpace(Tail(fields)[0])
  {
    if fields != [] {
      assert Tail(fields)[0] == ' ';
    }
  }

  /** For every command name, whatever spaces, newlines or parentheses it contains: the scan returns
      exactly field 22 when the line has one. A line that ends after field 21 gives an empty field and
      no error; a shorter one gives an error. */
  lemma StartTimeIsField22(pid: string, name: string, fields: seq<string>)
    requires forall k :: 0 <= k < |fields| ==> IsWord(fields[k])
    ensures StartTime(StatLine(pid, name, fields)) ==
            if 20 <= |fields| then Some(fields[19]) else if |fields| == 19 then Some("") else None
  {
    var s := StatLine(pid, name, fields);
    var head := pid + " (" + name;
    assert s == head + ")" + Tail(fields);
    TailHasNoParen(fields);
    LastParenIsLast(head, Tail(fields));
    FieldAfterParen(head, fields);
  }

  lemma FieldAfterParen(head: string, fields: seq<string>)
    requires forall k :: 0 <= k < |fields| ==> IsWord(fields[k])
    ensures var s := head + ")" + Tail(fields);
            var w := NthWord(s, |head|, 20);
            && (20 <= |fields| ==> w.Some? && s[w.value..SkipWord(s, w.value)] == fields[19])
            && (|fields| == 19 ==> w.Some? && s[w.value..SkipWord(s, w.value)] == "")
            && (|fields| < 19 ==> w.None?)
  {
    hide Tail, SkipWord, NthWord;
    var s := head + ")" + Tail(fields);
    assert s[|head|..] == ")" + Tail(fields);
    WordsAreFields(s, |head|, ")", fields, 20);
    if 20 <= |fields| {
      var w := NthWord(s, |head|, 20).value;
      assert IsWord(fields[19]);
      TailStartsWithSpace(fields[20..]);
      SkipsExactly(s, w, fields[19], Tail(fields[20..]));
      assert s[w..w + |fields[19]|] == s[w..][..|fields[19]|] == fields[19];
    }
  }

  /** The signature qualifies the start time of the process with the incarnation of the system. */
  function Signature(incarnation: string, startTime: string): string {
    incarnation + ":" + startTime
  }

  /** The incarnation comes first, then a colon, then the start time. */
  lemma SignatureParts(incarnation: string, startTime: string)
    ensures var s := Signature(incarnation, startTime);
            && |s| == |incarnation| + 1 + |startTime| && s[|incarnation|] == ':'
            && s[..|incarnation|] == incarnation && s[|incarnation| + 1..] == startTime
  {
  }

  /** Two different incarnations or start times never give the same signature: the start time contains
      no colon, so the last colon separates the two. */
  lemma SignatureIsInjective(i1: string, t1: string, i2: string, t2: string)
    requires ':' !in t1 && ':' !in t2
    requires Signature(i1, t1) == Signature(i2, t2)
    ensures i1 == i2 && t1 == t2
  {
    var s := Signature(i1, t1);
    assert s[|i1|] == ':' && s[|i2|] == ':';
    forall k | |i1| < k < |s| ensures s[k] != ':' {
      assert s[k] == t1[k - |i1| - 1];
    }
    forall k | |i2| < k < |s| ensures s[k] != ':' {
      assert s[k] == t2[k - |i2| - 1];
    }
    assert s[..|i1|] == i1 && s[|i1| + 1..] == t1;
    assert s[..|i2|] == i2 && s[|i2| + 1..] == t2;
  }

  // ------------------------------------------------------------------------------------------
  // The wire format

  type Octet = c: char | c as int < 256 witness 'a'

  /** The longest signature the wire carries. */
  const MAX_SIGNATURE: nat := 1024

  /** A native integer of k octets, least significant first. */
  function Integer(n: nat, k: nat): (s: seq<Octet>)
    ensures |s| == k
  {
    if k == 0 then [] else [(n % 256) as char] + Integer(n / 256, k - 1)
  }

  function Value(s: seq<Octet>): nat {
    if s == [] then 0 else s[0] as int + 256 * Value(s[1..])
  }

  function Pow256(k: nat): nat {
    if k == 0 then 1 else 256 * Pow256(k - 1)
  }

  lemma {:induction false} ValueOfInteger(n: nat, k: nat)
    requires n < Pow256(k)
    ensures Value(Integer(n, k)) == n
  {
    if k == 0 {
    } else {
      ValueOfInteger(n / 256, k - 1);
      assert Integer(n, k)[1..] == Integer(n / 256, k - 1);
    }
  }

  lemma SplitOctet(low: nat, high: nat)
    requires low < 256
    ensures (low + 256 * high) % 256 == low && (low + 256 * high) / 256 == high
  {
  }

  lemma {:induction false} IntegerOfValue(s: seq<Octet>)
    ensures Value(s) < Pow256(|s|) && Integer(Value(s), |s|) == s
  {
    if s == [] {
    } else {
      IntegerOfValue(s[1..]);
      SplitOctet(s[0] as int, Value(s[1..]));
    }
  }

  lemma DivideTwice(n: nat, b: nat)
    requires b > 0
    ensures n / 256 / b == n / (256 * b)
  {
    var q := n / 256 / b;
    var low, high := n % 256, n / 256 % b;
    assert n / 256 == q * b + high;
    assert n == 256 * (q * b + high) + low;
    assert 0 <= 256 * high + low < 256 * b;
    Quotient(n, 256 * b, q, 256 * high + low);
  }

  lemma Multiples(a: nat, b: nat, d: nat)
    requires a < b
    ensures a * d + d <= b * d
  {
    var more := b - a - 1;
    assert b * d == (a + 1 + more) * d == a * d + d + more * d;
  }

  lemma Quotient(n: nat, d: nat, q: nat, r: nat)
    requires d > 0 && n == q * d + r && r < d
    ensures n / d == q
  {
    var p, s := n / d, n % d;
    assert n == p * d + s;
    if p < q {
      Multiples(p, q, d);
    } else if q < p {
      Multiples(q, p, d);
    }
  }

  /** The octets of an integer. */
  lemma {:induction false} IntegerAt(n: nat, k: nat, i: nat)
    requires i < k
    ensures Pow256(i) > 0 && Integer(n, k)[i] as int == n / Pow256(i) % 256
  {
    if i > 0 {
      IntegerAt(n / 256, k - 1, i - 1);
      DivideTwice(n, Pow256(i - 1));
    }
  }

  const PID_SIZE: nat := 4
  const PID_LIMIT: nat := 0x8000_0000

  predicate IsPid(pid: int) {
    0 - PID_LIMIT as int <= pid < PID_LIMIT as int
  }

  function PidBits(pid: int): nat
    requires IsPid(pid)
  {
    if pid < 0 then pid + 2 * PID_LIMIT else pid
  }

  function PidOfBits(n: nat): int {
    if n < PID_LIMIT then n else n - 2 * PID_LIMIT
  }

  predicate IsOctets(s: string) {
    forall k :: 0 <= k < |s| ==> s[k] as int < 256
  }

  /** A C string of octets: no NUL inside. */
  predicate IsCString(s: string) {
    IsOctets(s) && NUL !in s
  }

  function AsOctets(s: string): (t: seq<Octet>)
    requires IsOctets(s)
    ensures t == s
  {
    if s == "" then [] else [s[0]] + AsOctets(s[1..])
  }

  /** sendPidSignature on a system whose size_t has w octets; None for a signature that is too long. */
  function Sent(id: Ident, w: nat): Option<seq<Octet>>
    requires IsPid(id.pid) && IsOctets(id.signature)
  {
    if MAX_SIGNATURE < |id.signature| then None
    else Some(Integer(PidBits(id.pid), PID_SIZE) + Integer(|id.signature|, w) + AsOctets(id.signature))
  }

  /** What is on the wire: four octets of the pid in two's complement, then the length of the signature, both least
      significant octet first, then the signature without its terminating NUL. */
  lemma WireLayout(id: Ident, w: nat, i: nat)
    requires IsPid(id.pid) && IsOctets(id.signature) && |id.signature| <= MAX_SIGNATURE
    requires i < PID_SIZE + w + |id.signature|
    ensures Pow256(i) > 0 && (PID_SIZE <= i ==> Pow256(i - PID_SIZE) > 0)
    ensures Sent(id, w).Some? && |Sent(id, w).value| == PID_SIZE + w + |id.signature|
    ensures Sent(id, w).value[i] as int ==
            if i < PID_SIZE then (if id.pid < 0 then id.pid + 0x1_0000_0000 else id.pid) / Pow256(i) % 256
            else if i < PID_SIZE + w then |id.signature| / Pow256(i - PID_SIZE) % 256
            else id.signature[i - PID_SIZE - w] as int
  {
    IntegerAt(0, i + 1, i);
    if i < PID_SIZE {
      IntegerAt(PidBits(id.pid), PID_SIZE, i);
    } else {
      IntegerAt(0, i - PID_SIZE + 1, i - PID_SIZE);
      if i < PID_SIZE + w {
        IntegerAt(|id.signature|, w, i - PID_SIZE);
      }
    }
  }

  datatype Received = Received(id: Ident, rest: seq<Octet>) | EndOfStream | TooLong | EmbeddedNul

  /** recvPidSignature */
  function Receive(stream: seq<Octet>, w: nat): Received {
    if |stream| < PID_SIZE + w then EndOfStream
    else
      var pid := PidOfBits(Value(stream[..PID_SIZE]));
      var length := Value(stream[PID_SIZE..PID_SIZE + w]);
      if MAX_SIGNATURE < length then TooLong
      else if |stream| < PID_SIZE + w + length then EndOfStream
      else
        var signature := stream[PID_SIZE + w..PID_SIZE + w + length];
        if NUL in signature then EmbeddedNul
        else Received.Received(Ident(pid, signature), stream[PID_SIZE + w + length..])
  }

  /** Receiving from a stream that begins with a sent signature returns that pid and signature and
      consumes exactly its octets. */
  lemma ReceiveSent(id: Ident, w: nat, rest: seq<Octet>)
    requires w == 4 || w == 8
    requires IsPid(id.pid) && IsCString(id.signature) && |id.signature| <= MAX_SIGNATURE
    ensures Receive(Sent(id, w).value + rest, w) == Received.Received(id, rest)
  {
    var p := Integer(PidBits(id.pid), PID_SIZE);
    var n := Integer(|id.signature|, w);
    Widths();
    ValueOfInteger(PidBits(id.pid), PID_SIZE);
    ValueOfInteger(|id.signature|, w);
    hide Integer, Value, Pow256, AsOctets;
    var stream := p + n + AsOctets(id.signature) + rest;
    assert Sent(id, w).value + rest == stream;
    Slices(p, n, AsOctets(id.signature), rest);
  }

  lemma Widths()
    ensures Pow256(4) == 0x1_0000_0000 && Pow256(8) == 0x1_0000_0000_0000_0000
  {
    assert Pow256(8) == 0x1_0000_0000 * Pow256(4);
  }

  lemma Slices(p: seq<Octet>, n: seq<Octet>, t: seq<Octet>, rest: seq<Octet>)
    ensures var stream := p + n + t + rest;
            && stream[..|p|] == p
            && stream[|p|..|p| + |n|] == n
            && stream[|p| + |n|..|p| + |n| + |t|] == t
            && stream[|p| + |n| + |t|..] == rest
  {
  }

  /** Whatever is accepted was sent: the accepted stream is the sent form of the result, followed by
      what is left; so nothing too long and nothing with an embedded NUL is accepted. */
  lemma ReceivedWasSent(stream: seq<Octet>, w: nat)
    requires Receive(stream, w).Received?
    ensures var r := Receive(stream, w);
            && IsPid(r.id.pid) && IsCString(r.id.signature) && |r.id.signature| <= MAX_SIGNATURE
            && Sent(r.id, w).value + r.rest == stream
  {
    var r := Receive(stream, w);
    var length := Value(stream[PID_SIZE..PID_SIZE + w]);
    IntegerOfValue(stream[..PID_SIZE]);
    IntegerOfValue(stream[PID_SIZE..PID_SIZE + w]);
    assert Pow256(4) == 0x1_0000_0000;
    assert PidBits(r.id.pid) == Value(stream[..PID_SIZE]);
    assert stream == stream[..PID_SIZE] + stream[PID_SIZE..PID_SIZE + w]
                     + stream[PID_SIZE + w..PID_SIZE + w + length] + stream[PID_SIZE + w + length..];
  }

  /** A stream of octets; what has been written and not yet read. */
  class Stream {
    var data: seq<Octet>

    constructor ()
      ensures data == []
    {
      data := [];
    }

    /** Writes until everything is written, or until the far end has taken no more before the deadline. */
    method Write(s: seq<Octet>, room: nat) returns (n: nat)
      modifies this
      ensures n == (if |s| <= room then |s| else room) && data == old(data) + Prefix(s, room)
    {
      n := if |s| <= room then |s| else room;
      data := data + s[..n];
      assert s[..n] == Prefix(s, room);
    }

    /** Fewer octets than asked for are returned only at the end of the stream. */
    method Read(n: nat) returns (s: seq<Octet>)
      modifies this
      ensures s + data == old(data)
      ensures |s| == if |old(data)| < n then |old(data)| else n
    {
      var k := if |data| < n then |data| else n;
      s := data[..k];
      data := data[k..];
    }
  }

  function Prefix(s: seq<Octet>, n: nat): seq<Octet> {
    if |s| <= n then s else s[..n]
  }

  lemma PrefixOfSum(a: seq<Octet>, b: seq<Octet>, n: nat)
    ensures Prefix(a + b, n) == if n < |a| then Prefix(a, n) else a + Prefix(b, n - |a|)
  {
  }

  /** Three writes; the far end takes no more than room octets in all. */
  method SendPidSignature(f: Stream, id: Ident, w: nat, room: nat) returns (ok: bool)
    requires IsPid(id.pid) && IsOctets(id.signature)
    modifies f
    ensures ok <==> Sent(id, w).Some? && |Sent(id, w).value| <= room
    ensures f.data == old(f.data) + if Sent(id, w).Some? then Prefix(Sent(id, w).value, room) else []
  {
    hide Integer, PidBits, AsOctets;
    if MAX_SIGNATURE < |id.signature| {
      return false;
    }
    var pid := Integer(PidBits(id.pid), PID_SIZE);
    var length := Integer(|id.signature|, w);
    var signature := AsOctets(id.signature);
    PrefixOfSum(pid + length, signature, room);
    PrefixOfSum(pid, length, room);
    var n := f.Write(pid, room);
    if n != |pid| {
      return false;
    }
    var m := f.Write(length, room - n);
    if m != |length| {
      return false;
    }
    var k := f.Write(signature, room - n - m);
    ok := k == |signature|;
  }

  method RecvPidSignature(f: Stream, w: nat) returns (r: Received)
    modifies f
    ensures r == Receive(old(f.data), w)
    ensures r.Received? ==> f.data == r.rest
    ensures r.EndOfStream? ==> f.data == []
    ensures r.TooLong? ==> PID_SIZE + w <= |old(f.data)| && f.data == old(f.data)[PID_SIZE + w..]
    ensures r.EmbeddedNul? ==>
              && PID_SIZE + w <= |old(f.data)|
              && var taken := PID_SIZE + w + Value(old(f.data)[PID_SIZE..PID_SIZE + w]);
              taken <= |old(f.data)| && f.data == old(f.data)[taken..]
  {
    ghost var stream := f.data;
    var pid := f.Read(PID_SIZE);
    if |pid| != PID_SIZE {
      return EndOfStream;
    }
    assert stream[..PID_SIZE] == pid && stream[PID_SIZE..] == f.data;
    var size := f.Read(w);
    if |size| != w {
      return EndOfStream;
    }
    assert stream[PID_SIZE..PID_SIZE + w] == size && stream[PID_SIZE + w..] == f.data;
    var length := Value(size);
    if MAX_SIGNATURE < length {
      return TooLong;
    }
    var signature := f.Read(length);
    if |signature| != length {
      return EndOfStream;
    }
    assert stream[PID_SIZE + w..PID_SIZE + w + length] == signature && stream[PID_SIZE + w + length..] == f.data;
    if NUL in signature {
      return EmbeddedNul;
    }
    r := Received.Received(Ident(PidOfBits(Value(pid)), signature), f.data);
  }

  // ------------------------------------------------------------------------------------------
  // Comparison

  /** strcmp, on strings without their terminating NUL. */
  function StrCmp(a: string, b: string): int {
    if a == "" && b == "" then 0
    else if a == "" then 0 - b[0] as int
    else if b == "" then a[0] as int
    else if a[0] != b[0] then a[0] as int - b[0] as int
    else StrCmp(a[1..], b[1..])
  }

  /** rankPidSignature */
  function Rank(a: Ident, b: Ident): int {
    if a.pid < b.pid then -1 else if a.pid > b.pid then 1 else StrCmp(a.signature, b.signature)
  }

  lemma {:induction false} StrCmpIsOrder(a: string, b: string)
    requires NUL !in a && NUL !in b
    ensures StrCmp(a, b) == 0 <==> a == b
    ensures StrCmp(a, b) == 0 - StrCmp(b, a)
  {
    if a != "" && b != "" && a[0] == b[0] {
      StrCmpIsOrder(a[1..], b[1..]);
      assert a == [a[0]] + a[1..] && b == [b[0]] + b[1..];
    } else if a == "" && b != "" {
      assert b[0] in b;
    } else if a != "" && b == "" {
      assert a[0] in a;
    }
  }

  lemma {:induction false} StrCmpIsTransitive(a: string, b: string, c: string)
    requires NUL !in a && NUL !in b && NUL !in c
    requires StrCmp(a, b) <= 0 && StrCmp(b, c) <= 0
    ensures StrCmp(a, c) <= 0
  {
    assert a != "" ==> a[0] in a;
    assert b != "" ==> b[0] in b;
    if a != "" && b != "" && c != "" && a[0] == b[0] == c[0] {
      StrCmpIsTransitive(a[1..], b[1..], c[1..]);
    }
  }

  lemma {:induction false} StrCmpMeans(a: string, b: string, n: nat)
    requires NUL !in a && NUL !in b && n <= |a| && n <= |b| && a[..n] == b[..n]
    ensures n < |a| && n < |b| && a[n] < b[n] ==> StrCmp(a, b) < 0
    ensures n == |a| < |b| ==> StrCmp(a, b) < 0
    decreases n
  {
    if n > 0 {
      assert a[0] == a[..n][0] == b[..n][0] == b[0];
      assert a[1..][..n - 1] == a[..n][1..] && b[1..][..n - 1] == b[..n][1..];
      StrCmpMeans(a[1..], b[1..], n - 1);
    } else if a == "" && b != "" {
      assert b[0] in b;
    }
  }

  /** The order: the smaller pid comes first; with equal pids, the signature that is a proper prefix of the other,
      or that has the smaller character where the two first differ. */
  lemma RankMeans(a: Ident, b: Ident, n: nat)
    requires IsCString(a.signature) && IsCString(b.signature)
    ensures a.pid < b.pid ==> Rank(a, b) < 0
    ensures a.pid == b.pid && n <= |a.signature| && n <= |b.signature| && a.signature[..n] == b.signature[..n] ==>
              && (n < |a.signature| && n < |b.signature| && a.signature[n] < b.signature[n] ==> Rank(a, b) < 0)
              && (n == |a.signature| < |b.signature| ==> Rank(a, b) < 0)
  {
    if n <= |a.signature| && n <= |b.signature| && a.signature[..n] == b.signature[..n] {
      StrCmpMeans(a.signature, b.signature, n);
    }
  }

  /** Comparing is a total order on identities that is zero exactly on equality, so the pid server
      accepts the signature of its own child and no other. */
  lemma RankIsTotalOrder(a: Ident, b: Ident, c: Ident)
    requires IsCString(a.signature) && IsCString(b.signature) && IsCString(c.signature)
    ensures Rank(a, b) == 0 <==> a == b
    ensures Rank(a, b) < 0 <==> Rank(b, a) > 0
    ensures Rank(a, b) <= 0 && Rank(b, c) <= 0 ==> Rank(a, c) <= 0
  {
    StrCmpIsOrder(a.signature, b.signature);
    if Rank(a, b) <= 0 && Rank(b, c) <= 0 && a.pid == b.pid == c.pid {
      StrCmpIsTransitive(a.signature, b.signature, c.signature);
    }
  }
}
