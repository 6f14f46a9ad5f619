/** The text of a pid file: how the sentry prints it and how it is read back. */
module PidFileText {
  import opened Common

  const NEWLINE: char := '\n'

  /** The size limit of the text and the size of sun_path. */
  const LIMIT: nat := 1024
  const SUN_PATH: nat := 108

  // ------------------------------------------------------------------------------------------
  // Decimal numbers

  const MAX_PID: nat := 0x7fff_ffff

  predicate IsDigit(c: char) {
    '0' <= c <= '9'
  }

  function Decimal(n: nat): (s: string)
    ensures s != "" && forall k :: 0 <= k < |s| ==> IsDigit(s[k])
  {
    var digit := ('0' as int + n % 10) as char;
    if n < 10 then [digit] else Decimal(n / 10) + [digit]
  }

  function DigitsValue(s: string): int
    requires forall k :: 0 <= k < |s| ==> IsDigit(s[k])
  {
    if s == "" then 0 else 10 * DigitsValue(s[..|s| - 1]) + (s[|s| - 1] as int - '0' as int)
  }

  /** ert_parsePid, which is not part of this model, is taken to accept exactly the decimal numbers that
      fit a pid. */
  function ParsePid(s: string): Option<int> {
    if s == "" || exists k :: 0 <= k < |s| && !IsDigit(s[k]) then None
    else if MAX_PID < DigitsValue(s) then None
    else Some(DigitsValue(s))
  }

  lemma {:induction false} DecimalValue(n: nat)
    ensures DigitsValue(Decimal(n)) == n
  {
    if n >= 10 {
      DecimalValue(n / 10);
      assert Decimal(n)[..|Decimal(n)| - 1] == Decimal(n / 10);
    }
  }

  // ------------------------------------------------------------------------------------------
  // Printing

  /** Four lines, each ended by a newline; the second is blank when the text is printed. */
  function Lines(pid: string, blank: string, signature: string, address: string): string {
    pid + "\n" + blank + "\n" + signature + "\n" + address + "\n"
  }

  /** The text for a process and the address of its pid server; None when it is too long. */
  function Printed(pid: nat, signature: string, address: string): Option<string> {
    var text := Lines(Decimal(pid), "", signature, address);
    if LIMIT < |text| then None else Some(text)
  }

  predicate IsLine(s: string) {
    NEWLINE !in s && NUL !in s
  }

  /** What is printed: the pid without leading zeros, a blank line, the signature, and the address; or nothing, when
      this exceeds the limit. */
  lemma PrintedLayout(pid: nat, signature: string, address: string)
    ensures var text := Decimal(pid) + "\n\n" + signature + "\n" + address + "\n";
            Printed(pid, signature, address) == if LIMIT < |text| then None else Some(text)
    ensures DigitsValue(Decimal(pid)) == pid && (Decimal(pid)[0] == '0' ==> pid == 0)
  {
    assert Lines(Decimal(pid), "", signature, address) ==
           Decimal(pid) + "\n\n" + signature + "\n" + address + "\n";
    DecimalValue(pid);
    NoLeadingZero(pid);
  }

  lemma {:induction false} NoLeadingZero(n: nat)
    ensures Decimal(n)[0] == '0' ==> n == 0
  {
    if n >= 10 {
      NoLeadingZero(n / 10);
    }
  }

  /** What createPidFile_ demands of the abstract address: it is not empty and leaves room for the
      leading and the trailing NUL of sun_path. */
  predicate IsAddress(s: string) {
    1 <= |s| <= SUN_PATH - 2 && NUL !in s
  }

  // ------------------------------------------------------------------------------------------
  // Reading

  /** Pid 0 and pid -1 in the code are Stale and Malformed here. */
  datatype Content = Authentic(who: Ident, sunPath: string) | Stale | Malformed | AddressTooLong

  /** strchr: the position of the first c at or after i. */
  function Find(s: string, c: char, i: nat): (j: Option<nat>)
    requires i <= |s|
    ensures j.Some? ==> i <= j.value < |s| && s[j.value] == c && forall k :: i <= k < j.value ==> s[k] != c
    ensures j.None? ==> forall k :: i <= k < |s| ==> s[k] != c
    decreases |s| - i
  {
    if i == |s| then None else if s[i] == c then Some(i) else Find(s, c, i + 1)
  }

  /** A buffer as a C string: what comes before the first NUL. */
  function CString(buf: string): string {
    match Find(buf, NUL, 0)
    case None => buf
    case Some(i) => buf[..i]
  }

  function SunPath(address: string): string {
    [NUL] + address + Repeat(NUL, if |address| + 1 < SUN_PATH then SUN_PATH - |address| - 1 else 0)
  }

  /** Where the first three lines end, when the text is well formed. */
  function LineEnds(s: string): (ends: Option<(nat, nat, nat)>)
    ensures ends.Some? ==> ends.value.0 < ends.value.1 < ends.value.2 < |s| - 1
  {
    match Find(s, NEWLINE, 0)
    case None => None
    case Some(sep) =>
      match Find(s, NEWLINE, sep + 1)
      case None => None
      case Some(sig) =>
        match Find(s, NEWLINE, sig + 1)
        case None => None
        case Some(addr) => if addr + 1 == |s| || s[|s| - 1] != NEWLINE then None else Some((sep, sig, addr))
  }

  /** readPidFile_, given the signatures of the processes that exist. */
  function Parse(s: string, processes: map<int, string>): Content {
    match LineEnds(s)
    case None => Malformed
    case Some((sep, sig, addr)) =>
      var pid := ParsePid(s[..sep]);
      if pid.None? || pid.value == 0 then Malformed
      else
        var signature := s[sig + 1..addr];
        var address := s[addr + 1..|s| - 1];
        if SUN_PATH < |address| + 2 then AddressTooLong
        else if pid.value in processes && processes[pid.value] == signature then
          Authentic(Ident(pid.value, signature), SunPath(address))
        else Stale
  }

  /** readPidFile: a file that is larger than the limit is malformed. */
  function Read(file: string, processes: map<int, string>): Content {
    if LIMIT < |file| then Malformed else Parse(CString(file), processes)
  }

  // ------------------------------------------------------------------------------------------
  // The reader in place

  method StrChr(buf: array<char>, c: char, start: nat, end: nat) returns (i: Option<nat>)
    requires start <= end <= buf.Length
    ensures i == Find(buf[..end], c, start)
  {
    var k := start;
    while k < end && buf[k] != c
      invariant start <= k <= end
      invariant Find(buf[..end], c, start) == Find(buf[..end], c, k)
    {
      k := k + 1;
    }
    i := if k == end then None else Some(k);
  }

  /** The C string that starts at a position of the buffer. */
  function StringAt(buf: string, i: nat): string
    requires i <= |buf|
  {
    CString(buf[i..])
  }

  lemma StringAtEndsAtNul(buf: string, i: nat, end: nat)
    requires i <= end < |buf| && buf[end] == NUL && forall k :: i <= k < end ==> buf[k] != NUL
    ensures StringAt(buf, i) == buf[i..end]
  {
    var s := buf[i..];
    assert s[end - i] == NUL;
    assert forall k :: 0 <= k < end - i ==> s[k] == buf[i + k];
    assert Find(s, NUL, 0) == Some(end - i);
  }

  method FindLineEnds(buf: array<char>, end: nat) returns (ends: Option<(nat, nat, nat)>)
    requires end <= buf.Length
    ensures ends == LineEnds(buf[..end])
  {
    var sep := StrChr(buf, NEWLINE, 0, end);
    if sep.None? {
      return None;
    }
    var sig := StrChr(buf, NEWLINE, sep.value + 1, end);
    if sig.None? {
      return None;
    }
    var addr := StrChr(buf, NEWLINE, sig.value + 1, end);
    if addr.None? || addr.value + 1 == end || buf[end - 1] != NEWLINE {
      return None;
    }
    ends := Some((sep.value, sig.value, addr.value));
  }

  /** The four lines become C strings in place. */
  method SplitLines(buf: array<char>, end: nat, sep: nat, sig: nat, addr: nat)
    returns (pid: string, signature: string, address: string)
    requires end <= buf.Length && sep < sig < addr < end - 1
    requires forall k :: 0 <= k < end ==> buf[k] != NUL
    modifies buf
    ensures pid == old(buf[..sep]) && signature == old(buf[sig + 1..addr]) && address == old(buf[addr + 1..end - 1])
    ensures forall k :: 0 <= k < buf.Length ==>
              buf[k] == if k in {sep, sig, addr, end - 1} then NUL else old(buf[k])
  {
    hide StringAt;
    buf[sep], buf[sig], buf[addr], buf[end - 1] := NUL, NUL, NUL, NUL;
    StringAtEndsAtNul(buf[..], 0, sep);
    StringAtEndsAtNul(buf[..], sig + 1, addr);
    StringAtEndsAtNul(buf[..], addr + 1, end - 1);
    pid, signature, address := StringAt(buf[..], 0), StringAt(buf[..], sig + 1), StringAt(buf[..], addr + 1);
  }

  /** readPidFile_ on the buffer itself: it finds the line ends, overwrites them with NULs, and reads the
      pid, the signature and the address as C strings. */
  method ParseInPlace(buf: array<char>, processes: map<int, string>) returns (content: Content)
    requires NUL in buf[..]
    modifies buf
    ensures content == Parse(CString(old(buf[..])), processes)
  {
    hide Find, LineEnds, ParsePid, SunPath;
    var nul := StrChr(buf, NUL, 0, buf.Length);
    assert buf[..buf.Length] == buf[..];
    var end := nul.value;
    ghost var s := buf[..end];
    assert CString(buf[..]) == s;
    var ends := FindLineEnds(buf, end);
    if ends.None? {
      return Malformed;
    }
    var (sep, sig, addr) := ends.value;
    assert s[..sep] == buf[..sep] && s[sig + 1..addr] == buf[sig + 1..addr] &&
           s[addr + 1..|s| - 1] == buf[addr + 1..end - 1];
    var pidText, signature, address := SplitLines(buf, end, sep, sig, addr);
    var pid := ParsePid(pidText);
    if pid.None? || pid.value == 0 {
      return Malformed;
    }
    if SUN_PATH < |address| + 2 {
      return AddressTooLong;
    }
    content := if pid.value in processes && processes[pid.value] == signature
               then Authentic(Ident(pid.value, signature), SunPath(address)) else Stale;
  }

  /** readPidFile: fills a buffer one octet larger than the limit, and tries to read one octet more
      when the buffer is not full. */
  method ReadPidFile(file: string, processes: map<int, string>) returns (content: Content)
    ensures content == Read(file, processes)
  {
    var size := LIMIT + 1;
    var length := if |file| < size then |file| else size;
    if length < size {
      var last := if length < |file| then 1 else 0;
      if last == 0 {
        var buf := new char[size](i => if 0 <= i < |file| then file[i] else NUL);
        assert buf[..][|file|] == NUL;
        assert buf[..][..|file|] == file;
        CStringOfPadded(file, buf[..]);
        content := ParseInPlace(buf, processes);
        return;
      }
    }
    content := Malformed;
  }

  lemma CStringOfPadded(file: string, buf: string)
    requires |file| < |buf| && buf[..|file|] == file && buf[|file|] == NUL
    ensures CString(buf) == CString(file)
  {
    var i := Find(buf, NUL, 0).value;
    assert i <= |file|;
    assert forall k :: 0 <= k < |file| ==> file[k] == buf[k];
    if i < |file| {
      assert Find(file, NUL, 0) == Some(i);
    }
  }

  // ------------------------------------------------------------------------------------------
  // Round trip

  lemma FindFirst(s: string, c: char, i: nat, j: nat)
    requires i <= j < |s| && s[j] == c && forall k :: i <= k < j ==> s[k] != c
    ensures Find(s, c, i) == Some(j)
  {
    var f := Find(s, c, i);
    assert f.Some?;
  }

  lemma LinesSlices(pid: string, blank: string, signature: string, address: string)
    ensures var s := Lines(pid, blank, signature, address);
            var sep := |pid|;
            var sig := sep + 1 + |blank|;
            var addr := sig + 1 + |signature|;
            && |s| == addr + |address| + 2
            && s[sep] == NEWLINE && s[sig] == NEWLINE && s[addr] == NEWLINE && s[|s| - 1] == NEWLINE
            && s[..sep] == pid && s[sep + 1..sig] == blank && s[sig + 1..addr] == signature
            && s[addr + 1..|s| - 1] == address
  {
  }

  lemma NotInSlice(s: string, i: nat, j: nat, c: char)
    requires i <= j <= |s| && c !in s[i..j]
    ensures forall k :: i <= k < j ==> s[k] != c
  {
    forall k | i <= k < j ensures s[k] != c {
      assert s[k] == s[i..j][k - i];
    }
  }

  /** Where the lines of a text of four lines end. */
  lemma LineEndsOfLines(pid: string, blank: string, signature: string, address: string)
    requires NEWLINE !in pid && NEWLINE !in blank && NEWLINE !in signature
    ensures var s := Lines(pid, blank, signature, address);
            var sep := |pid|;
            var sig := sep + 1 + |blank|;
            var addr := sig + 1 + |signature|;
            && LineEnds(s) == Some((sep, sig, addr))
            && s[..sep] == pid && s[sep + 1..sig] == blank && s[sig + 1..addr] == signature
            && s[addr + 1..|s| - 1] == address
  {
    LinesSlices(pid, blank, signature, address);
    hide Find, Lines;
    var s := Lines(pid, blank, signature, address);
    var sep := |pid|;
    var sig := sep + 1 + |blank|;
    var addr := sig + 1 + |signature|;
    NotInSlice(s, 0, sep, NEWLINE);
    NotInSlice(s, sep + 1, sig, NEWLINE);
    NotInSlice(s, sig + 1, addr, NEWLINE);
    FindFirst(s, NEWLINE, 0, sep);
    FindFirst(s, NEWLINE, sep + 1, sig);
    FindFirst(s, NEWLINE, sig + 1, addr);
  }

  /** What the scan has found. */
  lemma LineEndsMean(s: string)
    requires LineEnds(s).Some?
    ensures var (sep, sig, addr) := LineEnds(s).value;
            && s[sep] == NEWLINE && s[sig] == NEWLINE && s[addr] == NEWLINE && s[|s| - 1] == NEWLINE
            && (forall k :: 0 <= k < sep ==> s[k] != NEWLINE)
            && (forall k :: sep < k < sig ==> s[k] != NEWLINE)
            && (forall k :: sig < k < addr ==> s[k] != NEWLINE)
  {
  }

  lemma CutAt(s: string, i: nat, j: nat)
    requires i < j <= |s|
    ensures s[i..j] == [s[i]] + s[i + 1..j]
  {
  }

  lemma CutInFour(s: string, a: nat, b: nat, c: nat)
    requires a < b < c < |s| - 1
    ensures s == s[..a] + [s[a]] + s[a + 1..b] + [s[b]] + s[b + 1..c] + [s[c]] + s[c + 1..|s| - 1] + [s[|s| - 1]]
  {
    var z := |s| - 1;
    CutAt(s, a, b);
    CutAt(s, b, c);
    CutAt(s, c, z);
    assert s == s[..a] + s[a..b] + s[b..c] + s[c..z] + [s[z]];
  }

  /** Whatever is not malformed consists of four lines, the last of which may hold newlines. */
  lemma WellFormedHasLines(s: string)
    requires LineEnds(s).Some?
    ensures var (sep, sig, addr) := LineEnds(s).value;
            && s == Lines(s[..sep], s[sep + 1..sig], s[sig + 1..addr], s[addr + 1..|s| - 1])
            && NEWLINE !in s[..sep] && NEWLINE !in s[sep + 1..sig] && NEWLINE !in s[sig + 1..addr]
  {
    hide LineEnds, Find, Lines;
    var (sep, sig, addr) := LineEnds(s).value;
    LineEndsMean(s);
    AreLines(s, sep, sig, addr);
    AbsentFromSlice(s, 0, sep, NEWLINE);
    AbsentFromSlice(s, sep + 1, sig, NEWLINE);
    AbsentFromSlice(s, sig + 1, addr, NEWLINE);
  }

  lemma AreLines(s: string, a: nat, b: nat, c: nat)
    requires a < b < c < |s| - 1
    requires s[a] == NEWLINE && s[b] == NEWLINE && s[c] == NEWLINE && s[|s| - 1] == NEWLINE
    ensures s == Lines(s[..a], s[a + 1..b], s[b + 1..c], s[c + 1..|s| - 1])
  {
    CutInFour(s, a, b, c);
  }

  lemma AbsentFromSlice(s: string, i: nat, j: nat, c: char)
    requires i <= j <= |s| && forall k :: i <= k < j ==> s[k] != c
    ensures c !in s[i..j]
  {
  }

  lemma CStringOfCString(s: string)
    requires NUL !in s
    ensures CString(s) == s
  {
    if Find(s, NUL, 0).Some? {
      assert false;
    }
  }

  /** Round trip: the text printed for a process is read back as that process, with its signature and
      the zero padded address of its pid server, while the process exists; and as stale afterwards. */
  lemma ReadPrinted(pid: nat, signature: string, address: string, processes: map<int, string>)
    requires 0 < pid <= MAX_PID && IsLine(signature) && IsAddress(address)
    requires Printed(pid, signature, address).Some?
    ensures var content := Read(Printed(pid, signature, address).value, processes);
            if pid in processes && processes[pid] == signature then
              content == Authentic(Ident(pid, signature), SunPath(address)) && |SunPath(address)| == SUN_PATH
            else content == Stale
  {
    hide Find, LineEnds, CString, Decimal, DigitsValue;
    var digits := Decimal(pid);
    var text := Lines(digits, "", signature, address);
    assert Printed(pid, signature, address) == Some(text);
    assert NUL !in text && NEWLINE !in digits;
    CStringOfCString(text);
    LineEndsOfLines(digits, "", signature, address);
    DecimalValue(pid);
  }

  /** A file is read as an authentic process exactly when it fits the limit and holds, up to the first
      NUL, the pid and the signature of an existing process and an address that fits; the reader takes even an
      empty one. */
  lemma AuthenticIff(file: string, processes: map<int, string>, who: Ident, sunPath: string)
    ensures Read(file, processes) == Authentic(who, sunPath) <==>
            && |file| <= LIMIT && who.pid != 0
            && who.pid in processes && processes[who.pid] == who.signature
            && exists pid, blank, address ::
                IsText(CString(file), pid, blank, who, address) && sunPath == SunPath(address)
  {
    hide Find, LineEnds, CString, ParsePid, SunPath;
    var s := CString(file);
    if Read(file, processes) == Authentic(who, sunPath) {
      WellFormedHasLines(s);
      var (sep, sig, addr) := LineEnds(s).value;
      assert IsText(s, s[..sep], s[sep + 1..sig], who, s[addr + 1..|s| - 1]);
    }
    if |file| <= LIMIT && who.pid != 0 && who.pid in processes && processes[who.pid] == who.signature {
      forall pid, blank, address | IsText(s, pid, blank, who, address) && sunPath == SunPath(address)
        ensures Read(file, processes) == Authentic(who, sunPath)
      {
        LineEndsOfLines(pid, blank, who.signature, address);
      }
    }
  }

  predicate IsText(s: string, pid: string, blank: string, who: Ident, address: string) {
    && s == Lines(pid, blank, who.signature, address)
    && ParsePid(pid) == Some(who.pid)
    && NEWLINE !in pid && NEWLINE !in blank && NEWLINE !in who.signature
    && |address| <= SUN_PATH - 2
  }

  /** Four lines, the first of which is the number of a process. */
  predicate IsFourLines(s: string, pid: string, blank: string, signature: string, address: string) {
    && s == Lines(pid, blank, signature, address)
    && NEWLINE !in pid && NEWLINE !in blank && NEWLINE !in signature
    && ParsePid(pid).Some? && ParsePid(pid) != Some(0)
  }

  lemma FourLinesAreRead(
    s: string, pid: string, blank: string, signature: string, address: string, processes: map<int, string>)
    requires IsFourLines(s, pid, blank, signature, address)
    ensures Parse(s, processes) ==
            var who := Ident(ParsePid(pid).value, signature);
            if SUN_PATH - 2 < |address| then AddressTooLong
            else if who.pid in processes && processes[who.pid] == signature then Authentic(who, SunPath(address))
            else Stale
  {
    hide Find, LineEnds, ParsePid, SunPath;
    LineEndsOfLines(pid, blank, signature, address);
  }

  lemma OnlyFourLinesAreRead(s: string, processes: map<int, string>)
    requires Parse(s, processes) != Malformed
    ensures exists pid, blank, signature, address :: IsFourLines(s, pid, blank, signature, address)
  {
    hide Find, LineEnds, ParsePid, SunPath;
    WellFormedHasLines(s);
    var (sep, sig, addr) := LineEnds(s).value;
    assert IsFourLines(s, s[..sep], s[sep + 1..sig], s[sig + 1..addr], s[addr + 1..|s| - 1]);
  }

  /** Exactly what every other file is read as, up to the first NUL. It is malformed when it exceeds the limit or
      is not four lines that begin with the number of a process; otherwise its address does not fit; otherwise
      it is stale, when that process does not exist or has another signature. */
  lemma ContentIff(file: string, processes: map<int, string>)
    ensures Read(file, processes).Malformed? <==>
            LIMIT < |file| || !exists pid, blank, signature, address ::
                                 IsFourLines(CString(file), pid, blank, signature, address)
    ensures Read(file, processes).AddressTooLong? <==>
            |file| <= LIMIT && exists pid, blank, signature, address ::
              IsFourLines(CString(file), pid, blank, signature, address) && SUN_PATH - 2 < |address|
    ensures Read(file, processes).Stale? <==>
            |file| <= LIMIT && exists pid, blank, signature, address ::
              && IsFourLines(CString(file), pid, blank, signature, address) && |address| <= SUN_PATH - 2
              && !(ParsePid(pid).value in processes && processes[ParsePid(pid).value] == signature)
  {
    hide CString, Parse, ParsePid, IsFourLines;
    var s := CString(file);
    if Parse(s, processes) != Malformed {
      OnlyFourLinesAreRead(s, processes);
    }
    forall pid, blank, signature, address | IsFourLines(s, pid, blank, signature, address)
      ensures ParsePid(pid).Some?
      ensures Parse(s, processes) ==
              if SUN_PATH - 2 < |address| then AddressTooLong
              else if ParsePid(pid).value in processes && processes[ParsePid(pid).value] == signature then
                Authentic(Ident(ParsePid(pid).value, signature), SunPath(address))
              else Stale
    {
      NamesAProcess(s, pid, blank, signature, address);
      FourLinesAreRead(s, pid, blank, signature, address, processes);
    }
  }

  lemma NamesAProcess(s: string, pid: string, blank: string, signature: string, address: string)
    requires IsFourLines(s, pid, blank, signature, address)
    ensures ParsePid(pid).Some?
  {
  }

  /** The name of an abstract socket: a NUL, the address, and NULs up to the size of sun_path. */
  lemma SunPathMeans(address: string, k: nat)
    requires |address| <= SUN_PATH - 2 && k < SUN_PATH
    ensures |SunPath(address)| == SUN_PATH
    ensures SunPath(address)[k] == if 1 <= k <= |address| then address[k - 1] else NUL
  {
    var padding := Repeat(NUL, SUN_PATH - |address| - 1);
    assert SunPath(address) == [NUL] + address + padding;
    if |address| < k {
      assert SunPath(address)[k] == padding[k - |address| - 1];
    }
  }

  function Newlines(s: string): nat {
    if s == "" then 0 else Newlines(s[..|s| - 1]) + if s[|s| - 1] == NEWLINE then 1 else 0
  }

  lemma {:induction false} NewlinesConcat(a: string, b: string)
    ensures Newlines(a + b) == Newlines(a) + Newlines(b)
  {
    if b == "" {
      assert a + b == a;
    } else {
      assert (a + b)[..|a + b| - 1] == a + b[..|b| - 1];
      NewlinesConcat(a, b[..|b| - 1]);
    }
  }

  lemma {:induction false} NoNewlines(s: string)
    requires NEWLINE !in s
    ensures Newlines(s) == 0
  {
    if s != "" {
      NoNewlines(s[..|s| - 1]);
    }
  }

  lemma NewlinesOfLines(pid: string, blank: string, signature: string, address: string)
    requires NEWLINE !in pid && NEWLINE !in blank && NEWLINE !in signature
    ensures Newlines(Lines(pid, blank, signature, address)) == 4 + Newlines(address)
  {
    NoNewlines(pid);
    NoNewlines(blank);
    NoNewlines(signature);
    NewlinesConcat(pid, "\n");
    NewlinesConcat(pid + "\n", blank);
    NewlinesConcat(pid + "\n" + blank, "\n");
    NewlinesConcat(pid + "\n" + blank + "\n", signature);
    NewlinesConcat(pid + "\n" + blank + "\n" + signature, "\n");
    NewlinesConcat(pid + "\n" + blank + "\n" + signature + "\n", address);
    NewlinesConcat(pid + "\n" + blank + "\n" + signature + "\n" + address, "\n");
  }

  /** A sentry that dies while it writes its pid file leaves a strict prefix of the text. Every strict
      prefix reads as malformed, so the next sentry may remove the file. */
  lemma TornTextIsMalformed(pid: nat, signature: string, address: string, n: nat, processes: map<int, string>)
    requires IsLine(signature) && IsAddress(address) && NEWLINE !in address
    requires Printed(pid, signature, address).Some? && n < |Printed(pid, signature, address).value|
    ensures Read(Printed(pid, signature, address).value[..n], processes) == Malformed
  {
    hide Find, LineEnds, CString, Decimal, Newlines;
    var text := Lines(Decimal(pid), "", signature, address);
    var torn := text[..n];
    assert NUL !in text && NEWLINE !in Decimal(pid);
    CStringOfCString(torn);
    NewlinesOfLines(Decimal(pid), "", signature, address);
    NoNewlines(address);
    assert text == torn + text[n..|text| - 1] + "\n";
    NewlinesConcat(torn, text[n..|text| - 1]);
    NewlinesConcat(torn + text[n..|text| - 1], "\n");
    OneNewline();
    assert Newlines(torn) < 4;
    if LineEnds(torn).Some? {
      FourNewlines(torn);
    }
  }

  lemma OneNewline()
    ensures Newlines("\n") == 1
  {
    assert "\n"[..0] == "";
  }

  lemma FourNewlines(s: string)
    requires LineEnds(s).Some?
    ensures 4 <= Newlines(s)
  {
    hide Find, Newlines;
    WellFormedHasLines(s);
    var (sep, sig, addr) := LineEnds(s).value;
    NewlinesOfLines(s[..sep], s[sep + 1..sig], s[sig + 1..addr], s[addr + 1..|s| - 1]);
  }
}
