/**
 * nightswatch.c: the `nightswatch` built-in. `handle_nightswatch` checks the
 * arguments; `night_interrupt` and `night_dirty` take one sample from a
 * /proc file; `nightswatch` repeats sample, key check, sleep, key check;
 * `get_me_out` decides whether a pending key asks to stop.
 *
 * The files are given as the lines fgets would return (None when fopen
 * fails), one snapshot per sample. The key checks of the loop are given as
 * the sequence of get_me_out verdicts; what is printed and slept is
 * returned instead of being performed.
 */
module Nightswatch {
  import opened Options
  import opened Strtok

  // ---- strtol(s, NULL, 10) ----

  /** isspace in the C locale. */
  predicate IsSpace(c: char)
  {
    c == ' ' || c == '\t' || c == '\n' || c == '\r' || c as int == 11 || c as int == 12
  }

  predicate IsDigit(c: char)
  {
    '0' <= c <= '9'
  }

  predicate AllDigits(s: string)
  {
    forall k :: 0 <= k < |s| ==> IsDigit(s[k])
  }

  /** The number of white-space characters at the front of `s`. */
  function SpaceRun(s: string): (n: nat)
    ensures n <= |s| && (n < |s| ==> !IsSpace(s[n]))
    ensures forall k :: 0 <= k < n ==> IsSpace(s[k])
  {
    if s != [] && IsSpace(s[0]) then 1 + SpaceRun(s[1..]) else 0
  }

  /** The number of digits at the front of `s`. */
  function DigitRun(s: string): (n: nat)
    ensures n <= |s| && (n < |s| ==> !IsDigit(s[n]))
    ensures forall k :: 0 <= k < n ==> IsDigit(s[k])
  {
    if s != [] && IsDigit(s[0]) then 1 + DigitRun(s[1..]) else 0
  }

  /** The number a string of decimal digits denotes. */
  function DecimalValue(d: string): nat
    requires AllDigits(d)
  {
    if d == [] then 0 else 10 * DecimalValue(d[..|d| - 1]) + ((d[|d| - 1] as int) - ('0' as int))
  }

  /** The value of the digits at the front of `s`, 0 when there are none. */
  function LeadingValue(s: string): nat
  {
    DecimalValue(s[..DigitRun(s)])
  }

  /** strtol with base 10: leading white space, an optional sign, then the
      value of the leading digits (0 when there are none). */
  function Strtol(s: string): int
  {
    var t := s[SpaceRun(s)..];
    if t != [] && t[0] == '-' then -(LeadingValue(t[1..]) as int)
    else if t != [] && t[0] == '+' then LeadingValue(t[1..])
    else LeadingValue(t)
  }

  /** The decimal rendering of a natural number, without leading zeros. */
  function Decimal(n: nat): (s: string)
    ensures |s| > 0 && AllDigits(s)
  {
    if n < 10 then [('0' as int + n) as char]
    else Decimal(n / 10) + [('0' as int + n % 10) as char]
  }

  lemma {:induction false} DecimalValueOfDecimal(n: nat)
    ensures DecimalValue(Decimal(n)) == n
  {
    if n >= 10 {
      DecimalValueOfDecimal(n / 10);
      var s := Decimal(n);
      assert s[..|s| - 1] == Decimal(n / 10);
    }
  }

  lemma LeadingValueOfDigits(s: string)
    requires AllDigits(s)
    ensures LeadingValue(s) == DecimalValue(s)
  {
    assert DigitRun(s) == |s|;
    assert s[..|s|] == s;
  }

  /** strtol reads back what Decimal writes. */
  lemma StrtolDecimal(n: nat)
    ensures Strtol(Decimal(n)) == n
  {
    var s := Decimal(n);
    DecimalValueOfDecimal(n);
    LeadingValueOfDigits(s);
    assert IsDigit(s[0]) && SpaceRun(s) == 0;
    assert s[0..] == s;
  }

  /** The same for a negative number. */
  lemma StrtolNegativeDecimal(n: nat)
    ensures Strtol("-" + Decimal(n)) == -(n as int)
  {
    var s := Decimal(n);
    DecimalValueOfDecimal(n);
    LeadingValueOfDigits(s);
    var m := "-" + s;
    assert SpaceRun(m) == 0 && m[0..] == m;
    assert m[1..] == s;
  }

  /** A value that starts with anything but white space, a sign or a digit
      reads as 0. */
  lemma StrtolNotNumeric(s: string)
    requires s != [] && !IsSpace(s[0]) && !IsDigit(s[0]) && s[0] != '-' && s[0] != '+'
    ensures Strtol(s) == 0
  {
    assert SpaceRun(s) == 0 && s[0..] == s;
    assert DigitRun(s) == 0;
  }

  // ---- handle_nightswatch ----

  datatype Mode = Interrupt | Dirty

  /** The monitor nightswatch(comm, interval) is started with: comm 0 is
      Interrupt, comm 1 is Dirty. */
  datatype Watch = Watch(mode: Mode, interval: int)

  function ModeName(m: Mode): string
  {
    match m
    case Interrupt => "interrupt"
    case Dirty => "dirty"
  }

  function ModeNamed(s: string): (m: Option<Mode>)
    ensures m.Some? ==> ModeName(m.value) == s
    ensures m.None? ==> s != ModeName(Interrupt) && s != ModeName(Dirty)
  {
    if s == "interrupt" then Some(Interrupt)
    else if s == "dirty" then Some(Dirty)
    else None
  }

  /** handle_nightswatch: the watch it starts, or None when it reports
      invalid arguments. */
  function HandleNightswatch(args: seq<string>): (r: Option<Watch>)
    ensures r.Some? ==> r.value.interval > 0
  {
    if |args| < 1 || |args| > 4 then None
    else
      var argc := if args[|args| - 1] == "&" then |args| - 1 else |args|;
      if argc == 1 then
        match ModeNamed(args[0])
        case Some(m) => Some(Watch(m, 5))
        case None => None
      else if argc == 3 then
        if args[0] == "-n" && Strtol(args[1]) > 0 then
          match ModeNamed(args[2])
          case Some(m) => Some(Watch(m, Strtol(args[1])))
          case None => None
        else if args[1] == "-n" && Strtol(args[2]) > 0 then
          match ModeNamed(args[0])
          case Some(m) => Some(Watch(m, Strtol(args[2])))
          case None => None
        else None
      else None
  }

  /** The arguments less one trailing "&". */
  function WithoutAmp(args: seq<string>): seq<string>
  {
    if |args| > 0 && args[|args| - 1] == "&" then args[..|args| - 1] else args
  }

  /** The accepted forms, stated directly: `MODE`, `-n N MODE` or
      `MODE -n N`, each optionally followed by "&", with N positive, and at
      most four words in all. */
  predicate Accepts(args: seq<string>, w: Watch)
  {
    1 <= |args| <= 4 &&
    var a := WithoutAmp(args);
    (a == [ModeName(w.mode)] && w.interval == 5) ||
    (|a| == 3 && w.interval > 0 &&
      ((a[0] == "-n" && Strtol(a[1]) == w.interval && a[2] == ModeName(w.mode)) ||
       (a[1] == "-n" && Strtol(a[2]) == w.interval && a[0] == ModeName(w.mode))))
  }

  /** handle_nightswatch starts exactly the watches the forms describe. */
  lemma HandleNightswatchAccepts(args: seq<string>, w: Watch)
    ensures HandleNightswatch(args) == Some(w) <==> Accepts(args, w)
  {
    if 1 <= |args| <= 4 {
      var a := WithoutAmp(args);
      if |a| == 1 {
        assert a[0] == args[0];
      } else if |a| == 3 {
        assert a[0] == args[0] && a[1] == args[1] && a[2] == args[2];
        assert "-n" != ModeName(Interrupt) && "-n" != ModeName(Dirty);
      }
    }
  }

  /** Any word count other than 1 or 3, once a trailing "&" is dropped, is
      rejected, as is more than four words or none. */
  lemma WrongCountRejected(args: seq<string>)
    requires |args| < 1 || |args| > 4 || (|WithoutAmp(args)| != 1 && |WithoutAmp(args)| != 3)
    ensures HandleNightswatch(args) == None
  {
  }

  /** Zero and non-numeric intervals are rejected in both orders. */
  lemma BadIntervalRejected(mode: string, n: string)
    requires Strtol(n) <= 0
    ensures HandleNightswatch(["-n", n, mode]) == None
    ensures HandleNightswatch([mode, "-n", n]) == None
  {
    StrtolNotNumeric("-n"[1..]);
    assert Strtol("-n") == 0;
  }

  /** With "-n" first and a positive interval, a bad mode word is rejected
      without trying the `MODE -n N` form. */
  lemma NoFallbackToSecondForm(args: seq<string>)
    requires |WithoutAmp(args)| == 3 && 1 <= |args| <= 4
    requires args[0] == "-n" && Strtol(args[1]) > 0 && ModeNamed(args[2]).None?
    ensures HandleNightswatch(args) == None
  {
  }

  lemma AcceptedExamples()
    ensures HandleNightswatch(["interrupt"]) == Some(Watch(Interrupt, 5))
    ensures HandleNightswatch(["dirty", "&"]) == Some(Watch(Dirty, 5))
    ensures HandleNightswatch(["&"]) == None
    ensures HandleNightswatch(["-n", "0", "interrupt"]) == None
    ensures HandleNightswatch(["-n", "abc", "interrupt"]) == None
  {
    assert ["dirty", "&"][..1] == ["dirty"];
    StrtolDecimal(0);
    assert Decimal(0) == "0";
    StrtolNotNumeric("abc");
  }

  // ---- night_interrupt ----

  /** One sample: whether the function returned true, and what it printed. */
  datatype Sample = Sample(ok: bool, out: string)

  /** The C string a buffer holds: everything before its first NUL. */
  function CStr(buf: seq<char>): (r: seq<char>)
    ensures |r| <= |buf| && r == buf[..|r|] && '\0' !in r
    ensures |r| < |buf| ==> buf[|r|] == '\0'
  {
    if buf == [] || buf[0] == '\0' then [] else [buf[0]] + CStr(buf[1..])
  }

  lemma {:induction false} CStrUpToNul(x: seq<char>, y: seq<char>)
    requires '\0' !in x
    ensures CStr(x + ['\0'] + y) == x
  {
    var buf := x + ['\0'] + y;
    if x != [] {
      assert buf[1..] == x[1..] + ['\0'] + y;
      CStrUpToNul(x[1..], y);
    }
  }

  /** Where the scan of the third line stops: the first newline or 'I'. */
  function FirstStop(line: string): (p: nat)
    ensures p <= |line|
    ensures forall k :: 0 <= k < p ==> line[k] != '\n' && line[k] != 'I'
    ensures p < |line| ==> line[p] == '\n' || line[p] == 'I'
  {
    if line == [] || line[0] == '\n' || line[0] == 'I' then 0 else 1 + FirstStop(line[1..])
  }

  /** A line night_interrupt can print from offset 5 without leaving it. */
  predicate FieldSafe(line: string)
  {
    5 <= |line| && '\0' !in line
  }

  /** The text printed for the third line, before the extra newline: from
      offset 5 up to the first 'I' when that 'I' comes before any newline
      and at or after offset 5, otherwise the whole rest of the line. */
  function InterruptField(line: string): string
    requires FieldSafe(line)
  {
    var p := FirstStop(line);
    if p < |line| && line[p] == 'I' && 5 <= p then line[5..p] else line[5..]
  }

  /** The printed field is the rest of the line from offset 5, cut just
      before an 'I' that no newline or other 'I' precedes; it is cut at the
      first 'I' whenever that 'I' lies at offset 5 or later and no newline
      comes before it, and not cut when a newline or an 'I' before offset 5
      comes first. */
  lemma InterruptFieldIsCut(line: string)
    requires FieldSafe(line)
    ensures var f := InterruptField(line);
      5 + |f| <= |line| && f == line[5..5 + |f|]
    ensures var f := InterruptField(line);
      5 + |f| < |line| ==>
        line[5 + |f|] == 'I' && forall k :: 0 <= k < 5 + |f| ==> line[k] != 'I' && line[k] != '\n'
    ensures (forall k :: 0 <= k < |line| ==> line[k] != 'I') ==> InterruptField(line) == line[5..]
    ensures forall p ::
      (5 <= p < |line| && line[p] == 'I' && forall k :: 0 <= k < p ==> line[k] != 'I' && line[k] != '\n')
      ==> InterruptField(line) == line[5..p]
    ensures forall p ::
      (0 <= p < |line| && (line[p] == '\n' || (line[p] == 'I' && p < 5)) &&
       forall k :: 0 <= k < p ==> line[k] != 'I' && line[k] != '\n')
      ==> InterruptField(line) == line[5..]
  {
    forall p | 0 <= p < |line| && (line[p] == '\n' || line[p] == 'I') &&
      (forall k :: 0 <= k < p ==> line[k] != 'I' && line[k] != '\n')
      ensures p == FirstStop(line)
    {
    }
  }

  predicate InterruptSafe(file: Option<seq<string>>)
  {
    file.Some? && |file.value| >= 3 ==> FieldSafe(file.value[2])
  }

  /** night_interrupt: false when /proc/interrupts cannot be opened;
      otherwise true, printing the field of the third line, or nothing for
      a shorter file. */
  function InterruptSample(file: Option<seq<string>>): Sample
    requires InterruptSafe(file)
  {
    match file
    case None => Sample(false, "")
    case Some(lines) =>
      if |lines| < 3 then Sample(true, "") else Sample(true, InterruptField(lines[2]) + "\n")
  }

  /** The fgets buffer of the third line once the scan has run: the line and
      its NUL, with the first 'I' before any newline overwritten by a NUL. */
  function CutBuffer(line: string): (buf: seq<char>)
    ensures |buf| == |line| + 1
  {
    var p := FirstStop(line);
    if p < |line| && line[p] == 'I' then (line + ['\0'])[p := '\0'] else line + ['\0']
  }

  /** Printing the cut buffer from offset 5 gives the field. */
  lemma CutBufferField(line: string)
    requires FieldSafe(line)
    ensures CStr(CutBuffer(line)[5..]) == InterruptField(line)
  {
    var p := FirstStop(line);
    var buf := CutBuffer(line);
    if p < |line| && line[p] == 'I' && 5 <= p {
      var rest := buf[5..];
      assert rest == line[5..p] + ['\0'] + (line[p + 1..] + ['\0']);
      CStrUpToNul(line[5..p], line[p + 1..] + ['\0']);
    } else {
      assert buf[5..] == line[5..] + ['\0'] + [];
      CStrUpToNul(line[5..], []);
    }
  }

  /** The body of night_interrupt for the third line: copy it into the
      buffer, cut it at the first 'I' before a newline, print from offset 5. */
  method InterruptLine(line: string) returns (out: string)
    requires FieldSafe(line)
    ensures out == InterruptField(line) + "\n"
  {
    // the buffer fgets fills: the line and its terminating NUL
    var temp := new char[|line| + 1](k requires 0 <= k <= |line| => if k < |line| then line[k] else '\0');
    var j := 0;
    while j < temp.Length
      invariant 0 <= j <= FirstStop(line)
      invariant temp[..] == line + ['\0']
    {
      if temp[j] == '\0' || temp[j] == '\n' {
        assert j == FirstStop(line);
        break;
      }
      if temp[j] == 'I' {
        assert j == FirstStop(line);
        temp[j] := '\0';
        break;
      }
      j := j + 1;
    }
    assert temp[..] == CutBuffer(line);
    CutBufferField(line);
    out := CStr(temp[5..]) + "\n";
  }

  /** night_interrupt: reads lines until the third one. */
  method NightInterrupt(file: Option<seq<string>>) returns (ok: bool, out: string)
    requires InterruptSafe(file)
    ensures Sample(ok, out) == InterruptSample(file)
  {
    if file.None? {
      return false, "";
    }
    var lines := file.value;
    out := "";
    var i := 0;
    while i < |lines|
      invariant 0 <= i <= |lines| && i < 3 && out == ""
    {
      var temp := lines[i];
      i := i + 1;
      if i == 3 {
        out := InterruptLine(temp);
        break;
      }
    }
    ok := true;
  }

  // ---- night_dirty ----

  /** What night_dirty makes of the 17th line: its second and third
      white-space tokens; the second one is printed even when the third is
      missing, and then the sample fails. */
  function DirtyFields(line: string, ws: set<char>): Sample
  {
    var t := Tokens(line, ws);
    if |t| < 2 then Sample(false, "")
    else if |t| < 3 then Sample(false, t[1] + " ")
    else Sample(true, t[1] + " " + t[2] + "\n")
  }

  /** night_dirty: false when /proc/meminfo cannot be opened; true with
      nothing printed when it has fewer than 17 lines. */
  function DirtySample(file: Option<seq<string>>, ws: set<char>): Sample
  {
    match file
    case None => Sample(false, "")
    case Some(lines) => if |lines| < 17 then Sample(true, "") else DirtyFields(lines[16], ws)
  }

  /** The three strtok calls night_dirty makes on the 17th line. */
  method DirtyLine(temp: string, ws: set<char>) returns (ok: bool, out: string)
    ensures Sample(ok, out) == DirtyFields(temp, ws)
  {
    var first := StrTok(temp, 0, ws);
    // after a NULL, strtok resumes at the end of the string
    var pos := if first.Some? then first.value.next else |temp|;
    assert Tokens(temp, ws) == if first.None? then [] else [first.value.text] + TokensFrom(temp, pos, ws);
    var t := StrTok(temp, pos, ws);
    if t.None? {
      return false, "";
    }
    out := t.value.text + " ";
    var t3 := StrTok(temp, t.value.next, ws);
    if t3.None? {
      return false, out;
    }
    out := out + t3.value.text + "\n";
    ok := true;
  }

  /** night_dirty: reads lines until the 17th one. */
  method NightDirty(file: Option<seq<string>>, ws: set<char>) returns (ok: bool, out: string)
    ensures Sample(ok, out) == DirtySample(file, ws)
  {
    if file.None? {
      return false, "";
    }
    var lines := file.value;
    out := "";
    var i := 0;
    while i < |lines|
      invariant 0 <= i <= |lines| && i < 17 && out == ""
    {
      var temp := lines[i];
      i := i + 1;
      if i == 17 {
        ok, out := DirtyLine(temp, ws);
        return;
      }
    }
    ok := true;
  }

  // ---- get_me_out ----

  newtype Byte = x: int | 0 <= x < 256

  const EOF: int := -1

  /** What get_me_out decided, and how many bytes of stdin it read. */
  datatype KeyCheck = KeyCheck(exit: bool, consumed: nat)

  /** A byte stored in a (signed) char. */
  function AsChar(b: Byte): int
  {
    if b < 128 then b as int else b as int - 256
  }

  /** get_me_out, given select's return value, whether stdin was reported
      ready, and the bytes waiting on stdin. */
  function GetMeOut(selected: int, ready: bool, stdin: seq<Byte>): (k: KeyCheck)
    ensures k.consumed <= 2 && k.consumed <= |stdin|
    ensures k.exit <==> selected < 0 || (selected > 0 && ready && |stdin| > 0 && stdin[0] == 'q' as int as Byte)
  {
    if selected < 0 then KeyCheck(true, 0)
    else if selected == 0 || !ready then KeyCheck(false, 0)
    else
      var c := if stdin == [] then EOF else AsChar(stdin[0]);
      if c == EOF then KeyCheck(false, if stdin == [] then 0 else 1)
      else KeyCheck(c == 'q' as int, if |stdin| >= 2 then 2 else 1)
  }

  /** A key is read with the byte after it; a byte 0xff reads as EOF, so it
      ends the check alone. */
  lemma KeyConsumption(selected: int, ready: bool, stdin: seq<Byte>)
    requires selected > 0 && ready && |stdin| >= 2
    ensures GetMeOut(selected, ready, stdin).consumed == if stdin[0] == 255 then 1 else 2
  {
  }

  // ---- nightswatch ----

  datatype WatchEnd =
    | SourceFailed   // a sample returned false: nightswatch returns false
    | Cancelled      // get_me_out returned true: nightswatch returns true
    | TraceEnded     // the given samples or key checks ran out

  /** What one run did: how it ended, how many samples and sleeps it made. */
  datatype Run = Run(end: WatchEnd, samples: nat, sleeps: nat)

  predicate SamplesSafe(mode: Mode, files: seq<Option<seq<string>>>)
  {
    mode == Interrupt ==> forall n :: 0 <= n < |files| ==> InterruptSafe(files[n])
  }

  function SampleOf(mode: Mode, file: Option<seq<string>>, ws: set<char>): Sample
    requires mode == Interrupt ==> InterruptSafe(file)
  {
    if mode == Interrupt then InterruptSample(file) else DirtySample(file, ws)
  }

  /** The interrupt header: the first line of /proc/interrupts from offset 5. */
  predicate HeaderSafe(header: Option<seq<string>>)
  {
    header.Some? && |header.value| > 0 ==> FieldSafe(header.value[0])
  }

  function FirstIndex(s: seq<bool>, b: bool): (k: nat)
    ensures k <= |s| && (k < |s| ==> s[k] == b)
    ensures forall j :: 0 <= j < k ==> s[j] != b
  {
    if s == [] || s[0] == b then 0 else 1 + FirstIndex(s[1..], b)
  }

  /** `count` sleeps of the same interval. */
  function Repeat(x: int, count: nat): (r: seq<int>)
    ensures |r| == count && forall i :: 0 <= i < count ==> r[i] == x
  {
    if count == 0 then [] else Repeat(x, count - 1) + [x]
  }

  function Min(a: nat, b: nat): nat
  {
    if a <= b then a else b
  }

  /** The run, stated by where the first failed sample (k) and the first
      positive key check (c) fall: iteration n samples, checks (2n), sleeps,
      checks (2n+1). */
  function RunOf(oks: seq<bool>, checks: seq<bool>): Run
  {
    var k := FirstIndex(oks, false);
    var c := FirstIndex(checks, true);
    if k < |oks| && 2 * k <= c then Run(SourceFailed, k + 1, k)
    else if c < |checks| && c / 2 < k then Run(Cancelled, c / 2 + 1, (c + 1) / 2)
    else Run(TraceEnded, Min(|oks|, |checks| / 2 + 1), Min(|oks|, (|checks| + 1) / 2))
  }

  /** The run ends at the first failed sample, n, when no key check before
      iteration n said stop. */
  lemma RunFailsAt(oks: seq<bool>, checks: seq<bool>, n: nat)
    requires n < |oks| && !oks[n] && forall j :: 0 <= j < n ==> oks[j]
    requires 2 * n <= |checks| && forall j :: 0 <= j < 2 * n ==> !checks[j]
    ensures RunOf(oks, checks) == Run(SourceFailed, n + 1, n)
  {
    assert FirstIndex(oks, false) == n;
  }

  /** The run ends at the first positive key check, the first (2n) or the
      second (2n+1) of iteration n, when every sample up to n succeeded. */
  lemma RunCancelsAt(oks: seq<bool>, checks: seq<bool>, n: nat, second: bool)
    requires var c := if second then 2 * n + 1 else 2 * n;
      c < |checks| && checks[c] && forall j :: 0 <= j < c ==> !checks[j]
    requires n < |oks| && forall j :: 0 <= j <= n ==> oks[j]
    ensures RunOf(oks, checks) == Run(Cancelled, n + 1, if second then n + 1 else n)
  {
    var c := if second then 2 * n + 1 else 2 * n;
    assert FirstIndex(checks, true) == c;
    assert c / 2 == n && (c + 1) / 2 == (if second then n + 1 else n);
  }

  /** The run ends with the samples when n samples all succeeded and no key
      check of the n iterations said stop. */
  lemma TraceEndsAtSample(oks: seq<bool>, checks: seq<bool>, n: nat)
    requires n == |oks| && forall j :: 0 <= j < n ==> oks[j]
    requires 2 * n <= |checks| && forall j :: 0 <= j < 2 * n ==> !checks[j]
    ensures RunOf(oks, checks) == Run(TraceEnded, n, n)
  {
    assert FirstIndex(oks, false) == n;
    assert FirstIndex(checks, true) >= 2 * n;
    assert n <= |checks| / 2 && n <= (|checks| + 1) / 2;
  }

  /** The run ends with the key checks: iteration n sampled successfully and
      the checks ran out before its first (2n) or second (2n+1) check. */
  lemma TraceEndsAtCheck(oks: seq<bool>, checks: seq<bool>, n: nat, second: bool)
    requires n < |oks| && forall j :: 0 <= j <= n ==> oks[j]
    requires |checks| == (if second then 2 * n + 1 else 2 * n)
    requires forall j :: 0 <= j < |checks| ==> !checks[j]
    ensures RunOf(oks, checks) == Run(TraceEnded, n + 1, if second then n + 1 else n)
  {
    assert FirstIndex(oks, false) > n;
    assert FirstIndex(checks, true) == |checks|;
    assert |checks| / 2 == n && (|checks| + 1) / 2 == (if second then n + 1 else n);
  }

  /** The run ends on the event it names: a failed sample as the last one
      taken, a positive key check as the last one made; and before that
      every sample succeeded and every key check said to go on. */
  lemma RunOfEvents(oks: seq<bool>, checks: seq<bool>)
    ensures var r := RunOf(oks, checks);
      r.samples <= |oks| && r.sleeps <= r.samples &&
      (forall j :: 0 <= j < r.samples - 1 ==> oks[j]) &&
      (r.end == SourceFailed <==> 0 < r.samples && !oks[r.samples - 1]) &&
      (r.end != SourceFailed ==> forall j :: 0 <= j < r.samples ==> oks[j])
    ensures var r := RunOf(oks, checks);
      var c := r.samples + r.sleeps - 1;
      (r.end == Cancelled ==> 0 <= c < |checks| && checks[c]) &&
      (forall j :: 0 <= j < c && j < |checks| ==> !checks[j])
  {
  }

  /** The verdicts of the samples, one per snapshot. */
  function Oks(mode: Mode, files: seq<Option<seq<string>>>, ws: set<char>): (r: seq<bool>)
    requires SamplesSafe(mode, files)
    ensures |r| == |files|
    ensures forall n :: 0 <= n < |files| ==> r[n] == SampleOf(mode, files[n], ws).ok
  {
    seq(|files|, n requires 0 <= n < |files| => SampleOf(mode, files[n], ws).ok)
  }

  function Shown(mode: Mode, files: seq<Option<seq<string>>>, ws: set<char>, count: nat): (r: seq<string>)
    requires SamplesSafe(mode, files) && count <= |files|
    ensures |r| == count
  {
    if count == 0 then [] else Shown(mode, files, ws, count - 1) + [SampleOf(mode, files[count - 1], ws).out]
  }

  /** What the interrupt watch prints before its first sample. */
  function HeaderShown(w: Watch, header: Option<seq<string>>): seq<string>
    requires w.mode == Interrupt ==> HeaderSafe(header)
  {
    if w.mode == Interrupt && header.Some? && |header.value| > 0 then [header.value[0][5..]] else []
  }

  /** The whole run of nightswatch(comm, interval). */
  function WatchRun(w: Watch, header: Option<seq<string>>, files: seq<Option<seq<string>>>,
                    ws: set<char>, checks: seq<bool>): Run
    requires SamplesSafe(w.mode, files)
  {
    if w.mode == Interrupt && (header.None? || |header.value| == 0) then Run(SourceFailed, 0, 0)
    else RunOf(Oks(w.mode, files, ws), checks)
  }

  method TakeSample(mode: Mode, file: Option<seq<string>>, ws: set<char>) returns (ok: bool, out: string)
    requires mode == Interrupt ==> InterruptSafe(file)
    ensures Sample(ok, out) == SampleOf(mode, file, ws)
  {
    if mode == Interrupt {
      ok, out := NightInterrupt(file);
    } else {
      ok, out := NightDirty(file, ws);
    }
  }

  /** Sample n of the loop, stated against the sample verdicts and the
      printed texts of the whole trace. */
  method SampleNext(mode: Mode, files: seq<Option<seq<string>>>, ws: set<char>, n: nat) returns (ok: bool, out: string)
    requires SamplesSafe(mode, files) && n < |files|
    ensures ok == Oks(mode, files, ws)[n]
    ensures Shown(mode, files, ws, n + 1) == Shown(mode, files, ws, n) + [out]
  {
    ok, out := TakeSample(mode, files[n], ws);
  }

  /** The two get_me_out checks of one round, with the sleep between them:
      `stop` is how the loop ends in this round (None when it goes on),
      `second` whether the interval was slept before it ended. */
  method KeyChecks(interval: int, checks: seq<bool>, n: nat, sleeps: seq<int>)
    returns (stop: Option<WatchEnd>, second: bool, after: seq<int>)
    requires 2 * n <= |checks| && sleeps == Repeat(interval, n)
    ensures after == Repeat(interval, if stop.None? || second then n + 1 else n)
    ensures stop.None? ==> 2 * n + 2 <= |checks| && !checks[2 * n] && !checks[2 * n + 1]
    ensures stop.Some? ==> var c := if second then 2 * n + 1 else 2 * n;
      c <= |checks| && (second ==> !checks[2 * n]) && stop.value != SourceFailed &&
      (stop.value == TraceEnded <==> c == |checks|) &&
      (stop.value == Cancelled <==> c < |checks| && checks[c])
  {
    after := sleeps;
    if 2 * n == |checks| {
      return Some(TraceEnded), false, after;
    }
    if checks[2 * n] {
      return Some(Cancelled), false, after;
    }
    after := after + [interval];
    if 2 * n + 1 == |checks| {
      return Some(TraceEnded), true, after;
    }
    if checks[2 * n + 1] {
      return Some(Cancelled), true, after;
    }
    stop, second := None, false;
  }

  /** The while (true) loop of nightswatch: sample, key check, sleep, key
      check. `files[n]` is the snapshot sample n reads, `checks` the
      get_me_out verdicts in order. Returns how the loop ended, what the
      samples printed, and the sleeps it made. */
  method WatchLoop(w: Watch, ws: set<char>, files: seq<Option<seq<string>>>, checks: seq<bool>)
    returns (end: WatchEnd, shown: seq<string>, sleeps: seq<int>)
    requires SamplesSafe(w.mode, files)
    ensures var run := RunOf(Oks(w.mode, files, ws), checks);
      end == run.end && run.samples <= |files| && sleeps == Repeat(w.interval, run.sleeps) &&
      shown == Shown(w.mode, files, ws, run.samples)
  {
    ghost var oks := Oks(w.mode, files, ws);
    shown, sleeps := [], [];
    var n := 0;
    while true
      invariant n <= |files| && 2 * n <= |checks|
      invariant forall j :: 0 <= j < n ==> oks[j]
      invariant forall j :: 0 <= j < 2 * n ==> !checks[j]
      invariant shown == Shown(w.mode, files, ws, n)
      invariant sleeps == Repeat(w.interval, n)
      decreases |files| - n
    {
      if n == |files| {
        TraceEndsAtSample(oks, checks, n);
        return TraceEnded, shown, sleeps;
      }
      var ok, out := SampleNext(w.mode, files, ws, n);
      shown := shown + [out];
      if !ok {
        RunFailsAt(oks, checks, n);
        return SourceFailed, shown, sleeps;
      }
      var stop, second;
      stop, second, sleeps := KeyChecks(w.interval, checks, n, sleeps);
      if stop.Some? {
        if stop.value == TraceEnded {
          TraceEndsAtCheck(oks, checks, n, second);
        } else {
          RunCancelsAt(oks, checks, n, second);
        }
        return stop.value, shown, sleeps;
      }
      n := n + 1;
    }
  }

  /** nightswatch(comm, interval). In interrupt mode the header line of
      /proc/interrupts is read first (`header`), and the watch fails when it
      cannot be opened or is empty; what the header shows is the first
      element of `shown`. */
  method RunWatch(w: Watch, ws: set<char>, header: Option<seq<string>>,
                  files: seq<Option<seq<string>>>, checks: seq<bool>)
    returns (end: WatchEnd, shown: seq<string>, sleeps: seq<int>)
    requires SamplesSafe(w.mode, files)
    requires w.mode == Interrupt ==> HeaderSafe(header)
    ensures var run := WatchRun(w, header, files, ws, checks);
      end == run.end && run.samples <= |files| && sleeps == Repeat(w.interval, run.sleeps) &&
      shown == HeaderShown(w, header) + Shown(w.mode, files, ws, run.samples)
  {
    var top: seq<string> := [];
    if w.mode == Interrupt {
      if header.None? || |header.value| == 0 {
        return SourceFailed, [], [];
      }
      top := [header.value[0][5..]];
    }
    var samples;
    end, samples, sleeps := WatchLoop(w, ws, files, checks);
    shown := top + samples;
  }
}