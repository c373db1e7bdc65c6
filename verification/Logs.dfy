/**
 Log retention: the bounded ring of recent entries, the log file opened for
 append, and the loop that writes formatted lines and truncates on overflow
 (src/core/logging.rs, and the streaming loop of src/threads.rs).
 */
module Logs {
  import opened Text

  datatype LogType = Stdout | Stderr | YapmErr | YapmLog | YapmWarning

  datatype Timestamp = Timestamp(hour: nat, minute: nat, second: nat, day: nat, month: string, year: nat)

  datatype LogEntry = LogEntry(ty: LogType, timestamp: Timestamp, msg: string)

  function Label(ty: LogType): string {
    match ty
    case Stdout => "Outstream"
    case Stderr => "Errstream"
    case YapmErr => "Yapm-Err"
    case YapmLog => "Yapm-Log"
    case YapmWarning => "Yapm-Warn"
  }

  function TwoDigits(n: nat): string {
    if n < 10 then "0" + Decimal(n) else Decimal(n)
  }

  function Clock(t: Timestamp): string {
    Decimal(t.hour) + ":" + (TwoDigits(t.minute) + ":" + TwoDigits(t.second))
  }

  function Date(t: Timestamp): string {
    Decimal(t.day) + "-" + (t.month + "-" + Decimal(t.year))
  }

  /** `to_fstring`: one line of the log file. */
  function Formatted(e: LogEntry): string {
    Label(e.ty) + " " + ("[" + Clock(e.timestamp) + "," + (" " + Date(e.timestamp) + "]" + (" " + e.msg + "\n")))
  }

  /** Minutes and seconds are two digits wide. */
  lemma TwoDigitsAre(n: nat)
    requires n < 100
    ensures |TwoDigits(n)| == 2 && AllDigits(TwoDigits(n)) && Value(TwoDigits(n)) == n
  {
    ValueOfDecimal(n);
    if n < 10 {
      ValueIsPositional("0", Decimal(n)[0]);
      assert TwoDigits(n) == "0" + [Decimal(n)[0]];
      ValueIsPositional("", '0');
    } else {
      assert Decimal(n) == Decimal(n / 10) + [Digit(n % 10)];
    }
  }

  /** The parts of a line: the label, the time of day, the date, the message. */
  lemma LineIs(e: LogEntry, hour: string, minute: string, second: string, day: string, year: string)
    requires hour == Decimal(e.timestamp.hour) && minute == TwoDigits(e.timestamp.minute)
    requires second == TwoDigits(e.timestamp.second) && day == Decimal(e.timestamp.day)
    requires year == Decimal(e.timestamp.year)
    ensures Clock(e.timestamp) == hour + ":" + (minute + ":" + second)
    ensures Date(e.timestamp) == day + "-" + (e.timestamp.month + "-" + year)
    ensures Formatted(e) == Label(e.ty) + " "
            + ("[" + Clock(e.timestamp) + "," + (" " + Date(e.timestamp) + "]" + (" " + e.msg + "\n")))
  {
  }

  lemma LabelsAre()
    ensures Label(Stdout) == "Outstream" && Label(Stderr) == "Errstream"
    ensures Label(YapmErr) == "Yapm-Err" && Label(YapmLog) == "Yapm-Log" && Label(YapmWarning) == "Yapm-Warn"
  {
  }

  lemma CutAt(a: string, b: string, c: char, x: string, y: string)
    requires c !in a && c !in b && a + [c] + x == b + [c] + y
    ensures a == b && x == y
  {
    var s := a + [c] + x;
    forall k | 0 <= k < |a| ensures s[k] != c {
      assert s[k] == a[k];
    }
    forall k | 0 <= k < |b| ensures s[k] != c {
      assert s[k] == b[k];
    }
    assert s[|a|] == c == s[|b|];
    assert s[..|a|] == a && s[..|b|] == b && s[|a| + 1..] == x && s[|b| + 1..] == y;
  }

  lemma DecimalTellsApart(m: nat, n: nat)
    requires Decimal(m) == Decimal(n)
    ensures m == n
  {
    ValueOfDecimal(m);
    ValueOfDecimal(n);
  }

  predicate Sensible(t: Timestamp) {
    t.minute < 100 && t.second < 100 && '-' !in t.month && ']' !in t.month
  }

  lemma DigitsAreNoMarks(s: string)
    requires AllDigits(s)
    ensures ':' !in s && ',' !in s && '-' !in s && ']' !in s
  {
  }

  lemma ClockTellsApart(t: Timestamp, u: Timestamp)
    requires Sensible(t) && Sensible(u) && Clock(t) == Clock(u)
    ensures t.hour == u.hour && t.minute == u.minute && t.second == u.second
  {
    TwoDigitsAre(t.minute);
    TwoDigitsAre(u.minute);
    TwoDigitsAre(t.second);
    TwoDigitsAre(u.second);
    CutAt(Decimal(t.hour), Decimal(u.hour), ':', TwoDigits(t.minute) + ":" + TwoDigits(t.second),
          TwoDigits(u.minute) + ":" + TwoDigits(u.second));
    CutAt(TwoDigits(t.minute), TwoDigits(u.minute), ':', TwoDigits(t.second), TwoDigits(u.second));
    DecimalTellsApart(t.hour, u.hour);
  }

  lemma DateTellsApart(t: Timestamp, u: Timestamp)
    requires Sensible(t) && Sensible(u) && Date(t) == Date(u)
    ensures t.day == u.day && t.month == u.month && t.year == u.year
  {
    CutAt(Decimal(t.day), Decimal(u.day), '-', t.month + "-" + Decimal(t.year), u.month + "-" + Decimal(u.year));
    CutAt(t.month, u.month, '-', Decimal(t.year), Decimal(u.year));
    DecimalTellsApart(t.day, u.day);
    DecimalTellsApart(t.year, u.year);
  }

  lemma LabelTellsApart(a: LogType, b: LogType)
    ensures Label(a) == Label(b) ==> a == b
    ensures ' ' !in Label(a)
  {
    assert Label(a)[0] == 'O' <==> a == Stdout;
    assert Label(a)[0] == 'E' <==> a == Stderr;
    assert |Label(a)| > 5 && (Label(a)[0] == 'Y' ==> (Label(a)[5] == 'E' <==> a == YapmErr));
    assert Label(a)[0] == 'Y' ==> (Label(a)[5] == 'L' <==> a == YapmLog);
    assert |Label(b)| > 5;
  }

  lemma ClockAndDateHaveNoMarks(t: Timestamp)
    requires Sensible(t)
    ensures ',' !in "[" + Clock(t) && ']' !in " " + Date(t)
  {
    TwoDigitsAre(t.minute);
    TwoDigitsAre(t.second);
    DigitsAreNoMarks(Decimal(t.hour));
    DigitsAreNoMarks(TwoDigits(t.minute));
    DigitsAreNoMarks(TwoDigits(t.second));
    DigitsAreNoMarks(Decimal(t.day));
    DigitsAreNoMarks(Decimal(t.year));
  }

  lemma TailTellsApart(a: LogEntry, b: LogEntry)
    requires Sensible(a.timestamp) && Sensible(b.timestamp)
    requires "[" + Clock(a.timestamp) + "," + (" " + Date(a.timestamp) + "]" + (" " + a.msg + "\n"))
             == "[" + Clock(b.timestamp) + "," + (" " + Date(b.timestamp) + "]" + (" " + b.msg + "\n"))
    ensures Clock(a.timestamp) == Clock(b.timestamp) && Date(a.timestamp) == Date(b.timestamp) && a.msg == b.msg
  {
    ClockAndDateHaveNoMarks(a.timestamp);
    ClockAndDateHaveNoMarks(b.timestamp);
    CutAt("[" + Clock(a.timestamp), "[" + Clock(b.timestamp), ',', " " + Date(a.timestamp) + "]" + (" " + a.msg + "\n"),
          " " + Date(b.timestamp) + "]" + (" " + b.msg + "\n"));
    CutAt(" " + Date(a.timestamp), " " + Date(b.timestamp), ']', " " + a.msg + "\n", " " + b.msg + "\n");
    Uncovered("[", Clock(a.timestamp), Clock(b.timestamp), "");
    Uncovered(" ", Date(a.timestamp), Date(b.timestamp), "");
    Uncovered(" ", a.msg, b.msg, "\n");
  }

  lemma Uncovered(before: string, x: string, y: string, after: string)
    ensures before + x == before + y ==> x == y
    ensures before + x + after == before + y + after ==> x == y
  {
    assert (before + x)[|before|..] == x && (before + y)[|before|..] == y;
    assert (before + x + after)[|before|..|before| + |x|] == x && (before + y + after)[|before|..|before| + |y|] == y;
  }

  /** Different entries are different lines: a line can be read back, whatever the message holds. */
  lemma LinesTellEntriesApart(a: LogEntry, b: LogEntry)
    requires Sensible(a.timestamp) && Sensible(b.timestamp) && Formatted(a) == Formatted(b)
    ensures a == b
  {
    LabelTellsApart(a.ty, b.ty);
    LabelTellsApart(b.ty, a.ty);
    CutAt(Label(a.ty), Label(b.ty), ' ',
          "[" + Clock(a.timestamp) + "," + (" " + Date(a.timestamp) + "]" + (" " + a.msg + "\n")),
          "[" + Clock(b.timestamp) + "," + (" " + Date(b.timestamp) + "]" + (" " + b.msg + "\n")));
    TailTellsApart(a, b);
    ClockTellsApart(a.timestamp, b.timestamp);
    DateTellsApart(a.timestamp, b.timestamp);
  }

  function FormattedAll(entries: seq<LogEntry>): seq<string> {
    if entries == [] then [] else FormattedAll(entries[..|entries| - 1]) + [Formatted(entries[|entries| - 1])]
  }

  // ----- the ring -----

  const CAPACITY: nat := 100

  /** The last `n` elements, or all of them. */
  function Last<T>(s: seq<T>, n: nat): seq<T> {
    if |s| <= n then s else s[|s| - n..]
  }

  function Least(a: nat, b: nat, c: nat): nat {
    if a <= b && a <= c then a else if b <= c then b else c
  }

  class LogManager {
    var glv: seq<LogEntry>
    ghost var history: seq<LogEntry>

    /** The ring is the last hundred entries of everything ever pushed. */
    ghost predicate Valid()
      reads this
    {
      glv == Last(history, CAPACITY)
    }

    constructor ()
      ensures Valid() && history == []
    {
      glv, history := [], [];
    }

    method Push(entry: LogEntry)
      requires Valid()
      modifies this
      ensures Valid() && history == old(history) + [entry]
      ensures |glv| == Least(|history|, 100, |history|) && glv == history[|history| - |glv|..]
    {
      if |glv| == CAPACITY {
        glv := glv[1..];
      }
      glv := glv + [entry];
      history := history + [entry];
    }

    /** `get_logs`: newest first. */
    method GetLogs(n: nat) returns (logs: seq<LogEntry>)
      requires Valid()
      ensures |logs| == Least(n, 100, |history|)
      ensures forall k :: 0 <= k < |logs| ==> logs[k] == history[|history| - 1 - k]
    {
      logs := [];
      var k := |glv|;
      while k > 0 && |logs| < n
        invariant 0 <= k <= |glv| && |logs| == |glv| - k && |logs| <= n
        invariant forall j :: 0 <= j < |logs| ==> logs[j] == glv[|glv| - 1 - j]
      {
        k := k - 1;
        logs := logs + [glv[k]];
      }
    }

    /** The entries `display` writes, in the order it writes them: what `get_logs` returns, oldest first. */
    method Displayed(n: nat) returns (shown: seq<LogEntry>)
      requires Valid()
      ensures |shown| == Least(n, 100, |history|) && shown == history[|history| - |shown|..]
    {
      var capped := if n > 100 then 100 else n;
      var newest := GetLogs(capped);
      shown := [];
      var k := |newest|;
      while k > 0
        invariant 0 <= k <= |newest| && |shown| == |newest| - k
        invariant forall j :: 0 <= j < |shown| ==> shown[j] == newest[|newest| - 1 - j]
      {
        k := k - 1;
        shown := shown + [newest[k]];
      }
    }
  }

  // ----- the file -----

  /** What remains from position `k`; seeking past the end is legal and then reads nothing. */
  function From(bytes: string, k: nat): string {
    if k <= |bytes| then bytes[k..] else ""
  }

  /** `truncate_file`: keep what follows the position `currLen - maxLen / 4`. */
  function Truncated(maxLen: nat, currLen: nat, bytes: string): string {
    if currLen <= maxLen then bytes else From(bytes, currLen - maxLen / 4)
  }

  /** A file opened for reading and appending: writes go to the end, whatever the offset. */
  class AppendFile {
    var bytes: string
    var offset: nat

    method Seek(position: nat)
      modifies this`offset
      ensures offset == position
    {
      offset := position;
    }

    method ReadToEnd() returns (b: string)
      modifies this`offset
      ensures b == From(bytes, old(offset))
    {
      b := From(bytes, offset);
      offset := offset + |b|;
    }

    /** Shrinking the file leaves the offset alone. */
    method SetLen(n: nat)
      requires n <= |bytes|
      modifies this`bytes
      ensures bytes == old(bytes)[..n]
    {
      bytes := bytes[..n];
    }

    method Write(b: string)
      modifies this
      ensures bytes == old(bytes) + b && offset == |bytes|
    {
      bytes := bytes + b;
      offset := |bytes|;
    }
  }

  method TruncateFile(maxLen: nat, currLen: nat, file: AppendFile)
    modifies file
    ensures file.bytes == Truncated(maxLen, currLen, old(file.bytes))
  {
    var value := maxLen / 4;
    if currLen <= maxLen {
      return;
    }
    file.Seek(currLen - value);
    var b := file.ReadToEnd();
    file.SetLen(0);
    file.Seek(0);
    file.Write(b);
  }

  /** The loop's two variables: the size it believes in, and the file. */
  datatype Tail = Tail(curr: nat, bytes: string)

  function WriteOne(maxSize: nat, t: Tail, line: string): Tail {
    var curr := t.curr + |line|;
    Tail(curr, Truncated(maxSize, curr, t.bytes + line))
  }

  function WriteAll(maxSize: nat, t: Tail, lines: seq<string>): Tail {
    if lines == [] then t
    else WriteOne(maxSize, WriteAll(maxSize, t, lines[..|lines| - 1]), lines[|lines| - 1])
  }

  /** The label of a stream: the source passes `true` for stderr and takes it for stdout. */
  function StreamLabel(isStderr: bool): LogType {
    if isStderr then Stdout else Stderr
  }

  /** One iteration: write the line, count it, keep it in the ring, truncate. */
  method StreamOne(maxSize: nat, size: nat, entry: LogEntry, file: AppendFile, ring: LogManager) returns (currSize: nat)
    requires ring.Valid()
    modifies file, ring
    ensures Tail(currSize, file.bytes) == WriteOne(maxSize, Tail(size, old(file.bytes)), Formatted(entry))
    ensures ring.Valid() && ring.history == old(ring.history) + [entry]
  {
    var complete := Formatted(entry);
    file.Write(complete);
    currSize := size + |complete|;
    ring.Push(entry);
    TruncateFile(maxSize, currSize, file);
  }

  /** `async_truncate_stream_to_file` over the lines of a stream, each with the time it was read. */
  method StreamToFile(maxSize: nat, size: nat, lines: seq<(string, Timestamp)>,
                      file: AppendFile, ring: LogManager, isStderr: bool)
    requires ring.Valid()
    modifies file, ring
    ensures file.bytes == Streamed(maxSize, Tail(size, old(file.bytes)), lines, StreamLabel(isStderr)).bytes
    ensures ring.Valid() && ring.history == old(ring.history) + Labelled(lines, StreamLabel(isStderr))
  {
    var ty := StreamLabel(isStderr);
    var currSize: nat := size;
    ghost var before := Tail(size, file.bytes);
    ghost var past := ring.history;
    for k := 0 to |lines|
      invariant Tail(currSize, file.bytes) == Streamed(maxSize, before, lines[..k], ty)
      invariant ring.Valid() && ring.history == past + Labelled(lines[..k], ty)
    {
      StreamedNext(maxSize, before, lines, k, ty);
      currSize := StreamOne(maxSize, currSize, LogEntry(ty, lines[k].1, lines[k].0), file, ring);
    }
    assert lines[..|lines|] == lines;
  }

  /** One entry per line, with its text and time, and the labels of the two streams exchanged. */
  lemma LabelledAre(lines: seq<(string, Timestamp)>, isStderr: bool)
    ensures var entries := Labelled(lines, StreamLabel(isStderr));
            && |entries| == |lines|
            && forall k :: 0 <= k < |lines| ==>
                 entries[k] == LogEntry(if isStderr then Stdout else Stderr, lines[k].1, lines[k].0)
  {
  }

  function Labelled(lines: seq<(string, Timestamp)>, ty: LogType): seq<LogEntry> {
    seq(|lines|, k requires 0 <= k < |lines| => LogEntry(ty, lines[k].1, lines[k].0))
  }

  /** The file after the lines of a stream, formatted and written one after the other. */
  function Streamed(maxSize: nat, t: Tail, lines: seq<(string, Timestamp)>, ty: LogType): Tail {
    WriteAll(maxSize, t, FormattedAll(Labelled(lines, ty)))
  }

  lemma StreamedNext(maxSize: nat, t: Tail, lines: seq<(string, Timestamp)>, k: nat, ty: LogType)
    requires k < |lines|
    ensures var entry := LogEntry(ty, lines[k].1, lines[k].0);
            && Labelled(lines[..k + 1], ty) == Labelled(lines[..k], ty) + [entry]
            && Streamed(maxSize, t, lines[..k + 1], ty)
               == WriteOne(maxSize, Streamed(maxSize, t, lines[..k], ty), Formatted(entry))
  {
    var entry := LogEntry(ty, lines[k].1, lines[k].0);
    assert Labelled(lines[..k + 1], ty) == Labelled(lines[..k], ty) + [entry];
    WriteAllNext(maxSize, t, Labelled(lines[..k], ty), entry);
  }

  lemma WriteAllNext(maxSize: nat, t: Tail, done: seq<LogEntry>, entry: LogEntry)
    ensures WriteAll(maxSize, t, FormattedAll(done + [entry])) ==
            WriteOne(maxSize, WriteAll(maxSize, t, FormattedAll(done)), Formatted(entry))
  {
    assert (done + [entry])[..|done|] == done;
    var all := FormattedAll(done + [entry]);
    assert all[..|all| - 1] == FormattedAll(done);
  }

  // ----- what is retained -----

  function Concat(lines: seq<string>): string {
    if lines == [] then "" else Concat(lines[..|lines| - 1]) + lines[|lines| - 1]
  }

  /** Everything ever written to the file. */
  function Everything(initial: string, lines: seq<string>): string {
    initial + Concat(lines)
  }

  predicate IsSuffix(a: string, b: string) {
    |a| <= |b| && b[|b| - |a|..] == a
  }

  lemma SuffixExtends(a: string, b: string, line: string)
    requires IsSuffix(a, b)
    ensures IsSuffix(a + line, b + line)
  {
    assert (b + line)[|b| - |a|..] == b[|b| - |a|..] + line;
  }

  lemma SuffixOfSuffix(a: string, b: string, k: nat)
    requires IsSuffix(a, b)
    ensures IsSuffix(From(a, k), b)
  {
    if k <= |a| {
      assert b[|b| - |a|..][k..] == b[|b| - |a| + k..];
    }
  }

  lemma EverythingNext(initial: string, lines: seq<string>)
    requires lines != []
    ensures Everything(initial, lines) == Everything(initial, lines[..|lines| - 1]) + lines[|lines| - 1]
  {
  }

  /** The size the loop believes in is the size of everything ever written. */
  lemma {:induction false} SizeCountsEverything(maxSize: nat, initial: string, lines: seq<string>)
    ensures WriteAll(maxSize, Tail(|initial|, initial), lines).curr == |Everything(initial, lines)|
  {
    if lines != [] {
      SizeCountsEverything(maxSize, initial, lines[..|lines| - 1]);
    }
  }

  /**
   After every iteration the file is a suffix of everything ever written, no longer
   than the size the loop believes in and, once a line was written, than the limit.
   */
  lemma {:induction false} FileIsABoundedSuffix(maxSize: nat, initial: string, lines: seq<string>)
    ensures var t := WriteAll(maxSize, Tail(|initial|, initial), lines);
            && IsSuffix(t.bytes, Everything(initial, lines))
            && |t.bytes| <= t.curr
            && (lines != [] ==> |t.bytes| <= maxSize)
  {
    if lines == [] {
      assert Everything(initial, lines) == initial;
    } else {
      var n := |lines| - 1;
      FileIsABoundedSuffix(maxSize, initial, lines[..n]);
      EverythingNext(initial, lines);
      WriteKeepsSuffix(maxSize, WriteAll(maxSize, Tail(|initial|, initial), lines[..n]),
                       Everything(initial, lines[..n]), lines[n]);
    }
  }

  lemma WriteKeepsSuffix(maxSize: nat, t: Tail, all: string, line: string)
    requires IsSuffix(t.bytes, all) && |t.bytes| <= t.curr
    ensures var u := WriteOne(maxSize, t, line);
            IsSuffix(u.bytes, all + line) && |u.bytes| <= u.curr && |u.bytes| <= maxSize
  {
    SuffixExtends(t.bytes, all, line);
    var curr := t.curr + |line|;
    if curr > maxSize {
      SuffixOfSuffix(t.bytes + line, all + line, curr - maxSize / 4);
    }
  }

  /** As long as everything written fits, the file holds all of it. */
  lemma {:induction false} NothingIsLostBeforeOverflow(maxSize: nat, initial: string, lines: seq<string>)
    requires lines != [] ==> |Everything(initial, lines)| <= maxSize
    ensures WriteAll(maxSize, Tail(|initial|, initial), lines).bytes == Everything(initial, lines)
  {
    if lines != [] {
      var n := |lines| - 1;
      EverythingNext(initial, lines);
      NothingIsLostBeforeOverflow(maxSize, initial, lines[..n]);
      SizeCountsEverything(maxSize, initial, lines[..n]);
    } else {
      assert Everything(initial, lines) == initial;
    }
  }

  /** Has an iteration before the last one already overflowed? */
  predicate OverflowedBefore(maxSize: nat, initial: string, lines: seq<string>) {
    |lines| >= 2 && |Everything(initial, lines[..|lines| - 1])| > maxSize
  }

  /** The iteration that overflows first leaves exactly the last quarter of the limit. */
  lemma FirstOverflowKeepsAQuarter(maxSize: nat, initial: string, lines: seq<string>)
    requires lines != [] && |Everything(initial, lines)| > maxSize && !OverflowedBefore(maxSize, initial, lines)
    ensures var all := Everything(initial, lines);
            WriteAll(maxSize, Tail(|initial|, initial), lines).bytes == all[|all| - maxSize / 4..]
  {
    var n := |lines| - 1;
    EverythingNext(initial, lines);
    if n == 0 {
      assert Everything(initial, lines[..0]) == initial;
    } else {
      NothingIsLostBeforeOverflow(maxSize, initial, lines[..n]);
    }
    SizeCountsEverything(maxSize, initial, lines[..n]);
  }

  /** A file that has overflowed once holds at most a quarter of the limit, or nothing. */
  lemma {:induction false} AfterOverflowAtMostAQuarter(maxSize: nat, initial: string, lines: seq<string>)
    requires lines != [] && |Everything(initial, lines)| > maxSize
    ensures |WriteAll(maxSize, Tail(|initial|, initial), lines).bytes| <= maxSize / 4
  {
    var n := |lines| - 1;
    FileIsABoundedSuffix(maxSize, initial, lines[..n]);
    SizeCountsEverything(maxSize, initial, lines);
  }

  /** The believed size is never reset: after the first overflow each iteration seeks past the end and empties it. */
  lemma LaterOverflowsEmptyTheFile(maxSize: nat, initial: string, lines: seq<string>)
    requires OverflowedBefore(maxSize, initial, lines)
    ensures WriteAll(maxSize, Tail(|initial|, initial), lines).bytes == ""
  {
    var n := |lines| - 1;
    AfterOverflowAtMostAQuarter(maxSize, initial, lines[..n]);
    SizeCountsEverything(maxSize, initial, lines[..n]);
  }

  /** The retention the truncation is for: the last quarter of the limit, or everything if that is less. */
  predicate KeepsItsTail(maxSize: nat, all: string, bytes: string) {
    |bytes| >= if |all| <= maxSize / 4 then |all| else maxSize / 4
  }

  lemma HistoryOnlyGrows(initial: string, lines: seq<string>)
    requires lines != []
    ensures |Everything(initial, lines[..|lines| - 1])| <= |Everything(initial, lines)|
  {
    EverythingNext(initial, lines);
  }

  /** The loop keeps that tail exactly as long as no earlier iteration overflowed (or the quarter is empty anyway). */
  lemma TailIsKeptIffNoEarlierOverflow(maxSize: nat, initial: string, lines: seq<string>)
    ensures KeepsItsTail(maxSize, Everything(initial, lines), WriteAll(maxSize, Tail(|initial|, initial), lines).bytes)
            <==> !OverflowedBefore(maxSize, initial, lines) || maxSize < 4
  {
    var all := Everything(initial, lines);
    if OverflowedBefore(maxSize, initial, lines) {
      LaterOverflowsEmptyTheFile(maxSize, initial, lines);
      HistoryOnlyGrows(initial, lines);
    } else if lines == [] || |all| <= maxSize {
      NothingIsLostBeforeOverflow(maxSize, initial, lines);
    } else {
      FirstOverflowKeepsAQuarter(maxSize, initial, lines);
    }
  }

  // ----- the repaired loop -----

  /** The same iteration, with the believed size set to what a truncation retained. */
  function WriteOneRepaired(maxSize: nat, t: Tail, line: string): Tail {
    var curr := t.curr + |line|;
    var bytes := Truncated(maxSize, curr, t.bytes + line);
    Tail(if curr > maxSize then |bytes| else curr, bytes)
  }

  function WriteAllRepaired(maxSize: nat, t: Tail, lines: seq<string>): Tail {
    if lines == [] then t
    else WriteOneRepaired(maxSize, WriteAllRepaired(maxSize, t, lines[..|lines| - 1]), lines[|lines| - 1])
  }

  /** The repaired loop keeps its tail after every iteration, within the limit, on every stream of lines. */
  lemma {:induction false} RepairedAlwaysKeepsItsTail(maxSize: nat, initial: string, lines: seq<string>)
    ensures var t := WriteAllRepaired(maxSize, Tail(|initial|, initial), lines);
            && t.curr == |t.bytes|
            && IsSuffix(t.bytes, Everything(initial, lines))
            && KeepsItsTail(maxSize, Everything(initial, lines), t.bytes)
            && (lines != [] ==> |t.bytes| <= maxSize)
  {
    if lines == [] {
      assert Everything(initial, lines) == initial;
    } else {
      var n := |lines| - 1;
      RepairedAlwaysKeepsItsTail(maxSize, initial, lines[..n]);
      var t := WriteAllRepaired(maxSize, Tail(|initial|, initial), lines[..n]);
      EverythingNext(initial, lines);
      RepairedStepKeepsItsTail(maxSize, t, Everything(initial, lines[..n]), lines[n]);
    }
  }

  lemma RepairedStepKeepsItsTail(maxSize: nat, t: Tail, all: string, line: string)
    requires t.curr == |t.bytes| && IsSuffix(t.bytes, all) && KeepsItsTail(maxSize, all, t.bytes)
    ensures var u := WriteOneRepaired(maxSize, t, line);
            && u.curr == |u.bytes| && IsSuffix(u.bytes, all + line) && KeepsItsTail(maxSize, all + line, u.bytes)
            && |u.bytes| <= maxSize
  {
    SuffixExtends(t.bytes, all, line);
    var curr := t.curr + |line|;
    if curr > maxSize {
      SuffixOfSuffix(t.bytes + line, all + line, curr - maxSize / 4);
    }
  }

  /** Both loops agree until the first overflow and on the iteration that overflows first. */
  lemma {:induction false} RepairChangesNothingBefore(maxSize: nat, initial: string, lines: seq<string>)
    requires !OverflowedBefore(maxSize, initial, lines)
    ensures WriteAllRepaired(maxSize, Tail(|initial|, initial), lines).bytes ==
            WriteAll(maxSize, Tail(|initial|, initial), lines).bytes
  {
    if lines != [] {
      var n := |lines| - 1;
      if n > 0 {
        HistoryOnlyGrows(initial, lines[..n]);
      }
      RepairChangesNothingBefore(maxSize, initial, lines[..n]);
      RepairedAlwaysKeepsItsTail(maxSize, initial, lines[..n]);
      SizeCountsEverything(maxSize, initial, lines[..n]);
      if n > 0 {
        NothingIsLostBeforeOverflow(maxSize, initial, lines[..n]);
      }
    }
  }
}
