/**
 The readers of /proc/[pid]/status, stat and io (`LinuxRuntimeMetrics` of
 src/core/platform/linux.rs), against renderers of the same formats.
 */
module ProcFs {
  import opened Wrappers
  import opened Text

  // ----- lines -----

  function LineLength(text: string): (n: nat)
    ensures n <= |text| && (n < |text| ==> text[n] == '\n')
    ensures forall k :: 0 <= k < n ==> text[k] != '\n'
  {
    if text == "" || text[0] == '\n' then 0 else 1 + LineLength(text[1..])
  }

  /** A carriage return before the newline belongs to the line ending. */
  function WithoutReturn(line: string): string {
    if line != "" && line[|line| - 1] == '\r' then line[..|line| - 1] else line
  }

  /** `BufRead::lines`; a last line without a newline counts too. */
  function SplitLines(text: string): seq<string>
    decreases |text|
  {
    if text == "" then []
    else
      var n := LineLength(text);
      if n == |text| then [text] else [WithoutReturn(text[..n])] + SplitLines(text[n + 1..])
  }

  function JoinLines(lines: seq<string>): string {
    if lines == [] then "" else lines[0] + "\n" + JoinLines(lines[1..])
  }

  predicate IsLine(line: string) {
    (forall k :: 0 <= k < |line| ==> line[k] != '\n') && (line != "" ==> line[|line| - 1] != '\r')
  }

  lemma {:induction false} LineEndsAtNewline(line: string, rest: string)
    requires forall k :: 0 <= k < |line| ==> line[k] != '\n'
    ensures LineLength(line + "\n" + rest) == |line|
  {
    if line == "" {
      assert (line + "\n" + rest)[0] == '\n';
    } else {
      assert (line + "\n" + rest)[1..] == line[1..] + "\n" + rest;
      LineEndsAtNewline(line[1..], rest);
    }
  }

  lemma FirstLine(line: string, rest: string)
    requires IsLine(line)
    ensures SplitLines(line + "\n" + rest) == [line] + SplitLines(rest)
  {
    LineEndsAtNewline(line, rest);
    var text := line + "\n" + rest;
    assert text[..|line|] == line && text[|line| + 1..] == rest;
  }

  /** A carriage return before the newline is not part of the line, but one at the very end of the text is. */
  lemma ReturnsAreDropped(line: string, rest: string)
    requires forall k :: 0 <= k < |line| ==> line[k] != '\n'
    ensures SplitLines(line + "\r\n" + rest) == [line] + SplitLines(rest)
    ensures SplitLines(line + "\r") == [line + "\r"]
  {
    var ended, text := line + "\r", line + "\r\n" + rest;
    LineEndsAtNewline(ended, rest);
    assert text == ended + "\n" + rest;
    assert text[..|ended|] == ended && text[|ended| + 1..] == rest && ended[..|line|] == line;
  }

  lemma {:induction false} LinesOfJoined(lines: seq<string>)
    requires forall k :: 0 <= k < |lines| ==> IsLine(lines[k])
    ensures SplitLines(JoinLines(lines)) == lines
  {
    if lines != [] {
      FirstLine(lines[0], JoinLines(lines[1..]));
      LinesOfJoined(lines[1..]);
    }
  }

  // ----- status -----

  /** `trim_end_matches(":")`: all trailing colons go. */
  function WithoutColons(s: string): string {
    if s != "" && s[|s| - 1] == ':' then WithoutColons(s[..|s| - 1]) else s
  }

  function LineKey(line: string): string {
    var words := Tokens(line);
    WithoutColons(if words == [] then "" else words[0])
  }

  function LineNumber(line: string): Option<nat> {
    var words := Tokens(line);
    if |words| < 2 then None else ParseUsize(words[1])
  }

  /** The number a line gives for a key: none if it has another key or no number. */
  function NumberFor(key: string): string -> Option<nat> {
    line => if LineKey(line) == key then LineNumber(line) else None
  }

  /** What the last line that gives something gives, or the old value if none does. */
  function LastGiven(lines: seq<string>, read: string -> Option<nat>, old_value: nat): nat {
    if lines == [] then old_value
    else
      var n := |lines| - 1;
      Settle(read(lines[n]), LastGiven(lines[..n], read, old_value))
  }

  function Settle(given: Option<nat>, before: nat): nat {
    if given.Some? then given.value else before
  }

  function LastNumber(lines: seq<string>, key: string, old_value: nat): nat {
    LastGiven(lines, NumberFor(key), old_value)
  }

  lemma LastGivenNext(lines: seq<string>, line: string, read: string -> Option<nat>, old_value: nat)
    ensures LastGiven(lines + [line], read, old_value) ==
            if read(line).Some? then read(line).value else LastGiven(lines, read, old_value)
  {
    assert (lines + [line])[..|lines|] == lines;
  }

  lemma {:induction false} OtherLinesAreSkipped(
      lines: seq<string>, more: seq<string>, read: string -> Option<nat>, old_value: nat)
    requires forall j :: 0 <= j < |more| ==> read(more[j]).None?
    ensures LastGiven(lines + more, read, old_value) == LastGiven(lines, read, old_value)
  {
    if more == [] {
      assert lines + more == lines;
    } else {
      var n := |more| - 1;
      OtherLinesAreSkipped(lines, more[..n], read, old_value);
      LastGivenNext(lines + more[..n], more[n], read, old_value);
      assert lines + more == lines + more[..n] + [more[n]];
    }
  }

  /** A line that gives a number, and none after it, settles the value; without such a line the old value stays. */
  lemma LastNumberIsLast(lines: seq<string>, line: string, more: seq<string>, key: string, old_value: nat)
    requires forall j :: 0 <= j < |more| ==> NumberFor(key)(more[j]).None?
    ensures NumberFor(key)(line).Some? ==>
              Some(LastNumber(lines + [line] + more, key, old_value)) == NumberFor(key)(line)
    ensures LastNumber(more, key, old_value) == old_value
  {
    OtherLinesAreSkipped(lines + [line], more, NumberFor(key), old_value);
    LastGivenNext(lines, line, NumberFor(key), old_value);
    OtherLinesAreSkipped([], more, NumberFor(key), old_value);
    assert [] + more == more;
  }

  // ----- stat and io -----

  /** The positions read from the stat line, in order: utime, stime, cutime, cstime, num_threads. */
  function Position(k: nat): (p: nat)
    requires k < 5
    ensures 13 <= p <= 19
  {
    if k == 4 then 19 else 13 + k
  }

  datatype Outcome = Done | BadNumber | Panicked

  /** What reading one position of the stat line gives. */
  function CellOutcome(words: seq<string>, position: nat): Outcome {
    if position >= |words| then Panicked else if ParseUsize(words[position]).None? then BadNumber else Done
  }

  /** How many of the five positions are read before one fails, counting from `k`. */
  function ReadBefore(words: seq<string>, k: nat): (r: nat)
    requires k <= 5
    ensures k <= r <= 5
    ensures forall j :: k <= j < r ==> CellOutcome(words, Position(j)) == Done
    ensures r < 5 ==> CellOutcome(words, Position(r)) != Done
    decreases 5 - k
  {
    if k == 5 then 5
    else if CellOutcome(words, Position(k)) != Done then k
    else ReadBefore(words, k + 1)
  }

  /** The outcome of reading all five: that of the first position that fails. */
  function StatOutcome(words: seq<string>): Outcome {
    var read := ReadBefore(words, 0);
    if read == 5 then Done else CellOutcome(words, Position(read))
  }

  /** The k-th value after the reading: overwritten unless an earlier position, or its own, failed. */
  function CellOr(words: seq<string>, k: nat, before: nat): nat
    requires k < 5
  {
    if k < ReadBefore(words, 0) then ParseUsize(words[Position(k)]).value else before
  }

  /** The number after a prefix, with nothing before or after it. */
  function Prefixed(line: string, prefix: string): Option<nat> {
    if prefix <= line then ParseUsize(line[|prefix|..]) else None
  }

  class RuntimeMetrics {
    var vmrss: nat
    var vmswap: nat
    var vmsize: nat
    var vmhwm: nat
    var rssanon: nat
    var rssfile: nat
    var rssshmem: nat
    var uptime: nat
    var kernelTime: nat
    var childrenUptime: nat
    var childrenKerneltime: nat
    var nthreads: nat
    var readBytes: nat
    var writeBytes: nat

    constructor ()
      ensures vmrss == vmswap == vmsize == vmhwm == rssanon == rssfile == rssshmem == 0
      ensures uptime == kernelTime == childrenUptime == childrenKerneltime == nthreads == 0
      ensures readBytes == writeBytes == 0
    {
      vmrss, vmswap, vmsize, vmhwm, rssanon, rssfile, rssshmem := 0, 0, 0, 0, 0, 0, 0;
      uptime, kernelTime, childrenUptime, childrenKerneltime, nthreads := 0, 0, 0, 0, 0;
      readBytes, writeBytes := 0, 0;
    }

    /** The assignment of one line; a key that is none of the seven changes nothing. */
    method Store(key: string, value: nat)
      modifies this`vmrss, this`vmswap, this`vmsize, this`vmhwm, this`rssanon, this`rssfile, this`rssshmem
      ensures vmrss == if key == "VmRSS" then value else old(vmrss)
      ensures vmswap == if key == "VmSwap" then value else old(vmswap)
      ensures vmsize == if key == "VmSize" then value else old(vmsize)
      ensures vmhwm == if key == "VmHWM" then value else old(vmhwm)
      ensures rssanon == if key == "RssAnon" then value else old(rssanon)
      ensures rssfile == if key == "RssFile" then value else old(rssfile)
      ensures rssshmem == if key == "RssShmem" then value else old(rssshmem)
    {
      KeysDiffer();
      if key == "VmRSS" {
        vmrss := value;
      } else if key == "VmSwap" {
        vmswap := value;
      } else if key == "VmSize" {
        vmsize := value;
      } else if key == "VmHWM" {
        vmhwm := value;
      } else if key == "RssAnon" {
        rssanon := value;
      } else if key == "RssFile" {
        rssfile := value;
      } else if key == "RssShmem" {
        rssshmem := value;
      }
    }

    /** One line: its key picks the field, its number, if there is one, goes there. */
    method TakeLine(line: string)
      modifies this`vmrss, this`vmswap, this`vmsize, this`vmhwm, this`rssanon, this`rssfile, this`rssshmem
      ensures vmrss == Settle(NumberFor("VmRSS")(line), old(vmrss))
      ensures vmswap == Settle(NumberFor("VmSwap")(line), old(vmswap))
      ensures vmsize == Settle(NumberFor("VmSize")(line), old(vmsize))
      ensures vmhwm == Settle(NumberFor("VmHWM")(line), old(vmhwm))
      ensures rssanon == Settle(NumberFor("RssAnon")(line), old(rssanon))
      ensures rssfile == Settle(NumberFor("RssFile")(line), old(rssfile))
      ensures rssshmem == Settle(NumberFor("RssShmem")(line), old(rssshmem))
    {
      var number := LineNumber(line);
      if number.Some? {
        Store(LineKey(line), number.value);
      }
    }

    /** `parse_mem_status` over the text of the status file. */
    method ParseMemStatus(text: string)
      modifies this`vmrss, this`vmswap, this`vmsize, this`vmhwm, this`rssanon, this`rssfile, this`rssshmem
      ensures vmrss == LastNumber(SplitLines(text), "VmRSS", old(vmrss))
      ensures vmswap == LastNumber(SplitLines(text), "VmSwap", old(vmswap))
      ensures vmsize == LastNumber(SplitLines(text), "VmSize", old(vmsize))
      ensures vmhwm == LastNumber(SplitLines(text), "VmHWM", old(vmhwm))
      ensures rssanon == LastNumber(SplitLines(text), "RssAnon", old(rssanon))
      ensures rssfile == LastNumber(SplitLines(text), "RssFile", old(rssfile))
      ensures rssshmem == LastNumber(SplitLines(text), "RssShmem", old(rssshmem))
    {
      var lines := SplitLines(text);
      for i := 0 to |lines|
        invariant vmrss == LastNumber(lines[..i], "VmRSS", old(vmrss))
        invariant vmswap == LastNumber(lines[..i], "VmSwap", old(vmswap))
        invariant vmsize == LastNumber(lines[..i], "VmSize", old(vmsize))
        invariant vmhwm == LastNumber(lines[..i], "VmHWM", old(vmhwm))
        invariant rssanon == LastNumber(lines[..i], "RssAnon", old(rssanon))
        invariant rssfile == LastNumber(lines[..i], "RssFile", old(rssfile))
        invariant rssshmem == LastNumber(lines[..i], "RssShmem", old(rssshmem))
      {
        assert lines[..i + 1][..i] == lines[..i];
        TakeLine(lines[i]);
      }
      assert lines[..|lines|] == lines;
    }

    /** `parse_cpu_status`: the fields before a bad one are already overwritten when it is reported. */
    method ParseCpuStatus(text: string) returns (outcome: Outcome)
      modifies this`uptime, this`kernelTime, this`childrenUptime, this`childrenKerneltime, this`nthreads
      ensures outcome == StatOutcome(Tokens(text))
      ensures var words := Tokens(text);
              && uptime == CellOr(words, 0, old(uptime))
              && kernelTime == CellOr(words, 1, old(kernelTime))
              && childrenUptime == CellOr(words, 2, old(childrenUptime))
              && childrenKerneltime == CellOr(words, 3, old(childrenKerneltime))
              && nthreads == CellOr(words, 4, old(nthreads))
    {
      var words := Tokens(text);
      outcome := CellOutcome(words, 13);
      if outcome != Done { return; }
      uptime := ParseUsize(words[13]).value;
      assert ReadBefore(words, 0) == ReadBefore(words, 1);
      outcome := CellOutcome(words, 14);
      if outcome != Done { return; }
      kernelTime := ParseUsize(words[14]).value;
      assert ReadBefore(words, 0) == ReadBefore(words, 2);
      outcome := CellOutcome(words, 15);
      if outcome != Done { return; }
      childrenUptime := ParseUsize(words[15]).value;
      assert ReadBefore(words, 0) == ReadBefore(words, 3);
      outcome := ParseLastCells(words);
    }

    /** The last two assignments of `parse_cpu_status`. */
    method ParseLastCells(words: seq<string>) returns (outcome: Outcome)
      requires ReadBefore(words, 0) == ReadBefore(words, 3)
      modifies this`childrenKerneltime, this`nthreads
      ensures outcome == StatOutcome(words)
      ensures childrenKerneltime == CellOr(words, 3, old(childrenKerneltime))
      ensures nthreads == CellOr(words, 4, old(nthreads))
    {
      outcome := CellOutcome(words, 16);
      if outcome != Done { return; }
      childrenKerneltime := ParseUsize(words[16]).value;
      assert ReadBefore(words, 0) == ReadBefore(words, 4);
      outcome := CellOutcome(words, 19);
      if outcome != Done { return; }
      nthreads := ParseUsize(words[19]).value;
      assert ReadBefore(words, 4) == 5;
    }

    /** `parse_io_status`: an empty file or a malformed line panics; a missing second line counts as zero. */
    method ParseIoStatus(text: string) returns (outcome: Outcome)
      modifies this`readBytes, this`writeBytes
      ensures var lines := SplitLines(text);
              var first := if lines == [] then None else Prefixed(lines[0], "rchar: ");
              var second := if |lines| < 2 then Some(0) else Prefixed(lines[1], "wchar: ");
              && outcome == (if first.Some? && second.Some? then Done else Panicked)
              && readBytes == (if first.Some? then first.value else old(readBytes))
              && writeBytes == (if first.Some? && second.Some? then second.value else old(writeBytes))
    {
      var lines := SplitLines(text);
      if lines == [] {
        return Panicked;
      }
      var first := Prefixed(lines[0], "rchar: ");
      if first.None? {
        return Panicked;
      }
      readBytes := first.value;
      var second := if |lines| < 2 then Some(0) else Prefixed(lines[1], "wchar: ");
      if second.None? {
        return Panicked;
      }
      writeBytes := second.value;
      outcome := Done;
    }
  }

  // ----- status round trip -----

  lemma KeysDiffer()
    ensures "VmRSS" != "VmSwap" && "VmRSS" != "VmSize" && "VmRSS" != "VmHWM"
    ensures "VmSwap" != "VmSize" && "VmSwap" != "VmHWM" && "VmSize" != "VmHWM"
    ensures "RssAnon" != "RssFile" && "RssAnon" != "RssShmem" && "RssFile" != "RssShmem"
    ensures "RssAnon"[0] != "VmRSS"[0] == "VmSwap"[0] == "VmSize"[0] == "VmHWM"[0]
    ensures "RssAnon"[0] == "RssFile"[0] == "RssShmem"[0]
  {
    assert "VmSwap"[3] != "VmSize"[3];
    assert "VmRSS"[2] != "VmHWM"[2];
    assert "RssAnon"[3] != "RssFile"[3];
  }

  /** One line of a status file: a memory key with its gap, or a line with another key. */
  datatype StatusRecord = Memory(key: string, gap: string) | Foreign(line: string)

  function Rendered(r: StatusRecord, values: string -> nat): string {
    match r
    case Memory(key, gap) => key + ":" + gap + Decimal(values(key)) + " kB"
    case Foreign(line) => line
  }

  function RenderedAll(records: seq<StatusRecord>, values: string -> nat): seq<string> {
    seq(|records|, k requires 0 <= k < |records| => Rendered(records[k], values))
  }

  /** Tabs and spaces; the kernel prints one tab and as many spaces as right-align the number. */
  predicate IsGap(gap: string) {
    gap != "" && forall k :: 0 <= k < |gap| ==> gap[k] == '\t' || gap[k] == ' '
  }

  predicate IsKey(key: string) {
    IsWord(key) && key[|key| - 1] != ':'
  }

  /** The lines are those of a status file for this key: memory lines, and lines of other keys. */
  ghost predicate WellFormed(records: seq<StatusRecord>, values: string -> nat, key: string) {
    forall k :: 0 <= k < |records| ==> WellFormedRecord(records[k], values, key)
  }

  ghost predicate WellFormedRecord(r: StatusRecord, values: string -> nat, key: string) {
    match r
    case Memory(k, gap) => IsKey(k) && IsGap(gap) && values(k) < 0x1_0000_0000_0000_0000
    case Foreign(line) => IsLine(line) && LineKey(line) != key
  }

  lemma {:induction false} ColonsGo(word: string, colons: string)
    requires word == "" || word[|word| - 1] != ':'
    requires forall k :: 0 <= k < |colons| ==> colons[k] == ':'
    ensures WithoutColons(word + colons) == word
  {
    if colons == "" {
      assert word + colons == word;
    } else {
      var n := |colons| - 1;
      assert (word + colons)[..|word + colons| - 1] == word + colons[..n];
      ColonsGo(word, colons[..n]);
    }
  }

  lemma GapIsBlank(gap: string)
    requires IsGap(gap)
    ensures Blank(gap)
  {
  }

  lemma WordThenBlanks(word: string, blanks: string, rest: string)
    requires IsWord(word) && blanks != "" && Blank(blanks)
    ensures Tokens(word + blanks + rest) == [word] + Tokens(rest)
  {
    WordIsToken("", word, blanks + rest);
    assert "" + word + (blanks + rest) == word + blanks + rest;
    BlankVanishes(blanks, rest);
  }

  lemma Regroup(a: string, b: string, c: string, d: string)
    ensures a + b + c + d == a + b + (c + d)
  {
  }

  /** A word, a gap, a number and a unit are three tokens, the first two of them known. */
  lemma LineTokens(word: string, gap: string, n: nat)
    requires IsWord(word) && IsGap(gap)
    ensures Tokens(word + gap + Decimal(n) + " kB") == [word] + ([Decimal(n)] + Tokens("kB"))
  {
    var rest := Decimal(n) + " kB";
    Regroup(word, gap, Decimal(n), " kB");
    assert Tokens(word + gap + rest) == [word] + Tokens(rest) by {
      GapIsBlank(gap);
      WordThenBlanks(word, gap, rest);
    }
    assert Tokens(rest) == [Decimal(n)] + Tokens("kB") by {
      DecimalIsWord(n);
      WordThenBlanks(Decimal(n), " ", "kB");
      assert Decimal(n) + " " + "kB" == rest;
    }
  }

  /** A line as the kernel prints it is read as its key and its number. */
  lemma RenderedLineReads(key: string, gap: string, n: nat)
    requires IsKey(key) && IsGap(gap) && n < 0x1_0000_0000_0000_0000
    ensures var line := key + ":" + gap + Decimal(n) + " kB"; LineKey(line) == key && LineNumber(line) == Some(n)
  {
    LineTokens(key + ":", gap, n);
    ColonsGo(key, ":");
    ParseOfDecimal(n);
  }

  /** In particular after the kernel's tab, whatever spaces follow it. */
  lemma KernelLineReads(key: string, pad: string, n: nat)
    requires IsKey(key) && (forall k :: 0 <= k < |pad| ==> pad[k] == ' ') && n < 0x1_0000_0000_0000_0000
    ensures var line := key + ":\t" + pad + Decimal(n) + " kB"; LineKey(line) == key && LineNumber(line) == Some(n)
  {
    TabGap(key, pad);
    RenderedLineReads(key, "\t" + pad, n);
  }

  lemma TabGap(key: string, pad: string)
    ensures key + ":" + ("\t" + pad) == key + ":\t" + pad
  {
    assert key + ":\t" == key + ":" + "\t";
  }

  ghost predicate Mentions(records: seq<StatusRecord>, key: string) {
    exists k :: 0 <= k < |records| && records[k].Memory? && records[k].key == key
  }

  lemma MentionsNext(records: seq<StatusRecord>, key: string)
    requires records != []
    ensures var n := |records| - 1;
            Mentions(records, key) <==>
            Mentions(records[..n], key) || (records[n].Memory? && records[n].key == key)
  {
    var n := |records| - 1;
    if Mentions(records[..n], key) {
      var k :| 0 <= k < n && records[..n][k].Memory? && records[..n][k].key == key;
      assert records[k] == records[..n][k];
    }
    if Mentions(records, key) {
      var k :| 0 <= k < |records| && records[k].Memory? && records[k].key == key;
      assert k == n || records[..n][k] == records[k];
    }
  }

  /** A line of the key settles its value, whatever stands before; other lines leave it. */
  lemma {:induction false} LastNumberOfRendered(
      records: seq<StatusRecord>, values: string -> nat, key: string, old_value: nat)
    requires WellFormed(records, values, key)
    ensures LastNumber(RenderedAll(records, values), key, old_value) ==
            if Mentions(records, key) then values(key) else old_value
  {
    if records != [] {
      var n := |records| - 1;
      LastNumberOfRendered(records[..n], values, key, old_value);
      MentionsNext(records, key);
      LastRecordSettles(records[..n], records[n], values, key, old_value);
      assert RenderedAll(records, values) == RenderedAll(records[..n], values) + [Rendered(records[n], values)];
    }
  }

  lemma LastRecordSettles(
      records: seq<StatusRecord>, r: StatusRecord, values: string -> nat, key: string, old_value: nat)
    requires WellFormedRecord(r, values, key)
    ensures LastNumber(RenderedAll(records, values) + [Rendered(r, values)], key, old_value) ==
            if r.Memory? && r.key == key then values(key) else LastNumber(RenderedAll(records, values), key, old_value)
  {
    LastLineReads(r, values, key);
    LastNumberNext(RenderedAll(records, values), Rendered(r, values), key, old_value);
  }

  lemma LastNumberNext(lines: seq<string>, line: string, key: string, old_value: nat)
    ensures LastNumber(lines + [line], key, old_value) ==
            if LineKey(line) == key && LineNumber(line).Some? then LineNumber(line).value
            else LastNumber(lines, key, old_value)
  {
    assert (lines + [line])[..|lines|] == lines;
  }

  lemma LastLineReads(r: StatusRecord, values: string -> nat, key: string)
    requires WellFormedRecord(r, values, key)
    ensures r.Memory? ==>
              LineKey(Rendered(r, values)) == r.key && LineNumber(Rendered(r, values)) == Some(values(r.key))
    ensures r.Foreign? ==> LineKey(Rendered(r, values)) != key
  {
    if r.Memory? {
      RenderedLineReads(r.key, r.gap, values(r.key));
    }
  }

  lemma RenderedIsLine(r: StatusRecord, values: string -> nat, key: string)
    requires WellFormedRecord(r, values, key)
    ensures IsLine(Rendered(r, values))
  {
    if r.Memory? {
      var line := Rendered(r, values);
      DecimalIsWord(values(r.key));
      assert line[|line| - 1] == 'B';
    }
  }

  /**
   Rendering any values of the seven keys among foreign lines, and splitting and
   reading the text again, recovers every value that was rendered.
   */
  lemma StatusRoundTrip(records: seq<StatusRecord>, values: string -> nat, key: string, old_value: nat)
    requires WellFormed(records, values, key)
    ensures LastNumber(SplitLines(JoinLines(RenderedAll(records, values))), key, old_value) ==
            if Mentions(records, key) then values(key) else old_value
  {
    var lines := RenderedAll(records, values);
    forall k | 0 <= k < |lines| ensures IsLine(lines[k]) {
      assert WellFormedRecord(records[k], values, key);
      RenderedIsLine(records[k], values, key);
    }
    LinesOfJoined(lines);
    LastNumberOfRendered(records, values, key, old_value);
  }

  ghost predicate Shows(records: seq<StatusRecord>, values: string -> nat, key: string) {
    WellFormed(records, values, key) && Mentions(records, key)
  }

  /** The text of a status file that shows a key has the key's number as the last one. */
  lemma ShownIsRead(records: seq<StatusRecord>, values: string -> nat, key: string, text: string, before: nat)
    requires Shows(records, values, key) && text == JoinLines(RenderedAll(records, values))
    ensures LastNumber(SplitLines(text), key, before) == values(key)
  {
    StatusRoundTrip(records, values, key, before);
  }

  /** A status file that has all seven lines, in any order and among any others, sets all seven fields. */
  method ReadStatus(m: RuntimeMetrics, records: seq<StatusRecord>, values: string -> nat)
    requires Shows(records, values, "VmRSS") && Shows(records, values, "VmSwap") && Shows(records, values, "VmSize")
    requires Shows(records, values, "VmHWM") && Shows(records, values, "RssAnon")
    requires Shows(records, values, "RssFile") && Shows(records, values, "RssShmem")
    modifies m
    ensures m.vmrss == values("VmRSS") && m.vmswap == values("VmSwap") && m.vmsize == values("VmSize")
    ensures m.vmhwm == values("VmHWM") && m.rssanon == values("RssAnon") && m.rssfile == values("RssFile")
    ensures m.rssshmem == values("RssShmem")
  {
    var text := JoinLines(RenderedAll(records, values));
    ShownIsRead(records, values, "VmRSS", text, m.vmrss);
    ShownIsRead(records, values, "VmSwap", text, m.vmswap);
    ShownIsRead(records, values, "VmSize", text, m.vmsize);
    ShownIsRead(records, values, "VmHWM", text, m.vmhwm);
    ShownIsRead(records, values, "RssAnon", text, m.rssanon);
    ShownIsRead(records, values, "RssFile", text, m.rssfile);
    ShownIsRead(records, values, "RssShmem", text, m.rssshmem);
    m.ParseMemStatus(text);
  }

  // ----- stat round trip -----

  /** The command name as the kernel prints it. */
  function Shown(name: string): string {
    "(" + name + ")"
  }

  /** The stat line of a process: pid, command name, and the fields from the third on. */
  function StatLine(pid: string, name: string, rest: seq<string>): string {
    pid + " " + (Shown(name) + " " + (Joined(rest) + "\n"))
  }

  predicate HasNoBlank(name: string) {
    forall k :: 0 <= k < |name| ==> !IsWhitespace(name[k])
  }

  lemma {:induction false} LastWordIsSeen(s: string)
    requires s != "" && !IsWhitespace(s[|s| - 1])
    ensures Tokens(s) != []
  {
    if IsWhitespace(s[0]) {
      LastWordIsSeen(s[1..]);
    }
  }

  /** The printed name is one word exactly if the name has no blank. */
  lemma ShownIsOneWord(name: string)
    ensures |Tokens(Shown(name))| >= 1
    ensures |Tokens(Shown(name))| == 1 <==> HasNoBlank(name)
  {
    var s := Shown(name);
    var n := WordLength(s);
    assert s[0] == '(' && s[|s| - 1] == ')';
    if n == |s| {
      assert s[n..] == "";
      assert forall k :: 0 <= k < |name| ==> name[k] == s[k + 1];
    } else {
      assert IsWhitespace(s[n]) && name[n - 1] == s[n];
      assert s[n..][|s[n..]| - 1] == ')';
      LastWordIsSeen(s[n..]);
    }
  }

  /**
   Splitting a stat line: a command name of e extra words shifts every later field
   by e, so position p holds field p + 1 - e.
   */
  lemma StatFieldsShift(pid: string, name: string, rest: seq<string>)
    requires IsWord(pid) && forall k :: 0 <= k < |rest| ==> IsWord(rest[k])
    ensures Tokens(StatLine(pid, name, rest)) == [pid] + Tokens(Shown(name)) + rest
  {
    var tail := Joined(rest) + "\n";
    assert Tokens(tail) == rest by { TokensOfJoined(rest, "\n"); }
    assert Tokens(Shown(name) + " " + tail) == Tokens(Shown(name)) + Tokens(tail) by {
      TabAndSpaceSeparate(Shown(name), tail);
    }
    WordThenTokens(pid, Shown(name) + " " + tail);
  }

  /** The reader gets the five values out of these words, whatever its fields held before. */
  ghost predicate ReadsAs(words: seq<string>, values: seq<nat>) {
    && |values| == 5 && StatOutcome(words) == Done
    && forall k, before: nat :: 0 <= k < 5 ==> CellOr(words, k, before) == values[k]
  }

  /** The state of a process: one letter. */
  predicate IsState(word: string) {
    |word| == 1 && ('A' <= word[0] <= 'Z' || 'a' <= word[0] <= 'z')
  }

  /**
   The fields from the third on: a state letter, and utime, stime, cutime, cstime and
   num_threads in decimal as fields 14 to 17 and 20.
   */
  ghost predicate Holds(rest: seq<string>, values: seq<nat>) {
    && |rest| >= 18 && |values| == 5 && IsState(rest[0])
    && (forall k :: 0 <= k < |rest| ==> IsWord(rest[k]))
    && (forall k :: 0 <= k < 5 ==> values[k] < 0x1_0000_0000_0000_0000)
    && rest[14 - 3] == Decimal(values[0]) && rest[15 - 3] == Decimal(values[1]) && rest[16 - 3] == Decimal(values[2])
    && rest[17 - 3] == Decimal(values[3]) && rest[20 - 3] == Decimal(values[4])
  }

  /** For a command name without a blank the reader recovers utime, stime, cutime, cstime and num_threads. */
  lemma StatRoundTrip(pid: nat, name: string, rest: seq<string>, values: seq<nat>)
    requires HasNoBlank(name) && Holds(rest, values)
    ensures ReadsAs(Tokens(StatLine(Decimal(pid), name, rest)), values)
  {
    DecimalIsWord(pid);
    ShownIsOneWord(name);
    StatFieldsShift(Decimal(pid), name, rest);
    UnshiftedReads([Decimal(pid)] + Tokens(Shown(name)) + rest, rest, values);
  }

  lemma UnshiftedReads(words: seq<string>, rest: seq<string>, values: seq<nat>)
    requires Holds(rest, values) && |words| == |rest| + 2 && words[2..] == rest
    ensures ReadsAs(words, values)
  {
    forall k | 0 <= k < 5 ensures ParseUsize(words[Position(k)]) == Some(values[k]) {
      assert words[Position(k)] == words[2..][Position(k) - 2];
      ParseOfDecimal(values[k]);
    }
    assert forall k :: 0 <= k < 5 ==> CellOutcome(words, Position(k)) == Done;
    assert ReadBefore(words, 0) == 5;
  }

  /** The word at a place is there and is a number. */
  predicate Readable(words: seq<string>, p: nat) {
    p < |words| && ParseUsize(words[p]).Some?
  }

  lemma CellIsDone(words: seq<string>, p: nat)
    ensures CellOutcome(words, p) == Done <==> Readable(words, p)
  {
  }

  /** The places are 13, 14, 15, 16 and 19, read in this order up to the first that is not readable. */
  lemma PlacesInOrder(words: seq<string>)
    ensures var read := ReadBefore(words, 0);
            && (0 < read <==> Readable(words, 13))
            && (1 < read <==> Readable(words, 13) && Readable(words, 14))
            && (2 < read <==> Readable(words, 13) && Readable(words, 14) && Readable(words, 15))
            && (3 < read <==> FirstFour(words))
            && (4 < read <==> FirstFour(words) && Readable(words, 19))
  {
    var read := ReadBefore(words, 0);
    forall j | 0 <= j < 5 ensures CellOutcome(words, Position(j)) == Done <==> Readable(words, Position(j)) {
      CellIsDone(words, Position(j));
    }
    assert Position(0) == 13 && Position(1) == 14 && Position(2) == 15 && Position(3) == 16 && Position(4) == 19;
    assert forall j :: 0 <= j < read ==> Readable(words, Position(j));
    assert read < 5 ==> !Readable(words, Position(read));
  }

  predicate FirstFour(words: seq<string>) {
    Readable(words, 13) && Readable(words, 14) && Readable(words, 15) && Readable(words, 16)
  }

  /**
   Which of the five fields are overwritten: each one whose word is readable, as long
   as those before it are.
   */
  lemma FieldsAreExact(words: seq<string>, before: nat)
    ensures CellOr(words, 0, before) == if Readable(words, 13) then ParseUsize(words[13]).value else before
    ensures CellOr(words, 1, before) ==
            if Readable(words, 13) && Readable(words, 14) then ParseUsize(words[14]).value else before
    ensures CellOr(words, 2, before) ==
            if Readable(words, 13) && Readable(words, 14) && Readable(words, 15) then ParseUsize(words[15]).value
            else before
    ensures CellOr(words, 3, before) == if FirstFour(words) then ParseUsize(words[16]).value else before
    ensures CellOr(words, 4, before) ==
            if FirstFour(words) && Readable(words, 19) then ParseUsize(words[19]).value else before
  {
    PlacesInOrder(words);
  }

  /** It succeeds if all five are readable, and panics if the first that is not lies beyond the line. */
  lemma StatOutcomeIsExact(words: seq<string>)
    ensures StatOutcome(words) == Done <==> FirstFour(words) && Readable(words, 19)
    ensures StatOutcome(words) == Panicked <==>
            || |words| <= 13
            || (|words| == 14 && Readable(words, 13))
            || (|words| == 15 && Readable(words, 13) && Readable(words, 14))
            || (|words| == 16 && Readable(words, 13) && Readable(words, 14) && Readable(words, 15))
            || (17 <= |words| <= 19 && FirstFour(words))
  {
    PlacesInOrder(words);
    var read := ReadBefore(words, 0);
    assert Position(0) == 13 && Position(1) == 14 && Position(2) == 15 && Position(3) == 16 && Position(4) == 19;
    assert read < 5 ==> (StatOutcome(words) == Panicked <==> Position(read) >= |words|);
  }

  /** A stat line of a process whose name has no blank sets the five fields. */
  method ReadStat(m: RuntimeMetrics, pid: nat, name: string, rest: seq<string>, utime: nat, stime: nat, cutime: nat,
                  cstime: nat, threads: nat)
    requires HasNoBlank(name) && Holds(rest, [utime, stime, cutime, cstime, threads])
    modifies m
    ensures m.uptime == utime && m.kernelTime == stime && m.childrenUptime == cutime
    ensures m.childrenKerneltime == cstime && m.nthreads == threads
  {
    StatRoundTrip(pid, name, rest, [utime, stime, cutime, cstime, threads]);
    var outcome := m.ParseCpuStatus(StatLine(Decimal(pid), name, rest));
    assert outcome == Done;
  }

  /** A sleeping process all of whose fields are zero, except perhaps its utime. */
  function SleepingRecord(utime: nat): seq<string> {
    seq(50, k => if k == 0 then "S" else if k == 11 && utime == 1 then "1" else "0")
  }

  lemma SleepingRecordHolds(utime: nat)
    requires utime <= 1
    ensures Holds(SleepingRecord(utime), [utime, 0, 0, 0, 0])
  {
    assert Decimal(1) == "1" && Decimal(0) == "0";
  }

  /** The first value comes from the wrong word, or from the name itself, if the name has a blank. */
  lemma MisreadRecord(pid: nat, name: string) returns (rest: seq<string>, values: seq<nat>)
    requires !HasNoBlank(name)
    ensures Holds(rest, values) && !ReadsAs(Tokens(StatLine(Decimal(pid), name, rest)), values)
  {
    ShownIsOneWord(name);
    var shown := Tokens(Shown(name));
    var n := |shown|;
    var utime := if n <= 12 || ParseUsize(shown[12]) == Some(0) then 1 else 0;
    rest, values := SleepingRecord(utime), [utime, 0, 0, 0, 0];
    SleepingRecordHolds(utime);
    DecimalIsWord(pid);
    StatFieldsShift(Decimal(pid), name, rest);
    WrongWordMisreads([Decimal(pid)] + shown + rest, if n <= 12 then rest[12 - n] else shown[12], utime);
  }

  lemma WrongWordMisreads(words: seq<string>, word: string, utime: nat)
    requires |words| > 13 && words[13] == word && utime <= 1
    requires word == "S" || (word == "0" && utime == 1) || (ParseUsize(word) == Some(0) <==> utime == 1)
    ensures !ReadsAs(words, [utime, 0, 0, 0, 0])
  {
    assert ParseUsize("0") == Some(0) by { ParseOfDecimal(0); }
    assert Position(0) == 13;
    var values := [utime, 0, 0, 0, 0];
    assert ReadsAs(words, values) ==> CellOr(words, 0, 0) == values[0] && ReadBefore(words, 0) != 0;
  }

  /** The reader is right about every record of a process exactly if its command name has no blank. */
  lemma StatIsReadIffNoBlank(pid: nat, name: string)
    ensures (forall rest, values :: Holds(rest, values) ==>
               ReadsAs(Tokens(StatLine(Decimal(pid), name, rest)), values))
            <==> HasNoBlank(name)
  {
    if HasNoBlank(name) {
      forall rest, values | Holds(rest, values) ensures ReadsAs(Tokens(StatLine(Decimal(pid), name, rest)), values) {
        StatRoundTrip(pid, name, rest, values);
      }
    } else {
      var rest, values := MisreadRecord(pid, name);
    }
  }

  // ----- io round trip -----

  /** The number of a line with a prefix is that of the whole rest; a line without the prefix has none. */
  lemma PrefixedIsExact(line: string, prefix: string, n: nat)
    ensures Prefixed(line, prefix) == Some(n) <==> exists rest :: line == prefix + rest && ParseUsize(rest) == Some(n)
  {
    if prefix <= line {
      assert line == prefix + line[|prefix|..];
      assert forall rest: string :: line == prefix + rest ==> rest == line[|prefix|..];
    }
  }

  lemma PrefixedOfRendered(prefix: string, n: nat)
    requires n <= USIZE_MAX
    ensures Prefixed(prefix + Decimal(n), prefix) == Some(n)
  {
    var line := prefix + Decimal(n);
    assert line[..|prefix|] == prefix && line[|prefix|..] == Decimal(n);
    ParseOfDecimal(n);
  }

  /** The first two lines of an io file give back the two counters, whatever lines follow. */
  lemma IoRoundTrip(read: nat, written: nat, rest: seq<string>)
    requires read <= USIZE_MAX && written <= USIZE_MAX && forall k :: 0 <= k < |rest| ==> IsLine(rest[k])
    ensures var lines := SplitLines(JoinLines(["rchar: " + Decimal(read), "wchar: " + Decimal(written)] + rest));
            && |lines| >= 2
            && Prefixed(lines[0], "rchar: ") == Some(read)
            && Prefixed(lines[1], "wchar: ") == Some(written)
  {
    var all := ["rchar: " + Decimal(read), "wchar: " + Decimal(written)] + rest;
    forall k | 0 <= k < |all| ensures IsLine(all[k]) {
      if k >= 2 {
        assert all[k] == rest[k - 2];
      } else {
        DecimalIsWord(if k == 0 then read else written);
      }
    }
    LinesOfJoined(all);
    PrefixedOfRendered("rchar: ", read);
    PrefixedOfRendered("wchar: ", written);
  }
}
