/** The telemetry writer and the incremental reader of its file (src/telemetry/metrics.py). */
module Telemetry {
  import opened Vectors
  import opened JsonLines

  // ---------------------------------------------------------------- the reader

  /** The reader's state: recent rows, how many there were, and where and in which file it stopped. */
  datatype Tail<R> = Tail(rows: seq<R>, total: nat, offset: nat, firstLine: Option<string>)

  function Blank<R>(): Tail<R> {
    Tail([], 0, 0, None)
  }

  /** The file is shorter than what was read of it, or starts with another line. */
  predicate Replaced<R>(tail: Tail<R>, content: string) {
    |content| < tail.offset || (tail.firstLine.Some? && FirstLine(content) != tail.firstLine.value)
  }

  /** One pass over the file: the state it leaves, and whether every new line parsed. */
  function Pass<R>(codec: Codec<R>, maxRows: nat, tail: Tail<R>, content: string): (bool, Tail<R>) {
    var t := if Replaced(tail, content) then Blank() else tail;
    var t1 := if t.firstLine.None? && EndsLine(FirstLine(content)) then t.(firstLine := Some(FirstLine(content))) else t;
    var chunk := if t1.offset <= |content| then content[t1.offset..] else "";
    var parsed := Records(codec, chunk);
    if parsed.None? then (false, t1)
    else (true, Tail(Last(maxRows, t1.rows + parsed.value), t1.total + |parsed.value|,
                     t1.offset + CompleteLength(chunk), t1.firstLine))
  }

  /** A read: a pass, and after a failed one a second pass from scratch. */
  function Reading<R>(codec: Codec<R>, maxRows: nat, tail: Tail<R>, content: Option<string>): Tail<R> {
    if content.None? then Blank()
    else
      var first := Pass(codec, maxRows, tail, content.value);
      if first.0 then first.1
      else
        var second := Pass(codec, maxRows, Blank(), content.value);
        if second.0 then second.1 else Blank()
  }

  class JsonlTail<R> {
    const codec: Codec<R>
    const maxRows: nat
    var rows: seq<R>
    var totalRows: nat
    var offset: nat
    var firstLine: Option<string>

    function View(): Tail<R>
      reads this
    {
      Tail(rows, totalRows, offset, firstLine)
    }

    constructor (codec: Codec<R>, maxRows: nat)
      ensures View() == Blank() && this.codec == codec && this.maxRows == maxRows
    {
      this.codec, this.maxRows := codec, maxRows;
      rows, totalRows, offset, firstLine := [], 0, 0, None;
    }

    method Reset()
      modifies this
      ensures View() == Blank()
    {
      rows, totalRows, offset, firstLine := [], 0, 0, None;
    }

    /** parsed is false where the source raises ValueError. */
    method ReadNew(content: Option<string>) returns (parsed: bool)
      modifies this
      ensures content.None? ==> parsed && View() == Blank()
      ensures content.Some? ==> (parsed, View()) == Pass(codec, maxRows, old(View()), content.value)
    {
      hide Records, CompleteLength, FirstLine;
      if content.None? {
        Reset();
        return true;
      }
      var first, size := FirstLine(content.value), |content.value|;
      if size < offset || (firstLine.Some? && first != firstLine.value) {
        Reset();
      }
      if firstLine.None? && EndsLine(first) {
        firstLine := Some(first);
      }
      var chunk := if offset <= size then content.value[offset..] else "";
      var end, records := CompleteLength(chunk), Records(codec, chunk);
      if records.None? {
        return false;
      }
      rows := Last(maxRows, rows + records.value);
      totalRows := totalRows + |records.value|;
      offset := offset + end;
      return true;
    }

    method Read(content: Option<string>) returns (out: seq<R>)
      modifies this
      ensures View() == Reading(codec, maxRows, old(View()), content) && out == rows
    {
      for attempt := 0 to 2
        invariant attempt == 0 ==> View() == old(View())
        invariant attempt > 0 ==>
          && content.Some? && View() == Blank()
          && !Pass(codec, maxRows, old(View()), content.value).0
        invariant attempt > 1 ==> !Pass(codec, maxRows, Blank(), content.value).0
      {
        var parsed := ReadNew(content);
        if parsed {
          return rows;
        }
        Reset();
      }
      return rows;
    }
  }

  // ---------------------------------------------------------------- reading the whole file afresh

  /** What a reader of the whole file reports: its last complete records, or nothing if a complete line is no record. */
  function Expected<R>(codec: Codec<R>, maxRows: nat, content: Option<string>): Tail<R> {
    if content.None? || Records(codec, content.value).None? then Blank()
    else
      var all := Records(codec, content.value).value;
      Tail(Last(maxRows, all), |all|, CompleteLength(content.value),
           if EndsLine(FirstLine(content.value)) then Some(FirstLine(content.value)) else None)
  }

  /**
   Between two reads the file grew, was deleted, appeared, or was replaced by one whose first line
   differs from the first complete line seen.
   */
  predicate Evolves(was: Option<string>, now: Option<string>) {
    || was.None? || now.None?
    || was.value <= now.value
    || !EndsLine(FirstLine(was.value))
    || FirstLine(now.value) != FirstLine(was.value)
  }

  /** From scratch one pass reads the whole file. */
  lemma BlankPass<R>(codec: Codec<R>, maxRows: nat, content: string)
    ensures var pass := Pass(codec, maxRows, Blank(), content);
      pass.0 == Records(codec, content).Some? && (pass.0 ==> pass.1 == Expected(codec, maxRows, Some(content)))
  {
    hide Records, CompleteLength, FirstLine;
    assert content[0..] == content;
    if Records(codec, content).Some? {
      assert [] + Records(codec, content).value == Records(codec, content).value;
    }
  }

  lemma BlankReading<R>(codec: Codec<R>, maxRows: nat, content: Option<string>)
    ensures Reading(codec, maxRows, Blank(), content) == Expected(codec, maxRows, content)
  {
    hide Pass, Expected;
    if content.Some? {
      BlankPass(codec, maxRows, content.value);
      BlankWhenMalformed(codec, maxRows, content);
    } else {
      BlankWhenMalformed(codec, maxRows, content);
    }
  }

  lemma BlankWhenMalformed<R>(codec: Codec<R>, maxRows: nat, content: Option<string>)
    ensures content.None? || Records(codec, content.value).None? ==> Expected(codec, maxRows, content) == Blank()
  {
  }

  /** What a grown file holds beyond what was read of it. */
  lemma GrownRecords<R>(codec: Codec<R>, was: string, now: string)
    requires was <= now && Records(codec, was).Some? && CompleteLength(was) > 0
    ensures var chunk := now[CompleteLength(was)..];
      && CompleteLength(now) == CompleteLength(was) + CompleteLength(chunk)
      && Records(codec, now) ==
           if Records(codec, chunk).None? then None
           else Some(Records(codec, was).value + Records(codec, chunk).value)
  {
    hide Records, CompleteLength;
    var n := CompleteLength(was);
    var head, chunk := was[..n], now[n..];
    assert now == head + chunk;
    RecordsConcat(codec, head, chunk);
    NothingComplete(codec, was);
    CompleteConcat(head, chunk);
  }

  /** A file that grew: the pass over what was added continues the reading of the whole. */
  lemma GrownPass<R>(codec: Codec<R>, maxRows: nat, was: string, now: string)
    requires was <= now && Records(codec, was).Some? && CompleteLength(was) > 0
    ensures var pass := Pass(codec, maxRows, Expected(codec, maxRows, Some(was)), now);
      pass.0 == Records(codec, now).Some? && (pass.0 ==> pass.1 == Expected(codec, maxRows, Some(now)))
  {
    hide Records, CompleteLength, FirstLine, Last;
    FirstLineComplete(was);
    SameFirstLine(was, now);
    GrownRecords(codec, was, now);
    var chunk := now[CompleteLength(was)..];
    if Records(codec, chunk).Some? {
      LastAppend(maxRows, Records(codec, was).value, Records(codec, chunk).value);
    }
  }

  lemma SameFirstLine(was: string, now: string)
    requires was <= now && EndsLine(FirstLine(was))
    ensures FirstLine(now) == FirstLine(was)
  {
    assert now == was + now[|was|..];
    FirstLinePrefix(was, now[|was|..]);
  }

  /** Past the last newline there is no record yet. */
  lemma NothingComplete<R>(codec: Codec<R>, s: string)
    ensures Records(codec, s[CompleteLength(s)..]) == Some([])
    ensures Records(codec, s[..CompleteLength(s)]) == Records(codec, s)
  {
    var n := CompleteLength(s);
    CompleteIs(s[n..], 0);
    CompleteIs(s[..n], n);
    assert s[n..][..0] == "" && s[..n][..n] == s[..n];
  }

  /** A reader that agrees with the file as it was agrees with it as it is. */
  lemma ReadingKeepsUp<R>(codec: Codec<R>, maxRows: nat, was: Option<string>, now: Option<string>)
    requires Evolves(was, now)
    ensures Reading(codec, maxRows, Expected(codec, maxRows, was), now) == Expected(codec, maxRows, now)
  {
    hide Records, CompleteLength, FirstLine, Pass;
    var tail := Expected(codec, maxRows, was);
    BlankReading(codec, maxRows, now);
    if now.Some? && tail != Blank() {
      FirstLineComplete(was.value);
      if CompleteLength(was.value) > 0 && was.value <= now.value {
        GrownPass(codec, maxRows, was.value, now.value);
        BlankPass(codec, maxRows, now.value);
      } else if CompleteLength(was.value) > 0 {
        DetectedPass(codec, maxRows, tail, now.value);
      } else {
        NoCompleteLine(codec, maxRows, was.value);
      }
    }
  }

  /** With no complete line yet the reader is where it began. */
  lemma NoCompleteLine<R>(codec: Codec<R>, maxRows: nat, content: string)
    requires CompleteLength(content) == 0
    ensures Expected(codec, maxRows, Some(content)) == Blank()
  {
    FirstLineComplete(content);
    assert content[..0] == "";
  }

  lemma DetectedPass<R>(codec: Codec<R>, maxRows: nat, tail: Tail<R>, content: string)
    requires Replaced(tail, content)
    ensures Pass(codec, maxRows, tail, content) == Pass(codec, maxRows, Blank(), content)
  {
  }

  /** The reader's state after reading a series of snapshots of the file. */
  function AfterReads<R>(codec: Codec<R>, maxRows: nat, snapshots: seq<Option<string>>): Tail<R> {
    if |snapshots| == 0 then Blank()
    else
      var n := |snapshots| - 1;
      Reading(codec, maxRows, AfterReads(codec, maxRows, snapshots[..n]), snapshots[n])
  }

  /**
   Through appends, half-written lines, deletions and replacements, every read leaves the reader
   exactly as if it had read the whole current file: the last maxRows complete records, their full
   count, and an offset on a line boundary.
   */
  lemma {:induction false} ReaderAgreesWithFile<R>(codec: Codec<R>, maxRows: nat, snapshots: seq<Option<string>>)
    requires |snapshots| > 0
    requires forall k :: 0 < k < |snapshots| ==> Evolves(snapshots[k - 1], snapshots[k])
    ensures AfterReads(codec, maxRows, snapshots) == Expected(codec, maxRows, snapshots[|snapshots| - 1])
  {
    hide Reading, Expected, Evolves;
    var n := |snapshots| - 1;
    if n == 0 {
      assert AfterReads(codec, maxRows, snapshots[..n]) == Blank();
      BlankReading(codec, maxRows, snapshots[n]);
    } else {
      ReaderAgreesWithFile(codec, maxRows, snapshots[..n]);
      assert snapshots[..n][n - 1] == snapshots[n - 1];
      ReadingKeepsUp(codec, maxRows, snapshots[n - 1], snapshots[n]);
    }
  }

  /**
   What it takes for a reader that agreed with the file `was` to agree with the file `now`: the
   replacement shows, or nothing had been read, or the new part does not parse, so that the file is
   read again; or else old and new part together count as many records as the whole file, leave the
   same last rows, and end where its last complete line ends.
   */
  ghost predicate StaysRight<R(!new)>(codec: Codec<R>, maxRows: nat, was: string, now: string) {
    var tail := Expected(codec, maxRows, Some(was));
    || Replaced(tail, now) || tail.firstLine.None?
    || var seen, chunk := Records(codec, was), now[tail.offset..];
       Records(codec, chunk).None? || Continues(codec, maxRows, seen, tail.offset, chunk, now)
  }

  ghost predicate Continues<R(!new)>(codec: Codec<R>, maxRows: nat, seen: Option<seq<R>>, offset: nat,
                                     chunk: string, now: string)
    requires Records(codec, chunk).Some?
  {
    && seen.Some? && Records(codec, now).Some?
    && var rows := seen.value + Records(codec, chunk).value;
       && |rows| == |Records(codec, now).value|
       && Last(maxRows, rows) == Last(maxRows, Records(codec, now).value)
       && offset + CompleteLength(chunk) == CompleteLength(now)
  }

  /** Whatever the file became, the reader is right about it exactly then. */
  lemma ReaderRightIff<R(!new)>(codec: Codec<R>, maxRows: nat, was: string, now: string)
    ensures Reading(codec, maxRows, Expected(codec, maxRows, Some(was)), Some(now)) == Expected(codec, maxRows, Some(now))
      <==> StaysRight(codec, maxRows, was, now)
  {
    hide Records, CompleteLength, FirstLine, Pass, Last;
    var tail := Expected(codec, maxRows, Some(was));
    BlankReading(codec, maxRows, Some(now));
    BlankPass(codec, maxRows, now);
    FirstLineComplete(was);
    if Replaced(tail, now) {
      DetectedPass(codec, maxRows, tail, now);
    } else if tail.firstLine.None? {
      NothingRead(codec, maxRows, was);
    } else {
      UnnoticedPass(codec, maxRows, was, now);
    }
  }

  lemma NothingRead<R(!new)>(codec: Codec<R>, maxRows: nat, was: string)
    requires Expected(codec, maxRows, Some(was)).firstLine.None?
    ensures Expected(codec, maxRows, Some(was)) == Blank()
  {
    hide Records, CompleteLength, FirstLine;
    FirstLineComplete(was);
    if CompleteLength(was) == 0 {
      NoCompleteLine(codec, maxRows, was);
    }
  }

  /** A pass that takes the file for the one it knows goes on from the offset. */
  lemma PassGoesOn<R(!new)>(codec: Codec<R>, maxRows: nat, tail: Tail<R>, now: string)
    requires tail.firstLine.Some? && !Replaced(tail, now)
    ensures tail.offset <= |now| && FirstLine(now) == tail.firstLine.value
    ensures var chunk := now[tail.offset..];
      Pass(codec, maxRows, tail, now) ==
        if Records(codec, chunk).None? then (false, tail)
        else (true, Tail(Last(maxRows, tail.rows + Records(codec, chunk).value),
                         tail.total + |Records(codec, chunk).value|,
                         tail.offset + CompleteLength(chunk), tail.firstLine))
  {
    hide Records, CompleteLength, FirstLine, Last;
  }

  /** The pass over a file whose replacement does not show. */
  lemma UnnoticedPass<R(!new)>(codec: Codec<R>, maxRows: nat, was: string, now: string)
    requires var tail := Expected(codec, maxRows, Some(was)); tail.firstLine.Some? && !Replaced(tail, now)
    ensures Records(codec, was).Some? && CompleteLength(was) <= |now| && EndsLine(FirstLine(was))
    ensures FirstLine(now) == FirstLine(was)
    ensures var seen, n := Records(codec, was).value, CompleteLength(was);
      var chunk := now[n..];
      Pass(codec, maxRows, Expected(codec, maxRows, Some(was)), now) ==
        if Records(codec, chunk).None? then (false, Expected(codec, maxRows, Some(was)))
        else (true, Tail(Last(maxRows, seen + Records(codec, chunk).value), |seen| + |Records(codec, chunk).value|,
                         n + CompleteLength(chunk), Some(FirstLine(was))))
  {
    hide Records, CompleteLength, FirstLine, Last, Pass, Replaced, EndsLine;
    var tail := Expected(codec, maxRows, Some(was));
    PassGoesOn(codec, maxRows, tail, now);
    assert tail.offset == CompleteLength(was);
    var chunk := now[CompleteLength(was)..];
    if Records(codec, chunk).Some? {
      LastAppend(maxRows, Records(codec, was).value, Records(codec, chunk).value);
    }
  }

  /**
   At a line boundary a replacement that does not show leaves the reader right exactly when the part
   it had read holds as many records in the new file, and, as far as the rows after them leave room
   in the window, the same last ones.
   */
  lemma RightAtLineBoundary<R(!new)>(codec: Codec<R>, maxRows: nat, was: string, now: string)
    requires Records(codec, was).Some? && CompleteLength(was) > 0 && Records(codec, now).Some?
    requires !Replaced(Expected(codec, maxRows, Some(was)), now)
    requires EndsLine(now[..CompleteLength(was)])
    ensures Records(codec, now[..CompleteLength(was)]).Some? && Records(codec, now[CompleteLength(was)..]).Some?
    ensures var kept, head, more := Records(codec, was).value, Records(codec, now[..CompleteLength(was)]).value,
                                    Records(codec, now[CompleteLength(was)..]).value;
      StaysRight(codec, maxRows, was, now)
      <==> |kept| == |head|
           && (|more| >= maxRows || Last(maxRows - |more|, kept) == Last(maxRows - |more|, head))
  {
    hide Records, CompleteLength, FirstLine, Last;
    var n := CompleteLength(was);
    var head, chunk := now[..n], now[n..];
    assert now == head + chunk;
    FirstLineComplete(was);
    RecordsConcat(codec, head, chunk);
    CompleteConcat(head, chunk);
    var kept, replaced, more := Records(codec, was).value, Records(codec, head).value, Records(codec, chunk).value;
    if |kept| == |replaced| {
      LastOfTwo(maxRows, kept, replaced, more);
    }
  }

  /** Two sequences with the same end have the same last rows iff that end fills the window or the rest of it agrees. */
  lemma LastOfTwo<R(!new)>(n: nat, kept: seq<R>, head: seq<R>, more: seq<R>)
    requires |kept| == |head|
    ensures Last(n, kept + more) == Last(n, head + more)
      <==> |more| >= n || Last(n - |more|, kept) == Last(n - |more|, head)
  {
    if |more| >= n {
      assert Last(n, kept + more) == Last(n, more) == Last(n, head + more);
    } else {
      var k, h := Last(n - |more|, kept), Last(n - |more|, head);
      assert Last(n, kept + more) == k + more && Last(n, head + more) == h + more;
      assert |k| == |h| && (k + more)[..|k|] == k && (h + more)[..|h|] == h;
    }
  }

  /** Records of one letter each. */
  function Letters(): Codec<char> {
    Codec(c => [c], line => if |line| == 1 then Some(line[0]) else None)
  }

  lemma LetterLines(c: char, d: char)
    requires 'a' <= c <= 'z' && 'a' <= d <= 'z'
    ensures Records(Letters(), [c, '\n', d, '\n']) == Some([c, d])
    ensures CompleteLength([c, '\n', d, '\n']) == 4 && FirstLine([c, '\n', d, '\n']) == [c, '\n']
  {
    var s, x, y := [c, '\n', d, '\n'], [c, '\n'], [d, '\n'];
    assert s == x + y;
    LetterLine(c);
    LetterLine(d);
    RecordsConcat(Letters(), x, y);
    CompleteIs(s, 4);
    assert s[1..][0] == '\n' && FirstLine(s[1..]) == "\n";
    assert [c] + [d] == [c, d];
  }

  lemma LetterLine(c: char)
    requires 'a' <= c <= 'z'
    ensures Records(Letters(), [c, '\n']) == Some([c])
  {
    var s := [c, '\n'];
    CompleteIs(s, 2);
    assert s[..2] == s && s[..1] == [c] && s[2..] == "";
    assert BreakFrom(s, 1) == 1;
    assert Lines(s) == [[c]] + Lines("");
    assert Lines(s) == [[c]] && [[c]][1..] == [];
    assert [c][0] == c && !IsBlank([c]);
    assert Parse(Letters(), []) == Some([]);
    assert Letters().loads([c]) == Some(c);
    assert Parse(Letters(), [[c]]) == Some([c] + []);
    assert [c] + [] == [c];
  }

  /** A new file that begins like the old one: the reader keeps reporting the old one's records. */
  lemma ReplacementMissed()
    ensures AfterReads(Letters(), 9, [Some("a\nb\n"), Some("a\nc\n")]).rows == ['a', 'b']
    ensures Expected(Letters(), 9, Some("a\nc\n")).rows == ['a', 'c']
  {
    hide Records, CompleteLength, FirstLine;
    var was, now := "a\nb\n", "a\nc\n";
    LetterLines('a', 'b');
    LetterLines('a', 'c');
    FirstReading(Letters(), 9, was);
    var snapshots := [Some(was), Some(now)];
    assert snapshots[..1] == [Some(was)];
    hide AfterReads;
    assert now[4..] == "";
    NothingComplete(Letters(), "");
    assert ""[CompleteLength("")..] == "";
    assert ['a', 'b'] + [] == ['a', 'b'];
  }

  lemma FirstReading<R(!new)>(codec: Codec<R>, maxRows: nat, seen: string)
    ensures AfterReads(codec, maxRows, [Some(seen)]) == Expected(codec, maxRows, Some(seen))
  {
    hide Reading, Expected;
    assert [Some(seen)][..0] == [];
    BlankReading(codec, maxRows, Some(seen));
  }

  // ---------------------------------------------------------------- the writer

  /** Records survive the trip, each on one line of its own. */
  ghost predicate Sound<R(!new)>(codec: Codec<R>) {
    forall r ::
      && codec.loads(codec.dumps(r)) == Some(r)
      && !IsBlank(codec.dumps(r))
      && forall k :: 0 <= k < |codec.dumps(r)| ==> !IsBreak(codec.dumps(r)[k])
  }

  /** The file's text after writing these records. */
  function Text<R>(codec: Codec<R>, records: seq<R>): string {
    if |records| == 0 then ""
    else Text(codec, records[..|records| - 1]) + (codec.dumps(records[|records| - 1]) + "\n")
  }

  /** With a path, every record is appended to the file; `visible` is how much of it has reached the file system. */
  class TelemetryBuffer<R> {
    const codec: Codec<R>
    const maxHistory: nat
    const flushInterval: real
    const hasPath: bool
    var history: seq<R>
    var written: string
    var visible: nat
    var recordsWritten: nat
    var lastFlush: real
    ghost var records: seq<R>

    ghost predicate Valid()
      reads this
    {
      && history == Last(maxHistory, records)
      && (hasPath ==> written == Text(codec, records) && recordsWritten == |records|)
      && (!hasPath ==> written == "" && recordsWritten == 0)
      && visible <= |written|
    }

    constructor (codec: Codec<R>, maxHistory: nat, flushInterval: real, hasPath: bool)
      ensures Valid() && records == [] && this.codec == codec && this.maxHistory == maxHistory
      ensures this.flushInterval == flushInterval && this.hasPath == hasPath && lastFlush == 0.0
    {
      this.codec, this.maxHistory, this.flushInterval, this.hasPath := codec, maxHistory, flushInterval, hasPath;
      history, written, visible, recordsWritten, lastFlush, records := [], "", 0, 0, 0.0, [];
    }

    /** Between flushes the file object writes out as much as it likes: up to `spilled` characters of the text so far. */
    method Record(record: R, now: real, spilled: nat)
      requires Valid()
      modifies this
      ensures Valid() && records == old(records) + [record] && visible >= old(visible)
      ensures hasPath && now - old(lastFlush) >= flushInterval ==> visible == |written| && lastFlush == now
      ensures !hasPath || now - old(lastFlush) < flushInterval ==> lastFlush == old(lastFlush)
      ensures hasPath && now - old(lastFlush) < flushInterval && old(visible) <= spilled <= |written| ==> visible == spilled
      ensures !hasPath ==> visible == old(visible)
    {
      LastAppend(maxHistory, records, [record]);
      history := Last(maxHistory, history + [record]);
      records := records + [record];
      assert records[..|records| - 1] == old(records);
      if hasPath {
        written := written + (codec.dumps(record) + "\n");
        recordsWritten := recordsWritten + 1;
        if now - lastFlush >= flushInterval {
          visible := |written|;
          lastFlush := now;
        } else if visible <= spilled <= |written| {
          visible := spilled;
        }
      }
    }
  }

  /** One record's line reads back as that record. */
  lemma LineReadsBack<R(!new)>(codec: Codec<R>, r: R)
    requires Sound(codec)
    ensures EndsLine(codec.dumps(r) + "\n") && Records(codec, codec.dumps(r) + "\n") == Some([r])
  {
    var line := codec.dumps(r);
    var s := line + "\n";
    FirstBreakIs(s, 0, |line|);
    assert s[..|line|] == line && s[|line| + 1..] == "";
    assert Lines(s) == [line] + Lines("");
    CompleteIs(s, |s|);
    assert s[..|s|] == s;
    assert Lines(s) == [line];
    assert [line][1..] == [] && Parse<R>(codec, []) == Some([]) && [r] + [] == [r];
    assert codec.loads(line) == Some(r) && !IsBlank(line);
  }

  lemma {:induction false} TextReadsBack<R(!new)>(codec: Codec<R>, records: seq<R>)
    requires Sound(codec)
    ensures Text(codec, records) == "" || EndsLine(Text(codec, records))
    ensures Records(codec, Text(codec, records)) == Some(records)
  {
    hide Records, Sound;
    if |records| == 0 {
      NothingComplete(codec, "");
      assert ""[CompleteLength("")..] == "";
    } else {
      var n := |records| - 1;
      TextReadsBack(codec, records[..n]);
      LineReadsBack(codec, records[n]);
      RecordsConcat(codec, Text(codec, records[..n]), codec.dumps(records[n]) + "\n");
      assert records == records[..n] + [records[n]];
    }
  }

  /** Text that the file shows while these records are written: some prefix, cut anywhere. */
  predicate Shows<R>(codec: Codec<R>, records: seq<R>, seen: string) {
    seen <= Text(codec, records)
  }

  /** How many records lie wholly within the first `seen` characters. */
  function Whole<R>(codec: Codec<R>, records: seq<R>, seen: nat): (n: nat)
    ensures n <= |records|
  {
    if |records| == 0 then 0
    else if |Text(codec, records)| <= seen then |records|
    else Whole(codec, records[..|records| - 1], seen)
  }

  /** Whatever prefix of the writer's file is visible, the reader reports exactly the records wholly in it. */
  lemma {:induction false} ReaderSeesWholeRecords<R(!new)>(codec: Codec<R>, maxRows: nat, records: seq<R>, seen: string)
    requires Sound(codec) && Shows(codec, records, seen)
    ensures var whole := records[..Whole(codec, records, |seen|)];
      && Text(codec, whole) <= seen
      && Expected(codec, maxRows, Some(seen)).rows == Last(maxRows, whole)
      && Expected(codec, maxRows, Some(seen)).total == |whole|
      && Expected(codec, maxRows, Some(seen)).offset == |Text(codec, whole)|
  {
    hide Records, Sound;
    if |Text(codec, records)| <= |seen| {
      assert seen == Text(codec, records);
      TextReadsBack(codec, records);
      CompleteIs(seen, |seen|);
      assert Whole(codec, records, |seen|) == |records|;
      assert records[..|records|] == records;
    } else {
      var n := |records| - 1;
      var before := Text(codec, records[..n]);
      if |seen| <= |before| {
        ReaderSeesWholeRecords(codec, maxRows, records[..n], seen);
        var w := Whole(codec, records, |seen|);
        assert w == Whole(codec, records[..n], |seen|) && records[..n][..w] == records[..w];
      } else {
        PartialLine(codec, records, seen);
      }
    }
  }

  /**
   End to end: after any number of reads of the writer's file, and of whatever stood there before,
   the reader holds the last maxRows of exactly the records wholly visible at the last read.
   */
  lemma ReaderFollowsWriter<R(!new)>(codec: Codec<R>, maxRows: nat, records: seq<R>, snapshots: seq<Option<string>>,
                                     seen: string)
    requires Sound(codec) && Shows(codec, records, seen)
    requires |snapshots| > 0 && snapshots[|snapshots| - 1] == Some(seen)
    requires forall k :: 0 < k < |snapshots| ==> Evolves(snapshots[k - 1], snapshots[k])
    ensures var whole := records[..Whole(codec, records, |seen|)];
      && AfterReads(codec, maxRows, snapshots).rows == Last(maxRows, whole)
      && AfterReads(codec, maxRows, snapshots).total == |whole|
  {
    hide AfterReads, Expected, Evolves, Sound, Shows;
    ReaderAgreesWithFile(codec, maxRows, snapshots);
    ReaderSeesWholeRecords(codec, maxRows, records, seen);
  }

  /** A last line that is still being written adds nothing. */
  lemma PartialLine<R(!new)>(codec: Codec<R>, records: seq<R>, seen: string)
    requires Sound(codec) && Shows(codec, records, seen) && |records| > 0
    requires |Text(codec, records[..|records| - 1])| < |seen| < |Text(codec, records)|
    ensures Whole(codec, records, |seen|) == |records| - 1
    ensures Text(codec, records[..|records| - 1]) <= seen
    ensures CompleteLength(seen) == |Text(codec, records[..|records| - 1])|
    ensures Records(codec, seen) == Some(records[..|records| - 1])
  {
    hide Records, CompleteLength, Sound, IsBlank;
    var n := |records| - 1;
    var before, line := Text(codec, records[..n]), codec.dumps(records[n]);
    var part := seen[|before|..];
    assert seen == before + part && part <= line;
    TextReadsBack(codec, records[..n]);
    NoNewline(codec, records[n], part);
    CompleteConcat(before, part);
    NothingComplete(codec, part);
    assert part[0..] == part;
    RecordsConcat(codec, before, part);
    assert records[..n] + [] == records[..n];
    WholeAll(codec, records[..n], |seen|);
  }

  lemma NoNewline<R(!new)>(codec: Codec<R>, r: R, part: string)
    requires Sound(codec) && part <= codec.dumps(r)
    ensures CompleteLength(part) == 0
  {
    forall k | 0 <= k < |part| ensures part[k] != '\n' {
      assert part[k] == codec.dumps(r)[k];
    }
    CompleteIs(part, 0);
  }

  lemma WholeAll<R>(codec: Codec<R>, records: seq<R>, seen: nat)
    requires |Text(codec, records)| <= seen
    ensures Whole(codec, records, seen) == |records|
  {
  }
}
