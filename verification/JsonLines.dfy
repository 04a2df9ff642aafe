/** Text as lines of records: splitting, parsing and the complete part of a growing file. */
module JsonLines {
  import opened Vectors

  /** The record format: how one record is written and how one line is read, if it can be. */
  datatype Codec<!R> = Codec(dumps: R -> string, loads: string -> Option<R>)

  predicate IsBreak(c: char) {
    c == '\n' || c == '\r'
  }

  predicate IsBlank(line: string) {
    forall k :: 0 <= k < |line| ==> line[k] in " \t\n\r\U{0B}\U{0C}"
  }

  /** The first line break at or after k, or the end. */
  function BreakFrom(s: string, k: nat): (b: nat)
    requires k <= |s|
    ensures k <= b <= |s|
    ensures forall i :: k <= i < b ==> !IsBreak(s[i])
    ensures b < |s| ==> IsBreak(s[b])
    decreases |s| - k
  {
    if k == |s| || IsBreak(s[k]) then k else BreakFrom(s, k + 1)
  }

  /** Where the line after a break at b starts: \r\n is one break. */
  function AfterBreak(s: string, b: nat): (n: nat)
    requires b < |s|
    ensures b < n <= |s|
  {
    if s[b] == '\r' && b + 1 < |s| && s[b + 1] == '\n' then b + 2 else b + 1
  }

  /** Lines as splitlines cuts them: at \n, \r or \r\n, without the breaks. */
  function Lines(s: string): seq<string>
    decreases |s|
  {
    if |s| == 0 then []
    else
      var b := BreakFrom(s, 0);
      if b == |s| then [s] else [s[..b]] + Lines(s[AfterBreak(s, b)..])
  }

  /** Up to and including the last newline. */
  function CompleteLength(s: string): (n: nat)
    ensures n <= |s|
    ensures n > 0 ==> s[n - 1] == '\n'
    ensures forall k :: n <= k < |s| ==> s[k] != '\n'
  {
    if |s| == 0 then 0
    else if s[|s| - 1] == '\n' then |s|
    else CompleteLength(s[..|s| - 1])
  }

  /** The first line with its newline, or all there is if none has come yet. */
  function FirstLine(s: string): string {
    if |s| == 0 then "" else if s[0] == '\n' then [s[0]] else [s[0]] + FirstLine(s[1..])
  }

  predicate EndsLine(s: string) {
    |s| > 0 && s[|s| - 1] == '\n'
  }

  /** The records of some lines, blank lines aside, or None if a line is no record. */
  function Parse<R>(codec: Codec<R>, lines: seq<string>): Option<seq<R>> {
    if |lines| == 0 then Some([])
    else
      var rest := Parse(codec, lines[1..]);
      if IsBlank(lines[0]) then rest
      else if codec.loads(lines[0]).None? || rest.None? then None
      else Some([codec.loads(lines[0]).value] + rest.value)
  }

  /** The records on the complete lines of a text. */
  function Records<R>(codec: Codec<R>, s: string): Option<seq<R>> {
    Parse(codec, Lines(s[..CompleteLength(s)]))
  }

  function Last<R>(n: nat, rows: seq<R>): (r: seq<R>)
    ensures |r| == if |rows| <= n then |rows| else n
  {
    if |rows| <= n then rows else rows[|rows| - n..]
  }

  lemma LastAppend<R>(n: nat, a: seq<R>, b: seq<R>)
    ensures Last(n, Last(n, a) + b) == Last(n, a + b)
  {
  }

  /** Cutting at a newline cuts no line. */
  lemma {:induction false} LinesConcat(a: string, b: string)
    requires a == "" || EndsLine(a)
    ensures Lines(a + b) == Lines(a) + Lines(b)
    decreases |a|
  {
    hide BreakFrom, AfterBreak, Lines;
    if a == "" {
      assert Lines(a) == [] by {
        NoLines();
      }
      assert a + b == b && [] + Lines(b) == Lines(b);
    } else {
      var k := BreakFrom(a, 0);
      assert k < |a| by {
        assert IsBreak(a[|a| - 1]);
      }
      SameBreak(a, b, 0);
      SameAfterBreak(a, b, k);
      var n := AfterBreak(a, k);
      LinesConcat(a[n..], b);
      Slices(a, b, k);
      Slices(a, b, n);
      FirstCut(a);
      FirstCut(a + b);
      assert [a[..k]] + (Lines(a[n..]) + Lines(b)) == ([a[..k]] + Lines(a[n..])) + Lines(b);
    }
  }

  lemma NoLines()
    ensures Lines("") == []
  {
  }

  lemma FirstCut(s: string)
    requires BreakFrom(s, 0) < |s|
    ensures var b := BreakFrom(s, 0); Lines(s) == [s[..b]] + Lines(s[AfterBreak(s, b)..])
  {
  }

  lemma Slices(a: string, b: string, k: nat)
    requires k <= |a|
    ensures (a + b)[..k] == a[..k] && (a + b)[k..] == a[k..] + b
  {
  }

  lemma SameAfterBreak(a: string, b: string, k: nat)
    requires EndsLine(a) && k < |a|
    ensures AfterBreak(a + b, k) == AfterBreak(a, k)
  {
  }

  lemma {:induction false} SameBreak(a: string, b: string, k: nat)
    requires k <= |a| && BreakFrom(a, k) < |a|
    ensures BreakFrom(a + b, k) == BreakFrom(a, k)
    decreases |a| - k
  {
    if !(k == |a| || IsBreak(a[k])) {
      SameBreak(a, b, k + 1);
    }
  }

  lemma {:induction false} ParseConcat<R>(codec: Codec<R>, x: seq<string>, y: seq<string>)
    ensures Parse(codec, x + y) ==
      if Parse(codec, x).None? || Parse(codec, y).None? then None
      else Some(Parse(codec, x).value + Parse(codec, y).value)
  {
    if |x| == 0 {
      assert x + y == y;
      if Parse(codec, y).Some? {
        assert [] + Parse(codec, y).value == Parse(codec, y).value;
      }
    } else {
      ParseConcat(codec, x[1..], y);
      assert (x + y)[1..] == x[1..] + y && (x + y)[0] == x[0];
      var p, q := Parse(codec, x[1..]), Parse(codec, y);
      if p.Some? && q.Some? && codec.loads(x[0]).Some? {
        assert [codec.loads(x[0]).value] + (p.value + q.value) == ([codec.loads(x[0]).value] + p.value) + q.value;
      }
    }
  }

  /** The lines that are not blank, in order. */
  function Filled(lines: seq<string>): (f: seq<string>)
    ensures forall line :: line in f <==> line in lines && !IsBlank(line)
  {
    if |lines| == 0 then [] else (if IsBlank(lines[0]) then [] else [lines[0]]) + Filled(lines[1..])
  }

  /** Parsing fails exactly when some line that is not blank is no record, and else reads these lines one by one. */
  lemma {:induction false} ParseMeans<R>(codec: Codec<R>, lines: seq<string>)
    ensures Parse(codec, lines).None? <==> exists line :: line in lines && !IsBlank(line) && codec.loads(line).None?
    ensures var p, f := Parse(codec, lines), Filled(lines);
      p.Some? ==> |p.value| == |f| && forall k :: 0 <= k < |f| ==> codec.loads(f[k]) == Some(p.value[k])
  {
    if |lines| > 0 {
      hide IsBlank;
      ParseMeans(codec, lines[1..]);
      assert lines == [lines[0]] + lines[1..];
      if !IsBlank(lines[0]) {
        assert Filled(lines) == [lines[0]] + Filled(lines[1..]);
      } else {
        assert Filled(lines) == Filled(lines[1..]);
      }
    }
  }

  /** A line of spaces, tabs and the like adds nothing, wherever it stands. */
  lemma BlankSkipped<R>(codec: Codec<R>, x: seq<string>, blank: string, y: seq<string>)
    requires forall k :: 0 <= k < |blank| ==>
      blank[k] == ' ' || blank[k] == '\t' || blank[k] == '\n' || blank[k] == '\r'
      || blank[k] == '\U{0B}' || blank[k] == '\U{0C}'
    ensures Parse(codec, x + [blank] + y) == Parse(codec, x + y)
  {
    ParseConcat(codec, x, [blank] + y);
    ParseConcat(codec, x, y);
    assert x + [blank] + y == x + ([blank] + y);
    assert ([blank] + y)[1..] == y && IsBlank(blank);
  }

  /** A line ends at \n, at \r\n, or at \r that no \n follows; the last one may end with the text. */
  lemma LinesMeans(line: string, rest: string)
    requires forall k :: 0 <= k < |line| ==> line[k] != '\n' && line[k] != '\r'
    ensures Lines(line + "\n" + rest) == [line] + Lines(rest)
    ensures Lines(line + "\r\n" + rest) == [line] + Lines(rest)
    ensures rest == "" || rest[0] != '\n' ==> Lines(line + "\r" + rest) == [line] + Lines(rest)
    ensures Lines(line) == if line == "" then [] else [line]
  {
    hide Lines;
    CutAt(line, "\n", rest);
    CutAt(line, "\r\n", rest);
    if rest == "" || rest[0] != '\n' {
      CutAt(line, "\r", rest);
    }
    OnlyLine(line);
  }

  lemma OnlyLine(line: string)
    requires forall k :: 0 <= k < |line| ==> !IsBreak(line[k])
    ensures Lines(line) == if line == "" then [] else [line]
  {
    FirstBreakIs(line, 0, |line|);
  }

  lemma CutAt(line: string, end: string, rest: string)
    requires forall k :: 0 <= k < |line| ==> !IsBreak(line[k])
    requires end == "\n" || end == "\r\n" || (end == "\r" && (rest == "" || rest[0] != '\n'))
    ensures Lines(line + end + rest) == [line] + Lines(rest)
  {
    var s := line + end + rest;
    FirstBreakIs(s, 0, |line|);
    assert s[..|line|] == line && s[|line| + |end|..] == rest;
  }

  lemma {:induction false} FirstBreakIs(s: string, k: nat, b: nat)
    requires k <= b <= |s| && (b < |s| ==> IsBreak(s[b])) && forall i :: k <= i < b ==> !IsBreak(s[i])
    ensures BreakFrom(s, k) == b
  {
  }

  lemma {:induction false} CompleteConcat(a: string, b: string)
    requires a == "" || EndsLine(a)
    ensures CompleteLength(a + b) == |a| + CompleteLength(b)
  {
    if |b| == 0 {
      assert a + b == a;
    } else {
      CompleteConcat(a, b[..|b| - 1]);
      assert (a + b)[..|a + b| - 1] == a + b[..|b| - 1];
    }
  }

  /** The records of a text are those of its first lines followed by those of the rest. */
  lemma RecordsConcat<R>(codec: Codec<R>, a: string, b: string)
    requires a == "" || EndsLine(a)
    ensures Records(codec, a + b) ==
      if Records(codec, a).None? || Records(codec, b).None? then None
      else Some(Records(codec, a).value + Records(codec, b).value)
  {
    hide Lines, Parse, CompleteLength;
    CompleteConcat(a, b);
    CompleteConcat(a, "");
    var n := CompleteLength(b);
    assert (a + b)[..|a| + n] == a + b[..n] && a + "" == a;
    LinesConcat(a, b[..n]);
    assert a[..CompleteLength(a)] == a;
    ParseConcat(codec, Lines(a), Lines(b[..n]));
  }

  lemma {:induction false} FirstLinePrefix(a: string, b: string)
    requires EndsLine(FirstLine(a))
    ensures FirstLine(a + b) == FirstLine(a)
  {
    if a[0] != '\n' {
      assert (a + b)[1..] == a[1..] + b;
      assert FirstLine(a) == [a[0]] + FirstLine(a[1..]);
      assert FirstLine(a[1..]) != "";
      FirstLinePrefix(a[1..], b);
    }
  }

  /** A text has a complete first line exactly when it has a complete line. */
  lemma {:induction false} FirstLineComplete(a: string)
    ensures EndsLine(FirstLine(a)) <==> CompleteLength(a) > 0
    ensures EndsLine(FirstLine(a)) ==> |FirstLine(a)| <= CompleteLength(a)
  {
    if |a| > 0 {
      if a[0] == '\n' {
        assert FirstLine(a) == [a[0]];
      } else {
        FirstLineComplete(a[1..]);
        assert FirstLine(a) == [a[0]] + FirstLine(a[1..]);
        CompleteTail(a);
        if EndsLine(FirstLine(a)) {
          assert FirstLine(a[1..]) != "";
        }
      }
    }
  }

  lemma {:induction false} CompleteTail(a: string)
    requires |a| > 0 && a[0] != '\n'
    ensures CompleteLength(a) == if CompleteLength(a[1..]) == 0 then 0 else 1 + CompleteLength(a[1..])
  {
    var m := CompleteLength(a[1..]);
    var n := if m == 0 then 0 else 1 + m;
    forall k | n <= k < |a| ensures a[k] != '\n' {
      assert k > 0 ==> a[1..][k - 1] == a[k];
    }
    CompleteIs(a, n);
  }

  lemma CompleteIs(s: string, n: nat)
    requires n <= |s| && (n > 0 ==> s[n - 1] == '\n') && forall k :: n <= k < |s| ==> s[k] != '\n'
    ensures CompleteLength(s) == n
  {
    var m := CompleteLength(s);
    assert m > 0 ==> s[m - 1] == '\n';
  }
}
