/**
 * What a frame looks like on the wire, said without an algorithm, and the
 * proof that the parser accepts exactly that.
 */
module Grammar {
  import opened Options
  import opened Bytes
  import opened Frame
  import opened Parser

  /** One header line. `cr`: the line ends in CRLF rather than LF. */
  datatype Line = Line(name: seq<byte>, value: seq<byte>, cr: bool)

  datatype Shape = Shape(leading: nat, command: seq<byte>, cr: bool, lines: seq<Line>, body: seq<byte>)

  function Eol(cr: bool): seq<byte> {
    if cr then [CR, LF] else [LF]
  }

  function LineText(l: Line): seq<byte> {
    l.name + [COLON] + l.value
  }

  function LinesBytes(lines: seq<Line>): seq<byte> {
    if lines == [] then [] else LineText(lines[0]) + Eol(lines[0].cr) + LinesBytes(lines[1..])
  }

  function HeadersOf(lines: seq<Line>): seq<Header> {
    if lines == [] then [] else [Header(lines[0].name, lines[0].value)] + HeadersOf(lines[1..])
  }

  function LFs(n: nat): (s: seq<byte>)
    ensures |s| == n
  {
    seq(n, _ => LF)
  }

  function Head(s: Shape): seq<byte> {
    LFs(s.leading) + s.command + Eol(s.cr)
  }

  function WireBytes(s: Shape): seq<byte> {
    Head(s) + LinesBytes(s.lines) + [LF] + s.body + [NUL]
  }

  predicate EndsInCR(s: seq<byte>) {
    |s| > 0 && s[|s| - 1] == CR
  }

  predicate GoodCommand(s: Shape) {
    && Lacks(s.command, LF)
    && (s.command != [] || s.cr)
    && (!s.cr ==> !EndsInCR(s.command))
  }

  predicate GoodLine(l: Line) {
    && Lacks(l.name, LF) && Lacks(l.name, COLON) && Lacks(l.value, LF)
    && (!l.cr ==> !EndsInCR(l.value))
  }

  predicate GoodLines(lines: seq<Line>) {
    lines == [] || (GoodLine(lines[0]) && GoodLines(lines[1..]))
  }

  predicate GoodBody(s: Shape, max: nat) {
    && |s.body| <= max
    && match ContentLength(HeadersOf(s.lines))
       case Length(n) => n == |s.body|
       case Absent => Lacks(s.body, NUL)
       case BadLength(_) => false
  }

  predicate GoodShape(s: Shape, max: nat) {
    GoodCommand(s) && GoodLines(s.lines) && GoodBody(s, max)
  }

  /** An empty body is reported as absent unless a `content-length` announced it. */
  function BodyOf(s: Shape): Option<seq<byte>> {
    if ContentLength(HeadersOf(s.lines)).Absent? then NoneIfEmpty(s.body) else Some(s.body)
  }

  function ReadingOf(s: Shape): Parsed {
    Done(s.command, HeadersOf(s.lines), BodyOf(s), |WireBytes(s)|)
  }

  // ---------------------------------------------------------------- growing the buffer

  lemma {:induction false} IndexStable(input: seq<byte>, more: seq<byte>, from: nat, b: byte)
    requires from <= |input| && IndexFrom(input, from, b) < |input|
    ensures IndexFrom(input + more, from, b) == IndexFrom(input, from, b)
    decreases |input| - from
  {
    if input[from] != b {
      IndexStable(input, more, from + 1, b);
    }
  }

  lemma {:induction false} SkipStable(input: seq<byte>, more: seq<byte>, pos: nat)
    requires pos <= |input| && SkipLF(input, pos) < |input|
    ensures SkipLF(input + more, pos) == SkipLF(input, pos)
    decreases |input| - pos
  {
    if input[pos] == LF {
      SkipStable(input, more, pos + 1);
    }
  }

  lemma LineStable(input: seq<byte>, more: seq<byte>, pos: nat)
    requires pos <= |input| && IndexFrom(input, pos, LF) < |input|
    ensures IndexFrom(input + more, pos, LF) == IndexFrom(input, pos, LF)
    ensures (input + more)[pos..IndexFrom(input, pos, LF)] == input[pos..IndexFrom(input, pos, LF)]
  {
    IndexStable(input, more, pos, LF);
  }

  lemma {:induction false} HeadersStable(input: seq<byte>, more: seq<byte>, pos: nat)
    requires pos <= |input| && !ReadHeaders(input, pos).HeadersMore?
    ensures ReadHeaders(input + more, pos) == ReadHeaders(input, pos)
    decreases |input| - pos
  {
    hide IndexFrom, HeaderOn, StripCR;
    if input[pos] != LF {
      var end := IndexFrom(input, pos, LF);
      LineStable(input, more, pos);
      if HeaderOn(StripCR(input[pos..end])).Some? {
        HeadersStable(input, more, end + 1);
      }
    }
  }

  lemma BodyStable(input: seq<byte>, more: seq<byte>, pos: nat, max: nat, command: seq<byte>, headers: seq<Header>)
    requires pos <= |input| && !ReadBody(input, pos, max, command, headers).NeedMore?
    ensures ReadBody(input + more, pos, max, command, headers) == ReadBody(input, pos, max, command, headers)
  {
    match ContentLength(headers) {
      case Length(n) =>
        if pos + n + 1 <= |input| {
          assert (input + more)[pos..pos + n] == input[pos..pos + n];
        }
      case Absent =>
        IndexStable(input, more, pos, NUL);
        var nul := IndexFrom(input, pos, NUL);
        assert (input + more)[pos..nul] == input[pos..nul];
      case BadLength(_) =>
    }
  }

  lemma RestStable(input: seq<byte>, more: seq<byte>, pos: nat, max: nat, command: seq<byte>)
    requires pos <= |input| && !ScanRest(input, pos, max, command).NeedMore?
    ensures ScanRest(input + more, pos, max, command) == ScanRest(input, pos, max, command)
  {
    HeadersStable(input, more, pos);
    match ReadHeaders(input, pos) {
      case HeadersAt(headers, next) => BodyStable(input, more, next, max, command, headers);
      case _ =>
    }
  }

  lemma CommandStable(input: seq<byte>, more: seq<byte>)
    requires CommandEnd(input) < |input|
    ensures SkipLF(input + more, 0) == SkipLF(input, 0)
    ensures CommandEnd(input + more) == CommandEnd(input)
    ensures (input + more)[SkipLF(input, 0)..CommandEnd(input)] == input[SkipLF(input, 0)..CommandEnd(input)]
  {
    SkipStable(input, more, 0);
    LineStable(input, more, SkipLF(input, 0));
  }

  lemma ScanStable(input: seq<byte>, more: seq<byte>, max: nat)
    requires CommandEnd(input) < |input|
    requires !ScanFrame(input, max).NeedMore?
    ensures ScanFrame(input + more, max) == ScanFrame(input, max)
  {
    CommandStable(input, more);
    RestStable(input, more, CommandEnd(input) + 1, max, StripCR(input[SkipLF(input, 0)..CommandEnd(input)]));
  }

  /**
   * Once an LF ends the command, a verdict never changes as bytes arrive:
   * neither a frame nor an error is revised. Only the optional LF behind a
   * frame's NUL may still be claimed.
   */
  lemma VerdictStable(input: seq<byte>, more: seq<byte>, max: nat)
    requires CommandEnd(input) < |input|
    requires !ParseFrame(input, max).NeedMore?
    ensures ParseFrame(input, max).Failed? ==> ParseFrame(input + more, max) == ParseFrame(input, max)
    ensures ParseFrame(input, max).Done? ==>
              var r := ParseFrame(input, max);
              ParseFrame(input + more, max) == r.(used :=
                if ScanFrame(input, max).used == |input| && more != [] && more[0] == LF then r.used + 1 else r.used)
  {
    hide ScanFrame, CommandEnd;
    ScanStable(input, more, max);
  }

  /** A bare NUL-terminated body is taken back when an LF arrives behind it. */
  lemma BareVerdictFlips(input: seq<byte>, max: nat)
    requires CommandEnd(input) == |input| && !ParseFrame(input, max).NeedMore?
    ensures ScanFrame(input + [LF], max) == NeedMore
  {
    hide ReadBody, StripCR;
    var start := SkipLF(input, 0);
    assert start < |input|;
    SkipStable(input, [LF], 0);
    IndexIs(input, start, LF, |input|);
    IndexIs(input + [LF], start, LF, |input|);
    assert CommandEnd(input + [LF]) == |input|;
    assert ReadHeaders(input + [LF], |input| + 1).HeadersMore?;
  }

  /** The shortest case: a lone NUL is a frame with nothing in it, until an LF arrives. */
  lemma LoneNulFlips(max: nat)
    ensures ParseFrame([NUL], max) == Done([], [], None, 1)
    ensures ScanFrame([NUL, LF], max) == ParseFrame([NUL, LF], max) == NeedMore
  {
    assert SkipLF([NUL], 0) == 0;
    IndexIs([NUL], 0, LF, 1);
    IndexIs([NUL], 0, NUL, 0);
    assert ScanFrame([NUL], max) == Done([], [], None, 1);
    assert [NUL] + [LF] == [NUL, LF];
    BareVerdictFlips([NUL], max);
  }

  /** Verdicts are final exactly on the path where an LF ends the command. */
  lemma FinalExactlyWithCommandLine(input: seq<byte>, max: nat)
    requires !ParseFrame(input, max).NeedMore?
    ensures (forall more :: ScanFrame(input + more, max) == ScanFrame(input, max)) <==> CommandEnd(input) < |input|
  {
    hide ScanFrame, CommandEnd;
    if CommandEnd(input) < |input| {
      forall more
        ensures ScanFrame(input + more, max) == ScanFrame(input, max)
      {
        ScanStable(input, more, max);
      }
    } else {
      BareVerdictFlips(input, max);
    }
  }

  // ---------------------------------------------------------------- every shape is read back

  lemma StripEol(text: seq<byte>, cr: bool)
    requires !cr ==> !EndsInCR(text)
    ensures StripCR(text + (if cr then [CR] else [])) == text
  {
    if cr {
      assert (text + [CR])[..|text|] == text;
    } else {
      assert text + [] == text;
    }
  }

  lemma HeaderOnLine(l: Line)
    requires GoodLine(l)
    ensures HeaderOn(LineText(l)) == Some(Header(l.name, l.value))
  {
    IndexIs(LineText(l), 0, COLON, |l.name|);
    assert LineText(l)[..|l.name|] == l.name;
    assert LineText(l)[|l.name| + 1..] == l.value;
  }

  /** `bytes` stands in `input` at `pos`. */
  predicate At(input: seq<byte>, pos: nat, bytes: seq<byte>) {
    pos + |bytes| <= |input| && forall i | 0 <= i < |bytes| :: bytes[i] == input[pos + i]
  }

  lemma AtSplit(input: seq<byte>, pos: nat, a: seq<byte>, b: seq<byte>)
    requires At(input, pos, a + b)
    ensures At(input, pos, a) && At(input, pos + |a|, b)
  {
    forall i | 0 <= i < |a|
      ensures a[i] == input[pos + i]
    {
      assert a[i] == (a + b)[i];
    }
    forall i | 0 <= i < |b|
      ensures b[i] == input[pos + |a| + i]
    {
      assert b[i] == (a + b)[|a| + i];
    }
  }

  lemma AtSlice(input: seq<byte>, pos: nat, bytes: seq<byte>)
    requires At(input, pos, bytes)
    ensures input[pos..pos + |bytes|] == bytes
  {
  }

  /** What `StripCR` leaves of a line that holds `text`. */
  lemma StripSlice(input: seq<byte>, pos: nat, text: seq<byte>, cr: bool)
    requires !cr ==> !EndsInCR(text)
    requires pos + |text| + (if cr then 1 else 0) <= |input|
    requires input[pos..pos + |text|] == text
    requires cr ==> input[pos + |text|] == CR
    ensures StripCR(input[pos..pos + |text| + (if cr then 1 else 0)]) == text
  {
    if cr {
      assert input[pos..pos + |text| + 1] == text + [CR];
    }
    StripEol(text, cr);
  }

  /** The line end is found where the line was put. */
  lemma LineEndAt(input: seq<byte>, pos: nat, text: seq<byte>, cr: bool)
    requires Lacks(text, LF) && (!cr ==> !EndsInCR(text))
    requires At(input, pos, text) && At(input, pos + |text|, Eol(cr))
    ensures var end := pos + |text| + |Eol(cr)| - 1;
            && IndexFrom(input, pos, LF) == end < |input|
            && StripCR(input[pos..end]) == text
  {
    var end := pos + |text| + |Eol(cr)| - 1;
    assert Eol(cr)[0] == input[pos + |text|];
    assert Eol(cr)[|Eol(cr)| - 1] == input[end];
    forall i | pos <= i < pos + |text|
      ensures input[i] != LF
    {
      assert input[i] == text[i - pos];
    }
    IndexIs(input, pos, LF, end);
    AtSlice(input, pos, text);
    StripSlice(input, pos, text, cr);
  }

  /** The header lines stand in `input`, each at its place, from `pos` on. */
  predicate LinesAt(input: seq<byte>, pos: nat, lines: seq<Line>)
    decreases |lines|
  {
    lines == [] ||
    var text, eol := LineText(lines[0]), Eol(lines[0].cr);
    At(input, pos, text) && At(input, pos + |text|, eol) && LinesAt(input, pos + |text| + |eol|, lines[1..])
  }

  lemma {:induction false} LinesStand(input: seq<byte>, pos: nat, lines: seq<Line>)
    requires At(input, pos, LinesBytes(lines))
    ensures LinesAt(input, pos, lines)
    decreases |lines|
  {
    if lines != [] {
      hide At;
      var text, eol, rest := LineText(lines[0]), Eol(lines[0].cr), LinesBytes(lines[1..]);
      AtSplit(input, pos, text + eol, rest);
      AtSplit(input, pos, text, eol);
      LinesStand(input, pos + |text| + |eol|, lines[1..]);
    }
  }

  lemma {:induction false} HeadersReadBack(input: seq<byte>, pos: nat, lines: seq<Line>, blank: nat)
    requires GoodLines(lines)
    requires LinesAt(input, pos, lines)
    requires blank == pos + |LinesBytes(lines)| && At(input, blank, [LF])
    ensures ReadHeaders(input, pos) == HeadersAt(HeadersOf(lines), blank + 1)
    decreases |lines|
  {
    hide At, GoodLine, GoodLines, ReadHeaders, LineText, Eol, LinesBytes, LinesAt, HeadersOf;
    if lines == [] {
      BlankLine(input, blank);
    } else {
      var l, rest := lines[0], lines[1..];
      LinesCons(input, pos, lines);
      OneHeaderReadBack(input, pos, l);
      HeadersReadBack(input, pos + |LineText(l)| + |Eol(l.cr)|, rest, blank);
    }
  }

  lemma LinesCons(input: seq<byte>, pos: nat, lines: seq<Line>)
    requires lines != [] && GoodLines(lines) && LinesAt(input, pos, lines)
    ensures GoodLine(lines[0]) && GoodLines(lines[1..])
    ensures var text, eol := LineText(lines[0]), Eol(lines[0].cr);
            && At(input, pos, text) && At(input, pos + |text|, eol)
            && LinesAt(input, pos + |text| + |eol|, lines[1..])
            && |LinesBytes(lines)| == |text| + |eol| + |LinesBytes(lines[1..])|
    ensures HeadersOf(lines) == [Header(lines[0].name, lines[0].value)] + HeadersOf(lines[1..])
  {
    hide At, GoodLine, LineText, Eol;
  }

  lemma BlankLine(input: seq<byte>, pos: nat)
    requires At(input, pos, [LF])
    ensures ReadHeaders(input, pos) == HeadersAt(HeadersOf([]), pos + 1)
    ensures LinesBytes([]) == []
  {
    assert [LF][0] == LF;
  }

  lemma OneHeaderReadBack(input: seq<byte>, pos: nat, l: Line)
    requires GoodLine(l)
    requires At(input, pos, LineText(l)) && At(input, pos + |LineText(l)|, Eol(l.cr))
    ensures var next := pos + |LineText(l)| + |Eol(l.cr)|;
            && next <= |input|
            && ReadHeaders(input, pos) == Prefixed([Header(l.name, l.value)], ReadHeaders(input, next))
  {
    hide At, GoodLine, LineText, Eol, HeaderOn, StripCR, EndsInCR, Lacks, IndexFrom;
    LineTextGood(l);
    FirstOfLine(input, pos, l);
    HeaderOnLine(l);
    LineEndAt(input, pos, LineText(l), l.cr);
  }

  lemma FirstOfLine(input: seq<byte>, pos: nat, l: Line)
    requires GoodLine(l) && At(input, pos, LineText(l))
    ensures pos + |LineText(l)| <= |input|
    ensures pos < |input| && input[pos] != LF
  {
    assert LineText(l)[0] == input[pos];
  }

  lemma LineTextGood(l: Line)
    requires GoodLine(l)
    ensures Lacks(LineText(l), LF)
    ensures !l.cr ==> !EndsInCR(LineText(l))
  {
  }

  lemma {:induction false} LeadingSkipped(input: seq<byte>, pos: nat, n: nat)
    requires pos <= n <= |input|
    requires forall i | 0 <= i < n :: input[i] == LF
    requires n < |input| ==> input[n] != LF
    ensures SkipLF(input, pos) == n
    decreases n - pos
  {
    if pos < n {
      LeadingSkipped(input, pos + 1, n);
    }
  }

  lemma BodyReadBack(input: seq<byte>, pos: nat, s: Shape, max: nat)
    requires GoodBody(s, max)
    requires At(input, pos, s.body) && At(input, pos + |s.body|, [NUL])
    requires |input| <= USIZE_MAX
    ensures ReadBody(input, pos, max, s.command, HeadersOf(s.lines))
         == Done(s.command, HeadersOf(s.lines), BodyOf(s), pos + |s.body| + 1)
  {
    var nul := pos + |s.body|;
    assert [NUL][0] == input[nul];
    AtSlice(input, pos, s.body);
    if ContentLength(HeadersOf(s.lines)).Absent? {
      forall i | pos <= i < nul
        ensures input[i] != NUL
      {
        assert input[i] == s.body[i - pos];
      }
      IndexIs(input, pos, NUL, nul);
    }
  }

  lemma LeadingAt(input: seq<byte>, n: nat)
    requires At(input, 0, LFs(n)) && n < |input| && input[n] != LF
    ensures SkipLF(input, 0) == n
  {
    forall i | 0 <= i < n
      ensures input[i] == LF
    {
      assert input[i] == LFs(n)[i];
    }
    LeadingSkipped(input, 0, n);
  }

  /** The command line is found behind the leading LFs. */
  lemma HeadReadBack(input: seq<byte>, n: nat, command: seq<byte>, cr: bool)
    requires Lacks(command, LF) && (command != [] || cr) && (!cr ==> !EndsInCR(command))
    requires At(input, 0, LFs(n)) && At(input, n, command) && At(input, n + |command|, Eol(cr))
    ensures SkipLF(input, 0) == n
    ensures CommandEnd(input) == n + |command| + |Eol(cr)| - 1 < |input|
    ensures StripCR(input[n..CommandEnd(input)]) == command
  {
    assert input[n] == if command != [] then command[0] else Eol(cr)[0];
    hide At, LFs, StripCR, SkipLF, IndexFrom;
    LeadingAt(input, n);
    LineEndAt(input, n, command, cr);
  }

  lemma PrefixAt(input: seq<byte>, bytes: seq<byte>)
    requires bytes <= input
    ensures At(input, 0, bytes)
  {
  }

  /** The wire form of a shape, piece by piece. */
  lemma WirePieces(s: Shape, input: seq<byte>, head: nat, blank: nat)
    requires WireBytes(s) <= input
    requires head == |Head(s)| && blank == head + |LinesBytes(s.lines)|
    ensures At(input, 0, LFs(s.leading))
    ensures At(input, s.leading, s.command)
    ensures At(input, s.leading + |s.command|, Eol(s.cr))
    ensures At(input, head, LinesBytes(s.lines))
    ensures At(input, blank, [LF])
    ensures At(input, blank + 1, s.body)
    ensures At(input, blank + 1 + |s.body|, [NUL])
    ensures |WireBytes(s)| == blank + 1 + |s.body| + 1
  {
    hide LinesBytes, Eol, LFs, At;
    PrefixAt(input, WireBytes(s));
    var lines := LinesBytes(s.lines);
    AtSplit(input, 0, Head(s) + lines + [LF] + s.body, [NUL]);
    AtSplit(input, 0, Head(s) + lines + [LF], s.body);
    AtSplit(input, 0, Head(s) + lines, [LF]);
    AtSplit(input, 0, Head(s), lines);
    AtSplit(input, 0, LFs(s.leading) + s.command, Eol(s.cr));
    AtSplit(input, 0, LFs(s.leading), s.command);
  }

  /**
   * Command and headers are read back whatever the body is: the parser is
   * left to judge the body right behind the blank line.
   */
  lemma HeadersReached(s: Shape, input: seq<byte>, max: nat)
    requires GoodCommand(s) && GoodLines(s.lines)
    requires WireBytes(s) <= input
    ensures CommandEnd(input) == |Head(s)| - 1 < |input|
    ensures var pos := |Head(s)| + |LinesBytes(s.lines)| + 1;
            && pos <= |input|
            && ScanFrame(input, max) == ReadBody(input, pos, max, s.command, HeadersOf(s.lines))
  {
    hide At, Eol, LFs, GoodLines, LinesBytes, LinesAt, HeadersOf, SkipLF, StripCR, ReadHeaders, ReadBody, CommandEnd;
    hide WireBytes;
    var head := |Head(s)|;
    var blank := head + |LinesBytes(s.lines)|;
    WirePieces(s, input, head, blank);
    LinesStand(input, head, s.lines);
    HeadersReadBack(input, head, s.lines, blank);
    HeadReadBack(input, s.leading, s.command, s.cr);
    assert head == s.leading + |s.command| + |Eol(s.cr)| by {
      assert |LFs(s.leading) + s.command| == |LFs(s.leading)| + |s.command|;
    }
  }

  /** Completeness: whatever follows it, a well-shaped frame is read as itself. */
  lemma ShapeReadBack(s: Shape, input: seq<byte>, max: nat)
    requires GoodShape(s, max)
    requires WireBytes(s) <= input && |input| <= USIZE_MAX
    ensures CommandEnd(input) == |Head(s)| - 1 < |input|
    ensures ScanFrame(input, max) == ReadingOf(s)
  {
    hide At, Head, GoodLines, GoodBody, LinesBytes, HeadersOf, BodyOf, ReadBody, CommandEnd, ScanFrame;
    hide WireBytes;
    var head := |Head(s)|;
    var blank := head + |LinesBytes(s.lines)|;
    HeadersReached(s, input, max);
    WirePieces(s, input, head, blank);
    BodyReadBack(input, blank + 1, s, max);
  }

  // ---------------------------------------------------------------- everything read has a shape

  /** A line of the buffer, its text and its end told apart. */
  lemma LineSlice(input: seq<byte>, pos: nat, end: nat)
    requires pos <= end < |input| && end == IndexFrom(input, pos, LF)
    ensures var raw := input[pos..end];
            && input[end] == LF
            && Lacks(StripCR(raw), LF)
            && (raw != [] ==> StripCR(raw) != [] || EndsInCR(raw))
            && (!EndsInCR(raw) ==> !EndsInCR(StripCR(raw)))
            && input[pos..end + 1] == StripCR(raw) + Eol(EndsInCR(raw))
  {
    IndexIs(input, pos, LF, end);
    var raw := input[pos..end];
    var line := StripCR(raw);
    forall i | 0 <= i < |line|
      ensures line[i] != LF
    {
      assert line[i] == input[pos + i];
    }
    assert input[pos..end + 1] == raw + [LF];
  }

  lemma HeaderParts(line: seq<byte>, h: Header)
    requires Lacks(line, LF) && HeaderOn(line) == Some(h)
    ensures Lacks(h.name, LF) && Lacks(h.name, COLON) && Lacks(h.value, LF)
    ensures line == h.name + [COLON] + h.value
    ensures !EndsInCR(line) ==> !EndsInCR(h.value)
  {
    IndexIs(line, 0, COLON, |h.name|);
    forall i | 0 <= i < |h.name|
      ensures h.name[i] != COLON && h.name[i] != LF
    {
      assert h.name[i] == line[i];
    }
    forall i | 0 <= i < |h.value|
      ensures h.value[i] != LF
    {
      assert h.value[i] == line[|h.name| + 1 + i];
    }
  }

  lemma {:induction false} SkippedAreLFs(input: seq<byte>, pos: nat)
    requires pos <= |input|
    ensures forall i | pos <= i < SkipLF(input, pos) :: input[i] == LF
    ensures SkipLF(input, pos) < |input| ==> input[SkipLF(input, pos)] != LF
    decreases |input| - pos
  {
    if pos < |input| && input[pos] == LF {
      SkippedAreLFs(input, pos + 1);
    }
  }

  lemma OneHeaderHasShape(input: seq<byte>, pos: nat) returns (l: Line, next: nat)
    requires pos <= |input| && (pos < |input| ==> input[pos] != LF)
    requires ReadHeaders(input, pos).HeadersAt?
          || (ReadHeaders(input, pos).HeadersBad? && HeaderOn(StripCR(input[pos..IndexFrom(input, pos, LF)])).Some?)
    ensures GoodLine(l)
    ensures pos < next <= |input|
    ensures input[pos..next] == LineText(l) + Eol(l.cr)
    ensures ReadHeaders(input, pos) == Prefixed([Header(l.name, l.value)], ReadHeaders(input, next))
  {
    hide IndexFrom, HeaderOn, StripCR, EndsInCR, Eol;
    var end := IndexFrom(input, pos, LF);
    next := end + 1;
    var raw := input[pos..end];
    var h := HeaderOn(StripCR(raw)).value;
    LineSlice(input, pos, end);
    HeaderParts(StripCR(raw), h);
    l := Line(h.name, h.value, EndsInCR(raw));
  }

  lemma {:induction false} HeadersHaveShape(input: seq<byte>, pos: nat) returns (lines: seq<Line>)
    requires pos <= |input| && ReadHeaders(input, pos).HeadersAt?
    ensures GoodLines(lines)
    ensures HeadersOf(lines) == ReadHeaders(input, pos).headers
    ensures input[pos..ReadHeaders(input, pos).pos] == LinesBytes(lines) + [LF]
    decreases |input| - pos
  {
    hide GoodLine, GoodLines, LineText, Eol, LinesBytes, IndexFrom, ReadHeaders, HeadersOf;
    if pos < |input| && input[pos] == LF {
      lines := [];
      BlankHasShape(input, pos);
    } else {
      var stop := ReadHeaders(input, pos).pos;
      var l, next := OneHeaderHasShape(input, pos);
      var rest := HeadersHaveShape(input, next);
      lines := [l] + rest;
      JoinLines(input, pos, next, stop, l, rest);
    }
  }

  lemma BlankHasShape(input: seq<byte>, pos: nat)
    requires pos < |input| && input[pos] == LF
    ensures ReadHeaders(input, pos) == HeadersAt(HeadersOf([]), pos + 1)
    ensures GoodLines([])
    ensures input[pos..pos + 1] == LinesBytes([]) + [LF]
  {
    hide IndexFrom, HeaderOn, StripCR, GoodLine, LineText, Eol;
    assert input[pos..pos + 1] == [LF];
  }

  lemma JoinLines(input: seq<byte>, pos: nat, next: nat, stop: nat, l: Line, rest: seq<Line>)
    requires pos <= next <= stop <= |input|
    requires input[pos..next] == LineText(l) + Eol(l.cr)
    requires input[next..stop] == LinesBytes(rest) + [LF]
    requires GoodLine(l) && GoodLines(rest)
    ensures input[pos..stop] == LinesBytes([l] + rest) + [LF]
    ensures HeadersOf([l] + rest) == [Header(l.name, l.value)] + HeadersOf(rest)
    ensures GoodLines([l] + rest)
  {
    assert ([l] + rest)[1..] == rest;
    hide LineText, Eol, GoodLine;
    assert input[pos..stop] == input[pos..next] + input[next..stop];
  }

  /** Soundness: a parsed frame stands at the front of the buffer in a good shape. */
  lemma ParsedHasShape(input: seq<byte>, max: nat) returns (s: Shape)
    requires CommandEnd(input) < |input|
    requires ScanFrame(input, max).Done?
    ensures GoodShape(s, max)
    ensures WireBytes(s) <= input
    ensures ScanFrame(input, max) == ReadingOf(s)
  {
    hide ScanRest, SkipLF, StripCR, EndsInCR, Eol, GoodBody, GoodLines, LinesBytes, HeadersOf, BodyOf;
    var start, end := SkipLF(input, 0), CommandEnd(input);
    var raw := input[start..end];
    SkippedAreLFs(input, 0);
    LineSlice(input, start, end);
    s := RestHasShape(input, end, max, start, StripCR(raw), EndsInCR(raw));
  }

  lemma RestHasShape(input: seq<byte>, end: nat, max: nat, leading: nat, command: seq<byte>, cr: bool)
    returns (s: Shape)
    requires leading <= end < |input|
    requires forall i | 0 <= i < leading :: input[i] == LF
    requires input[leading..end + 1] == command + Eol(cr)
    requires ScanRest(input, end + 1, max, command).Done?
    ensures s.leading == leading && s.command == command && s.cr == cr
    ensures GoodLines(s.lines)
    ensures GoodBody(s, max)
    ensures WireBytes(s) <= input
    ensures ScanRest(input, end + 1, max, command) == ReadingOf(s)
  {
    hide ReadHeaders, ReadBody, GoodLine, GoodBody, LinesBytes, HeadersOf, ContentLength, Eol;
    var pos := ReadHeaders(input, end + 1).pos;
    var lines := HeadersHaveShape(input, end + 1);
    s := BodyHasShape(input, pos, max, Shape(leading, command, cr, lines, []));
    WireParts(input, end, pos, pos + |s.body|, s);
  }

  lemma BodyHasShape(input: seq<byte>, pos: nat, max: nat, head: Shape) returns (s: Shape)
    requires pos <= |input|
    requires ReadBody(input, pos, max, head.command, HeadersOf(head.lines)).Done?
    ensures s == head.(body := s.body)
    ensures GoodBody(s, max)
    ensures pos + |s.body| < |input|
    ensures input[pos..pos + |s.body|] == s.body && input[pos + |s.body|] == NUL
    ensures ReadBody(input, pos, max, head.command, HeadersOf(head.lines))
         == Done(s.command, HeadersOf(s.lines), BodyOf(s), pos + |s.body| + 1)
  {
    var nul := ReadBody(input, pos, max, head.command, HeadersOf(head.lines)).used - 1;
    s := head.(body := input[pos..nul]);
    IndexIs(input, pos, NUL, IndexFrom(input, pos, NUL));
    forall i | 0 <= i < |s.body|
      ensures ContentLength(HeadersOf(s.lines)).Absent? ==> s.body[i] != NUL
    {
      assert s.body[i] == input[pos + i];
    }
  }

  lemma WireParts(input: seq<byte>, end: nat, pos: nat, nul: nat, s: Shape)
    requires s.leading <= end < pos <= nul < |input|
    requires forall i | 0 <= i < s.leading :: input[i] == LF
    requires input[s.leading..end + 1] == s.command + Eol(s.cr)
    requires input[end + 1..pos] == LinesBytes(s.lines) + [LF]
    requires input[pos..nul] == s.body && input[nul] == NUL
    ensures WireBytes(s) == input[..nul + 1]
  {
    hide LinesBytes, Eol;
    assert input[..s.leading] == LFs(s.leading);
    assert input[..nul + 1] ==
      input[..s.leading] + input[s.leading..end + 1] + input[end + 1..pos] + input[pos..nul] + [NUL];
  }

  // ---------------------------------------------------------------- agreement

  ghost predicate Stands(s: Shape, input: seq<byte>, max: nat) {
    GoodShape(s, max) && WireBytes(s) <= input
  }

  /**
   * On the path where an LF ends the command, the parser returns a frame
   * exactly when the buffer starts with one, and it returns that one.
   */
  lemma ParserAgreesWithGrammar(input: seq<byte>, max: nat,
                                command: seq<byte>, headers: seq<Header>, body: Option<seq<byte>>, n: nat)
    requires |input| <= USIZE_MAX
    requires CommandEnd(input) < |input|
    ensures ParseFrame(input, max) == Done(command, headers, body, n) <==>
            exists s :: Stands(s, input, max)
                     && Done(command, headers, body, n) == ReadingOf(s).(used := AfterNul(input, |WireBytes(s)|))
  {
    if ParseFrame(input, max).Done? {
      var s := ParsedHasShape(input, max);
      assert Stands(s, input, max);
    }
    forall s | Stands(s, input, max)
      ensures ScanFrame(input, max) == ReadingOf(s)
    {
      ShapeReadBack(s, input, max);
    }
  }

  /** Lines with the same headers and the same bytes end the same way. */
  lemma {:induction false} LinesUnique(a: seq<Line>, b: seq<Line>)
    requires LinesBytes(a) == LinesBytes(b) && HeadersOf(a) == HeadersOf(b)
    ensures a == b
  {
    if a == [] || b == [] {
    } else {
      hide LineText;
      var text := LineText(a[0]);
      assert a[0].name == b[0].name && a[0].value == b[0].value by {
        assert HeadersOf(a)[0] == HeadersOf(b)[0];
      }
      assert text == LineText(b[0]) by {
        SameText(a[0], b[0]);
      }
      assert HeadersOf(a[1..]) == HeadersOf(a)[1..] == HeadersOf(b[1..]);
      assert LinesBytes(a)[|text|] == Eol(a[0].cr)[0] && LinesBytes(b)[|text|] == Eol(b[0].cr)[0];
      var next := |text| + |Eol(a[0].cr)|;
      assert LinesBytes(a[1..]) == LinesBytes(a)[next..] == LinesBytes(b[1..]);
      LinesUnique(a[1..], b[1..]);
      assert a == [a[0]] + a[1..] && b == [b[0]] + b[1..];
    }
  }

  lemma SameText(l: Line, k: Line)
    requires l.name == k.name && l.value == k.value
    ensures LineText(l) == LineText(k)
  {
  }

  /** Where the command line stands tells how many LFs lead it and how it ends. */
  lemma HeadUnique(input: seq<byte>, max: nat, s: Shape, t: Shape)
    requires Stands(s, input, max) && Stands(t, input, max) && s.command == t.command
    ensures s.leading == t.leading && s.cr == t.cr
  {
    hide LinesBytes, GoodLines, GoodBody, HeadersOf, CommandEnd, StripCR, At;
    WirePieces(s, input, |Head(s)|, |Head(s)| + |LinesBytes(s.lines)|);
    WirePieces(t, input, |Head(t)|, |Head(t)| + |LinesBytes(t.lines)|);
    HeadReadBack(input, s.leading, s.command, s.cr);
    HeadReadBack(input, t.leading, t.command, t.cr);
  }

  /** No buffer starts with two different frames. */
  lemma GrammarUnambiguous(input: seq<byte>, max: nat, s: Shape, t: Shape)
    requires |input| <= USIZE_MAX
    requires Stands(s, input, max) && Stands(t, input, max)
    ensures s == t
  {
    hide Stands, GoodShape, WireBytes, LinesBytes, HeadersOf, LFs, BodyOf, ScanFrame;
    StandsRead(input, max, s);
    StandsRead(input, max, t);
    HeadUnique(input, max, s, t);
    SameBody(s, t);
    SameLines(s, t);
    LinesUnique(s.lines, t.lines);
  }

  lemma StandsRead(input: seq<byte>, max: nat, s: Shape)
    requires |input| <= USIZE_MAX && Stands(s, input, max)
    ensures ScanFrame(input, max) == ReadingOf(s)
    ensures WireBytes(s) == input[..|WireBytes(s)|]
  {
    hide ScanFrame, CommandEnd, WireBytes;
    ShapeReadBack(s, input, max);
  }

  lemma SameBody(s: Shape, t: Shape)
    requires HeadersOf(s.lines) == HeadersOf(t.lines) && BodyOf(s) == BodyOf(t)
    ensures s.body == t.body
  {
  }

  lemma SameLines(s: Shape, t: Shape)
    requires WireBytes(s) == WireBytes(t) && Head(s) == Head(t) && s.body == t.body
    ensures LinesBytes(s.lines) == LinesBytes(t.lines)
  {
    hide LinesBytes, Head;
    var h := |Head(s)|;
    var n := |WireBytes(s)| - |s.body| - 2;
    assert WireBytes(s)[h..n] == LinesBytes(s.lines);
    assert WireBytes(t)[h..n] == LinesBytes(t.lines);
  }

  /** A cut-off frame is never judged early, unless a bare NUL ends it. */
  lemma PrefixNeedsMore(s: Shape, part: seq<byte>, max: nat)
    requires GoodShape(s, max) && |WireBytes(s)| <= USIZE_MAX
    requires part < WireBytes(s)
    requires CommandEnd(part) < |part| || Lacks(part, NUL)
    ensures ParseFrame(part, max) == NeedMore
  {
    if CommandEnd(part) == |part| {
      IndexIs(part, SkipLF(part, 0), NUL, IndexFrom(part, SkipLF(part, 0), NUL));
    } else if ParseFrame(part, max) != NeedMore {
      var more := WireBytes(s)[|part|..];
      assert part + more == WireBytes(s);
      ShapeReadBack(s, WireBytes(s), max);
      ScanStable(part, more, max);
    }
  }
}
