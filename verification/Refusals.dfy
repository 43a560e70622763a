/** What the parser refuses and what it waits for, said in the grammar's terms. */
module Refusals {
  import opened Options
  import opened Bytes
  import opened Length
  import opened Frame
  import opened Parser
  import opened Grammar

  /** The errors that are about a length: a bad `content-length`, or a body past the bound. */
  predicate AboutLength(e: ParseError) {
    e.InvalidLength? || e.TooLarge? || e.LengthOverflow?
  }

  /** The parser has made up its mind on this buffer, one way or the other. */
  predicate Decided(input: seq<byte>, max: nat) {
    ScanFrame(input, max).Done? || (ScanFrame(input, max).Failed? && AboutLength(ScanFrame(input, max).error))
  }

  // ---------------------------------------------------------------- waiting always has an end

  /** Some bytes that end the body. */
  function BodyEnd(input: seq<byte>, pos: nat, headers: seq<Header>): seq<byte>
    requires pos <= |input|
  {
    match ContentLength(headers)
    case Length(n) => if pos + n < |input| then [] else seq(pos + n - |input|, _ => LF) + [NUL]
    case _ => [NUL]
  }

  lemma BodyEnds(input: seq<byte>, pos: nat, max: nat, command: seq<byte>, headers: seq<Header>)
    requires pos <= |input|
    requires ReadBody(input, pos, max, command, headers).NeedMore? || pos == |input|
    ensures var r := ReadBody(input + BodyEnd(input, pos, headers), pos, max, command, headers);
            r.Done? || (r.Failed? && AboutLength(r.error))
  {
    var all := input + BodyEnd(input, pos, headers);
    match ContentLength(headers) {
      case Length(n) =>
        if n <= max && pos + n + 1 <= USIZE_MAX {
          assert all[pos + n] == NUL;
        }
      case Absent =>
        if pos < |input| {
          IndexIs(input, pos, NUL, |input|);
        }
        IndexIs(all, pos, NUL, |input|);
      case BadLength(_) =>
    }
  }

  /** Some bytes that end the header line the buffer stops in, and the header section. */
  function HeadersEnd(input: seq<byte>, pos: nat): seq<byte>
    requires pos <= |input|
  {
    if pos == |input| then [LF]
    else if COLON in input[pos..] then [LF, LF]
    else [COLON, LF, LF]
  }

  /** Where the line the buffer stops in begins. */
  function LastLine(input: seq<byte>, pos: nat): (r: nat)
    requires pos <= |input|
    ensures pos <= r <= |input|
    decreases |input| - pos
  {
    var end := IndexFrom(input, pos, LF);
    if pos == |input| || end == |input| then pos else LastLine(input, end + 1)
  }

  /** With that the line is a header, and the section ends at the end of the buffer. */
  lemma LastHeader(input: seq<byte>, pos: nat)
    requires pos <= |input| && IndexFrom(input, pos, LF) == |input|
    ensures ReadHeaders(input + HeadersEnd(input, pos), pos).HeadersAt?
    ensures ReadHeaders(input + HeadersEnd(input, pos), pos).pos == |input + HeadersEnd(input, pos)|
  {
    var all := input + HeadersEnd(input, pos);
    if pos < |input| {
      var end := LastLineEnds(input, pos);
      hide HeaderOn, StripCR, IndexFrom, HeadersEnd;
      assert ReadHeaders(all, end + 1) == HeadersAt([], end + 2);
    }
  }

  lemma LastLineEnds(input: seq<byte>, pos: nat) returns (end: nat)
    requires pos < |input| && IndexFrom(input, pos, LF) == |input|
    ensures var all := input + HeadersEnd(input, pos);
            && all[pos] != LF && pos <= end < |all| && end + 2 == |all| && all[end + 1] == LF
            && IndexFrom(all, pos, LF) == end && HeaderOn(StripCR(all[pos..end])).Some?
  {
    var all := input + HeadersEnd(input, pos);
    IndexIs(input, pos, LF, |input|);
    assert forall i | pos <= i < |input| :: all[i] == input[i];
    end := |all| - 2;
    IndexIs(all, pos, LF, end);
    ColonFound(input[pos..], all[pos..end]);
  }

  lemma ColonFound(part: seq<byte>, raw: seq<byte>)
    requires raw == part + (if COLON in part then [] else [COLON])
    ensures HeaderOn(StripCR(raw)).Some?
  {
    var line := StripCR(raw);
    if COLON in part {
      var k :| 0 <= k < |part| && part[k] == COLON;
      assert line[k] == COLON;
    } else {
      assert raw[|part|] == COLON && line[|part|] == COLON;
    }
    IndexIs(line, 0, COLON, IndexFrom(line, 0, COLON));
  }

  /** One whole line read, in a buffer and in any longer one. */
  lemma LineRead(input: seq<byte>, more: seq<byte>, pos: nat)
    requires pos <= |input| && IndexFrom(input, pos, LF) < |input| && ReadHeaders(input, pos).HeadersMore?
    ensures var end := IndexFrom(input, pos, LF);
            && ReadHeaders(input, end + 1).HeadersMore?
            && exists h :: ReadHeaders(input + more, pos) == Prefixed([h], ReadHeaders(input + more, end + 1))
  {
    LineStable(input, more, pos);
    var end := IndexFrom(input, pos, LF);
    HeadersUnfold(input, pos);
    HeadersUnfold(input + more, pos);
    assert pos < |input| && (input + more)[pos] == input[pos];
    hide IndexFrom, HeaderOn, StripCR, ReadHeaders;
  }

  lemma HeadersUnfold(input: seq<byte>, pos: nat)
    requires pos <= |input|
    ensures pos < |input| && input[pos] == LF ==> ReadHeaders(input, pos) == HeadersAt([], pos + 1)
    ensures var end := IndexFrom(input, pos, LF);
            end < |input| && input[pos] != LF ==>
              var h := HeaderOn(StripCR(input[pos..end]));
              && (h.None? ==> ReadHeaders(input, pos) == HeadersBad(StripCR(input[pos..end])))
              && (h.Some? ==> ReadHeaders(input, pos) == Prefixed([h.value], ReadHeaders(input, end + 1)))
  {
    hide IndexFrom, HeaderOn, StripCR;
  }

  lemma {:induction false} HeadersCanEnd(input: seq<byte>, pos: nat)
    requires pos <= |input| && ReadHeaders(input, pos).HeadersMore?
    ensures ReadHeaders(input + HeadersEnd(input, LastLine(input, pos)), pos).HeadersAt?
    ensures var all := input + HeadersEnd(input, LastLine(input, pos)); ReadHeaders(all, pos).pos == |all|
    decreases |input| - pos
  {
    hide IndexFrom, ReadHeaders, HeadersEnd;
    var end := IndexFrom(input, pos, LF);
    if end == |input| {
      LastHeader(input, pos);
    } else {
      LineRead(input, HeadersEnd(input, LastLine(input, pos)), pos);
      HeadersCanEnd(input, end + 1);
    }
  }

  /**
   * On the path where an LF ends the command the parser waits only for bytes
   * that can come: some of them complete a frame, or show that its length is
   * refused. A line without a colon is never waited on.
   */
  lemma WaitingCanEnd(input: seq<byte>, max: nat) returns (more: seq<byte>)
    requires CommandEnd(input) < |input| && ParseFrame(input, max).NeedMore?
    ensures Decided(input + more, max)
    ensures ScanFrame(input + more, max).Done? ==> exists s :: Stands(s, input + more, max)
  {
    hide SkipLF, IndexFrom, StripCR, ScanRest, AboutLength, Stands;
    var pos := CommandEnd(input) + 1;
    var command := StripCR(input[SkipLF(input, 0)..CommandEnd(input)]);
    more := RestCanEnd(input, pos, max, command);
    CommandStable(input, more);
    if ScanFrame(input + more, max).Done? {
      var s := ParsedHasShape(input + more, max);
      assert Stands(s, input + more, max) by { StandsHere(s, input + more, max); }
    }
  }

  lemma StandsHere(s: Shape, input: seq<byte>, max: nat)
    requires GoodShape(s, max) && WireBytes(s) <= input
    ensures Stands(s, input, max)
  {
  }

  lemma RestCanEnd(input: seq<byte>, pos: nat, max: nat, command: seq<byte>) returns (more: seq<byte>)
    requires pos <= |input| && ScanRest(input, pos, max, command).NeedMore?
    ensures var r := ScanRest(input + more, pos, max, command); r.Done? || (r.Failed? && AboutLength(r.error))
  {
    hide ReadHeaders, ReadBody, BodyEnd, HeadersEnd, LastLine, AboutLength;
    if ReadHeaders(input, pos).HeadersMore? {
      HeadersCanEnd(input, pos);
      var mid := input + HeadersEnd(input, LastLine(input, pos));
      var headers := ReadHeaders(mid, pos).headers;
      BodyEnds(mid, |mid|, max, command, headers);
      var second := BodyEnd(mid, |mid|, headers);
      HeadersStable(mid, second, pos);
      more := HeadersEnd(input, LastLine(input, pos)) + second;
      assert input + more == mid + second;
    } else {
      var at := ReadHeaders(input, pos);
      BodyEnds(input, at.pos, max, command, at.headers);
      more := BodyEnd(input, at.pos, at.headers);
      HeadersStable(input, more, pos);
    }
  }

  // ---------------------------------------------------------------- what is refused

  /** A header line without a colon, as it stands in the buffer. */
  predicate BadLine(text: seq<byte>, cr: bool) {
    Lacks(text, LF) && Lacks(text, COLON) && (text != [] || cr) && (!cr ==> !EndsInCR(text))
  }

  lemma BadLineRead(input: seq<byte>, pos: nat, text: seq<byte>, cr: bool)
    requires BadLine(text, cr) && At(input, pos, text) && At(input, pos + |text|, Eol(cr))
    ensures pos <= |input| && ReadHeaders(input, pos) == HeadersBad(text)
  {
    LineEndAt(input, pos, text, cr);
    assert input[pos] == if text != [] then text[0] else Eol(cr)[0];
    IndexIs(text, 0, COLON, |text|);
    assert HeaderOn(text) == None;
    HeadersUnfold(input, pos);
    hide ReadHeaders, IndexFrom, HeaderOn, StripCR;
  }

  lemma {:induction false} BadBehindLines(input: seq<byte>, pos: nat, lines: seq<Line>, text: seq<byte>, cr: bool)
    requires GoodLines(lines) && LinesAt(input, pos, lines) && BadLine(text, cr)
    requires var at := pos + |LinesBytes(lines)|; At(input, at, text) && At(input, at + |text|, Eol(cr))
    ensures pos <= |input| && ReadHeaders(input, pos) == HeadersBad(text)
    decreases |lines|
  {
    hide At, GoodLine, GoodLines, ReadHeaders, LineText, Eol, LinesBytes, LinesAt, HeadersOf, BadLine;
    if lines == [] {
      NoLines();
      BadLineRead(input, pos, text, cr);
    } else {
      LinesCons(input, pos, lines);
      OneHeaderReadBack(input, pos, lines[0]);
      BadBehindLines(input, pos + |LineText(lines[0])| + |Eol(lines[0].cr)|, lines[1..], text, cr);
    }
  }

  lemma NoLines()
    ensures LinesBytes([]) == []
  {
  }

  /**
   * A header line without a colon is refused as soon as its LF is there,
   * whatever follows, and the error names it.
   */
  lemma MalformedRefused(s: Shape, text: seq<byte>, cr: bool, rest: seq<byte>, max: nat)
    requires GoodCommand(s) && GoodLines(s.lines) && BadLine(text, cr)
    ensures ParseFrame(Head(s) + LinesBytes(s.lines) + text + Eol(cr) + rest, max) == Failed(MalformedHeader(text))
  {
    var input := Head(s) + LinesBytes(s.lines) + text + Eol(cr) + rest;
    hide At, Eol, LFs, GoodLines, LinesBytes, LinesAt, SkipLF, StripCR, ReadHeaders, CommandEnd, BadLine;
    var head := |Head(s)|;
    var at := head + |LinesBytes(s.lines)|;
    PrefixAt(input, Head(s) + LinesBytes(s.lines) + text + Eol(cr));
    AtSplit(input, 0, Head(s) + LinesBytes(s.lines) + text, Eol(cr));
    AtSplit(input, 0, Head(s) + LinesBytes(s.lines), text);
    AtSplit(input, 0, Head(s), LinesBytes(s.lines));
    HeadFound(s, input);
    LinesStand(input, head, s.lines);
    BadBehindLines(input, head, s.lines, text, cr);
  }

  /** The buffer starts with a command line, good header lines, and this bad one. */
  predicate BadFront(input: seq<byte>, s: Shape, text: seq<byte>, cr: bool) {
    && GoodCommand(s) && GoodLines(s.lines) && BadLine(text, cr)
    && Head(s) + LinesBytes(s.lines) + text + Eol(cr) <= input
  }

  lemma {:induction false} BadHasShape(input: seq<byte>, pos: nat)
    returns (lines: seq<Line>, text: seq<byte>, cr: bool, next: nat)
    requires pos <= |input| && ReadHeaders(input, pos).HeadersBad?
    ensures GoodLines(lines) && BadLine(text, cr) && pos < next <= |input|
    ensures input[pos..next] == LinesBytes(lines) + text + Eol(cr)
    ensures ReadHeaders(input, pos) == HeadersBad(text)
    decreases |input| - pos
  {
    HeadersUnfold(input, pos);
    var end := IndexFrom(input, pos, LF);
    assert pos < end < |input| && input[pos] != LF by { BadHasLine(input, pos); }
    hide GoodLine, LineText, Eol, IndexFrom, ReadHeaders, HeaderOn, StripCR, BadLine, LinesBytes, GoodLines, EndsInCR;
    if HeaderOn(StripCR(input[pos..end])).None? {
      lines, text, cr, next := [], StripCR(input[pos..end]), EndsInCR(input[pos..end]), end + 1;
      NoColonIsBad(input, pos, end);
    } else {
      var l, after := OneHeaderHasShape(input, pos);
      lines, text, cr, next := BadHasShape(input, after);
      JoinBad(input, pos, after, next, l, lines, text, Eol(cr));
      lines := [l] + lines;
    }
  }

  lemma BadHasLine(input: seq<byte>, pos: nat)
    requires pos <= |input| && ReadHeaders(input, pos).HeadersBad?
    ensures pos < IndexFrom(input, pos, LF) < |input| && input[pos] != LF
  {
    hide HeaderOn, StripCR;
  }

  lemma NoColonIsBad(input: seq<byte>, pos: nat, end: nat)
    requires pos < end < |input| && end == IndexFrom(input, pos, LF) && HeaderOn(StripCR(input[pos..end])) == None
    ensures var raw := input[pos..end];
            && BadLine(StripCR(raw), EndsInCR(raw))
            && GoodLines([]) && input[pos..end + 1] == LinesBytes([]) + StripCR(raw) + Eol(EndsInCR(raw))
  {
    var line := StripCR(input[pos..end]);
    LineSlice(input, pos, end);
    IndexIs(line, 0, COLON, |line|);
    hide StripCR, IndexFrom;
    assert LinesBytes([]) + line == line;
  }

  lemma JoinBad(input: seq<byte>, pos: nat, after: nat, next: nat, l: Line, lines: seq<Line>,
                text: seq<byte>, eol: seq<byte>)
    requires pos <= after <= next <= |input| && GoodLine(l) && GoodLines(lines)
    requires input[pos..after] == LineText(l) + Eol(l.cr)
    requires input[after..next] == LinesBytes(lines) + text + eol
    ensures GoodLines([l] + lines) && input[pos..next] == LinesBytes([l] + lines) + text + eol
  {
    assert ([l] + lines)[1..] == lines;
    hide LineText, Eol, GoodLine;
    assert input[pos..next] == input[pos..after] + input[after..next];
  }

  lemma BadFound(input: seq<byte>, max: nat) returns (s: Shape, text: seq<byte>, cr: bool)
    requires ParseFrame(input, max).Failed? && ParseFrame(input, max).error.MalformedHeader?
    ensures BadFront(input, s, text, cr) && ParseFrame(input, max) == Failed(MalformedHeader(text))
  {
    hide IndexFrom, SkipLF, StripCR, EndsInCR, Eol, GoodLines, LinesBytes, ReadHeaders, BadLine;
    var start, end := SkipLF(input, 0), CommandEnd(input);
    var raw := input[start..end];
    SkippedAreLFs(input, 0);
    LineSlice(input, start, end);
    var lines, line, ends, next := BadHasShape(input, end + 1);
    s, text, cr := Shape(start, StripCR(raw), EndsInCR(raw), lines, []), line, ends;
    FrontParts(input, end, next, s, text + Eol(cr));
    assert Head(s) + LinesBytes(s.lines) + text + Eol(cr) == Head(s) + (LinesBytes(s.lines) + text + Eol(cr));
  }

  lemma FrontParts(input: seq<byte>, end: nat, next: nat, s: Shape, tail: seq<byte>)
    requires s.leading <= end < next <= |input|
    requires forall i | 0 <= i < s.leading :: input[i] == LF
    requires input[s.leading..end + 1] == s.command + Eol(s.cr)
    requires input[end + 1..next] == LinesBytes(s.lines) + tail
    ensures Head(s) + (LinesBytes(s.lines) + tail) == input[..next]
  {
    hide LinesBytes, Eol;
    assert input[..s.leading] == LFs(s.leading);
    assert input[..next] == input[..s.leading] + input[s.leading..end + 1] + input[end + 1..next];
  }

  /** Exactly: the parser complains of a header line if and only if such a line stands there, behind good ones. */
  lemma MalformedExactly(input: seq<byte>, max: nat, text: seq<byte>)
    ensures ParseFrame(input, max) == Failed(MalformedHeader(text)) <==> exists s, cr :: BadFront(input, s, text, cr)
  {
    hide ParseFrame, BadFront;
    if ParseFrame(input, max) == Failed(MalformedHeader(text)) {
      var s, line, cr := BadFound(input, max);
    }
    forall s, cr | BadFront(input, s, text, cr)
      ensures ParseFrame(input, max) == Failed(MalformedHeader(text))
    {
      FrontRefused(input, s, text, cr, max);
    }
  }

  lemma FrontRefused(input: seq<byte>, s: Shape, text: seq<byte>, cr: bool, max: nat)
    requires BadFront(input, s, text, cr)
    ensures ParseFrame(input, max) == Failed(MalformedHeader(text))
  {
    hide ParseFrame, GoodLines, BadLine, GoodCommand;
    var front := Head(s) + LinesBytes(s.lines) + text + Eol(cr);
    MalformedRefused(s, text, cr, input[|front|..], max);
    assert input == front + input[|front|..];
  }

  lemma HeadFound(s: Shape, input: seq<byte>)
    requires GoodCommand(s) && At(input, 0, Head(s))
    ensures SkipLF(input, 0) == s.leading
    ensures CommandEnd(input) == |Head(s)| - 1 < |input|
    ensures StripCR(input[s.leading..CommandEnd(input)]) == s.command
  {
    hide At, Eol, LFs, SkipLF, StripCR, CommandEnd;
    AtSplit(input, 0, LFs(s.leading) + s.command, Eol(s.cr));
    AtSplit(input, 0, LFs(s.leading), s.command);
    HeadReadBack(input, s.leading, s.command, s.cr);
    assert |Head(s)| == s.leading + |s.command| + |Eol(s.cr)| by {
      assert |LFs(s.leading) + s.command| == |LFs(s.leading)| + |s.command|;
    }
  }

  /** What stands before the body. */
  function Before(s: Shape): seq<byte> {
    Head(s) + LinesBytes(s.lines) + [LF]
  }

  /** A length that cannot be read, or is past the bound, is refused before any of the body is there. */
  lemma LengthRefused(s: Shape, rest: seq<byte>, max: nat)
    requires GoodCommand(s) && GoodLines(s.lines)
    ensures var length := ContentLength(HeadersOf(s.lines));
            && (length.BadLength? ==>
                  ParseFrame(Before(s) + rest, max) == Failed(InvalidLength(length.error)))
            && (length.Length? && length.n > max ==>
                  ParseFrame(Before(s) + rest, max) == Failed(TooLarge(length.n)))
  {
    HeadersThere(s, rest, max);
    hide ScanFrame, Before, GoodLines, GoodCommand, HeadersOf;
  }

  /** A body that does not end in a NUL where its length says is refused once that byte is there. */
  lemma NulMissing(s: Shape, rest: seq<byte>, n: nat, max: nat)
    requires GoodCommand(s) && GoodLines(s.lines)
    requires ContentLength(HeadersOf(s.lines)) == Length(n) && n <= max
    requires |Before(s) + rest| <= USIZE_MAX && n < |rest| && rest[n] != NUL
    ensures ParseFrame(Before(s) + rest, max) == Failed(MissingNul)
  {
    HeadersThere(s, rest, max);
    hide ScanFrame, ReadBody, Before, GoodLines, GoodCommand, HeadersOf, ContentLength;
    WrongAt(Before(s), rest, n, max, s.command, HeadersOf(s.lines));
  }

  lemma WrongAt(before: seq<byte>, rest: seq<byte>, n: nat, max: nat, command: seq<byte>, headers: seq<Header>)
    requires ContentLength(headers) == Length(n) && n <= max
    requires |before + rest| <= USIZE_MAX && n < |rest| && rest[n] != NUL
    ensures ReadBody(before + rest, |before|, max, command, headers) == Failed(MissingNul)
  {
    hide ContentLength;
    assert (before + rest)[|before| + n] == rest[n];
  }

  /** A body without a length is refused once its NUL shows that it is past the bound. */
  lemma LongBodyRefused(s: Shape, body: seq<byte>, rest: seq<byte>, max: nat)
    requires GoodCommand(s) && GoodLines(s.lines)
    requires ContentLength(HeadersOf(s.lines)).Absent? && Lacks(body, NUL) && |body| > max
    ensures ParseFrame(Before(s) + (body + [NUL] + rest), max) == Failed(TooLarge(|body|))
  {
    HeadersThere(s, body + [NUL] + rest, max);
    NulFound(Before(s), body, rest);
    hide ScanFrame, Before, GoodLines, GoodCommand, HeadersOf, ContentLength, IndexFrom;
  }

  lemma NulFound(before: seq<byte>, body: seq<byte>, rest: seq<byte>)
    requires Lacks(body, NUL)
    ensures var input := before + (body + [NUL] + rest);
            |before| + |body| < |input| && IndexFrom(input, |before|, NUL) == |before| + |body|
  {
    var input := before + (body + [NUL] + rest);
    hide IndexFrom;
    forall i | |before| <= i < |before| + |body|
      ensures input[i] != NUL
    {
      assert input[i] == body[i - |before|];
    }
    IndexIs(input, |before|, NUL, |before| + |body|);
  }

  /** Once the header section is there the verdict is down to the body. */
  lemma HeadersThere(s: Shape, rest: seq<byte>, max: nat)
    requires GoodCommand(s) && GoodLines(s.lines)
    ensures ScanFrame(Before(s) + rest, max)
         == ReadBody(Before(s) + rest, |Before(s)|, max, s.command, HeadersOf(s.lines))
  {
    var before := Before(s);
    var input := before + rest;
    hide At, Eol, LFs, GoodLines, LinesBytes, LinesAt, HeadersOf, SkipLF, StripCR, ReadHeaders, ReadBody, CommandEnd;
    var head := |Head(s)|;
    var blank := head + |LinesBytes(s.lines)|;
    PrefixAt(input, before);
    AtSplit(input, 0, Head(s) + LinesBytes(s.lines), [LF]);
    AtSplit(input, 0, Head(s), LinesBytes(s.lines));
    HeadFound(s, input);
    LinesStand(input, head, s.lines);
    HeadersReadBack(input, head, s.lines, blank);
  }

  /**
   * A blank line that ends in CRLF is such a line: the header section of a
   * frame whose lines all end in CRLF is refused, though section "Augmented
   * BNF" of STOMP 1.2 lets any line end so.
   */
  lemma CrlfBlankRefused(rest: seq<byte>, max: nat)
    ensures ParseFrame([65, CR, LF, CR, LF] + rest, max) == Failed(MalformedHeader([]))
  {
    var s := Shape(0, [65], true, [], []);
    CrlfBlankFront(s);
    hide ParseFrame, Head, LinesBytes, Eol, GoodCommand, GoodLines, BadLine;
    assert [65, CR, LF] + [] + [] + [CR, LF] == [65, CR, LF, CR, LF];
    FrontRefused([65, CR, LF, CR, LF] + rest, s, [], true, max);
  }

  lemma CrlfBlankFront(s: Shape)
    requires s == Shape(0, [65], true, [], [])
    ensures Head(s) == [65, CR, LF] && LinesBytes(s.lines) == [] && Eol(true) == [CR, LF]
    ensures GoodCommand(s) && GoodLines(s.lines) && BadLine([], true)
  {
    assert LFs(0) == [];
  }
}
