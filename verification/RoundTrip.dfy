/** Exactly which frames the decoder reads back from their own encoding. */
module RoundTrip {
  import opened Bytes
  import opened Escape
  import opened Length
  import opened Frame
  import opened Parser
  import opened Grammar
  import opened Codec

  function EscapedHeaders(headers: seq<Header>): seq<Header> {
    if headers == [] then []
    else [Header(Escaped(headers[0].name), Escaped(headers[0].value))] + EscapedHeaders(headers[1..])
  }

  /** A command the parser can find again. */
  predicate GoodCommandText(command: seq<byte>) {
    command != [] && Lacks(command, LF) && !EndsInCR(command)
  }

  /** A `content-length` the caller supplied is the length of the body. */
  predicate LengthAgrees(f: Frame) {
    match ContentLength(EscapedHeaders(f.headers))
    case Absent => true
    case Length(n) => n == |f.body|
    case BadLength(_) => false
  }

  predicate Encodable(f: Frame) {
    GoodCommandText(f.command) && LengthAgrees(f)
  }

  /** Bytes one decoding of `f` takes when `rest` stands behind it. */
  function Span(f: Frame, rest: seq<byte>): nat {
    |EncodedFrame(f)| + (if rest != [] && rest[0] == LF then 1 else 0)
  }

  // ---------------------------------------------------------------- the encoding has a shape

  function LinesFor(headers: seq<Header>): seq<Line> {
    if headers == [] then []
    else [Line(Escaped(headers[0].name), Escaped(headers[0].value), false)] + LinesFor(headers[1..])
  }

  function ShapeFor(f: Frame): Shape {
    Shape(0, f.command, false, LinesFor(Sent(f).headers), f.body)
  }

  lemma {:induction false} LinesForHeaders(headers: seq<Header>)
    ensures LinesBytes(LinesFor(headers)) == HeaderBytes(headers)
    ensures HeadersOf(LinesFor(headers)) == EscapedHeaders(headers)
    ensures GoodLines(LinesFor(headers))
  {
    if headers != [] {
      var h := headers[0];
      LinesForHeaders(headers[1..]);
      EscapedIsInert(h.name);
      EscapedIsInert(h.value);
      hide Escaped;
      assert LinesFor(headers)[1..] == LinesFor(headers[1..]);
      var l := LinesFor(headers)[0];
      assert LineText(l) + Eol(l.cr) == HeaderLine(h);
    }
  }

  lemma ShapeForFrame(f: Frame)
    ensures WireBytes(ShapeFor(f)) == EncodedFrame(f)
    ensures Head(ShapeFor(f)) == f.command + [LF]
  {
    hide Sent, HeaderBytes, LinesBytes, HeadersOf;
    LinesForHeaders(Sent(f).headers);
    assert LFs(0) + f.command == f.command;
  }

  // ---------------------------------------------------------------- the header section comes back

  lemma {:induction false} HeadersComeBack(headers: seq<Header>)
    requires forall i | 0 <= i < |headers| :: ValidUtf8(headers[i].name) && ValidUtf8(headers[i].value)
    ensures DecodeHeaders(EscapedHeaders(headers)) == Headers(headers)
  {
    if headers != [] {
      var h := headers[0];
      UnescapeEscaped(h.name);
      UnescapeEscaped(h.value);
      hide Escaped, Unescape, ValidUtf8;
      var rest := headers[1..];
      assert forall i | 0 <= i < |rest| :: rest[i] == headers[i + 1];
      HeadersComeBack(rest);
      assert EscapedHeaders(headers)[1..] == EscapedHeaders(rest);
      assert [h] + rest == headers;
    }
  }

  /** Escaping a header name never makes or hides a `content-length`. */
  lemma LengthNameEscaped(name: seq<byte>)
    ensures EqIgnoreCase(Escaped(name), CONTENT_LENGTH) <==> EqIgnoreCase(name, CONTENT_LENGTH)
  {
    if EqIgnoreCase(Escaped(name), CONTENT_LENGTH) {
      forall i | 0 <= i < |Escaped(name)|
        ensures Escaped(name)[i] != BACKSLASH
      {
        assert ToLower(Escaped(name)[i]) == ToLower(CONTENT_LENGTH[i]);
      }
      EscapedFixed(name);
    } else if EqIgnoreCase(name, CONTENT_LENGTH) {
      forall i | 0 <= i < |name|
        ensures name[i] != BACKSLASH && name[i] != CR && name[i] != LF && name[i] != COLON
      {
        assert ToLower(name[i]) == ToLower(CONTENT_LENGTH[i]);
      }
      EscapedPlain(name);
    }
  }

  lemma {:induction false} HasLengthEscaped(headers: seq<Header>)
    ensures HasLength(headers) <==> !ContentLength(EscapedHeaders(headers)).Absent?
  {
    if headers != [] {
      LengthNameEscaped(headers[0].name);
      hide Escaped, EqIgnoreCase;
      assert EscapedHeaders(headers)[1..] == EscapedHeaders(headers[1..]);
      HasLengthEscaped(headers[1..]);
    }
  }

  lemma {:induction false} AppendedLength(headers: seq<Header>, n: nat)
    requires !HasLength(headers) && n <= USIZE_MAX
    ensures ContentLength(EscapedHeaders(headers + [Header(CONTENT_LENGTH, Decimal(n))])) == Length(n)
  {
    var last := Header(CONTENT_LENGTH, Decimal(n));
    if headers == [] {
      LengthNameEscaped(CONTENT_LENGTH);
      assert EqIgnoreCase(CONTENT_LENGTH, CONTENT_LENGTH);
      DecimalEscaped(n);
      LengthOfDecimal(n);
      hide Decimal, LengthOf, Escaped;
      assert headers + [last] == [last];
    } else {
      LengthNameEscaped(headers[0].name);
      hide Escaped, EqIgnoreCase, LengthOf, Decimal;
      var all := headers + [last];
      assert all[1..] == headers[1..] + [last];
      assert EscapedHeaders(all)[1..] == EscapedHeaders(all[1..]);
      AppendedLength(headers[1..], n);
    }
  }

  lemma DecimalEscaped(n: nat)
    ensures Escaped(Decimal(n)) == Decimal(n)
  {
    hide Decimal;
    var s := Decimal(n);
    assert forall i | 0 <= i < |s| :: IsDigit(s[i]);
    EscapedPlain(s);
  }

  /** The length the parser reads from the headers the encoder wrote. */
  lemma SentLength(f: Frame)
    requires |f.body| <= USIZE_MAX
    ensures ContentLength(EscapedHeaders(Sent(f).headers)) ==
              if NeedsLength(f) then Length(|f.body|) else ContentLength(EscapedHeaders(f.headers))
  {
    hide ContentLength, EscapedHeaders, HasLength;
    if NeedsLength(f) {
      AppendedLength(f.headers, |f.body|);
    }
  }

  lemma SentIsText(f: Frame)
    requires IsText(f)
    ensures IsText(Sent(f))
  {
    hide NeedsLength, ValidUtf8, Decimal;
    if NeedsLength(f) {
      AddedLengthIsText(|f.body|);
      var last := Header(CONTENT_LENGTH, Decimal(|f.body|));
      AppendedIsText(f, last);
    }
  }

  lemma AddedLengthIsText(n: nat)
    ensures ValidUtf8(CONTENT_LENGTH) && ValidUtf8(Decimal(n))
  {
    hide ValidUtf8, Decimal;
    AsciiIsUtf8(CONTENT_LENGTH);
    AsciiIsUtf8(Decimal(n));
  }

  lemma AppendedIsText(f: Frame, h: Header)
    requires IsText(f) && ValidUtf8(h.name) && ValidUtf8(h.value)
    ensures IsText(f.(headers := f.headers + [h]))
  {
    hide ValidUtf8;
  }

  // ---------------------------------------------------------------- decoding the encoding

  /** Offset of the body in the encoding. */
  function BodyStart(f: Frame): nat {
    |f.command| + 1 + |HeaderBytes(Sent(f).headers)| + 1
  }

  /** With a good command, decoding is down to how the body is read. */
  lemma DownToBody(f: Frame, input: seq<byte>, max: nat)
    requires GoodCommandText(f.command) && EncodedFrame(f) <= input
    ensures BodyStart(f) <= |input|
    ensures DecodeOne(input, max) ==
      Judge(|input|,
            WithTrailingLF(input, ReadBody(input, BodyStart(f), max, f.command, EscapedHeaders(Sent(f).headers))),
            max)
  {
    hide Sent, HeaderBytes, LinesBytes, HeadersOf, EscapedHeaders, ReadBody, Judge, ScanFrame, WireBytes, EncodedFrame;
    hide CommandEnd, Head, GoodLines, LinesFor, Lacks, EndsInCR, WithTrailingLF, DecodeOne;
    ShapeForFrame(f);
    LinesForHeaders(Sent(f).headers);
    HeadersReached(ShapeFor(f), input, max);
    UpToParser(f, input, max);
  }

  lemma UpToParser(f: Frame, input: seq<byte>, max: nat)
    requires GoodCommandText(f.command) && EncodedFrame(f) <= input
    ensures DecodeOne(input, max) == Judge(|input|, ParseFrame(input, max), max)
  {
    hide GoodCommandText, EncodedFrame, Judge, ParseFrame;
    CommandFirst(f, input);
  }

  lemma CommandFirst(f: Frame, input: seq<byte>)
    requires GoodCommandText(f.command) && EncodedFrame(f) <= input
    ensures input != [] && input[0] != LF && input != [CR]
    ensures !(|input| >= 2 && input[0] == CR && input[1] == LF)
  {
    hide HeaderBytes, Sent;
    assert input[0] == EncodedFrame(f)[0] == f.command[0];
    if |f.command| > 1 {
      assert input[1] == EncodedFrame(f)[1] == f.command[1];
    }
  }

  /** The body and its NUL stand where the headers end. */
  lemma BodyStands(f: Frame, input: seq<byte>)
    requires EncodedFrame(f) <= input
    ensures BodyStart(f) + |f.body| + 1 == |EncodedFrame(f)| <= |input|
    ensures At(input, BodyStart(f), f.body) && At(input, BodyStart(f) + |f.body|, [NUL])
  {
    var before := f.command + [LF] + HeaderBytes(Sent(f).headers) + [LF];
    hide HeaderBytes, Sent, At;
    PrefixAt(input, EncodedFrame(f));
    AtSplit(input, 0, before + f.body, [NUL]);
    AtSplit(input, 0, before, f.body);
  }

  lemma BodyComesBack(f: Frame, input: seq<byte>, max: nat)
    requires EncodedFrame(f) <= input && |input| <= USIZE_MAX
    requires LengthAgrees(f) && |f.body| <= max
    ensures BodyStart(f) <= |input|
    ensures var r := ReadBody(input, BodyStart(f), max, f.command, EscapedHeaders(Sent(f).headers));
            && r.Done? && r.command == f.command && r.headers == EscapedHeaders(Sent(f).headers)
            && BodyOrEmpty(r.body) == f.body && r.used == |EncodedFrame(f)|
  {
    BodyStands(f, input);
    SentLength(f);
    HasLengthEscaped(f.headers);
    LinesForHeaders(Sent(f).headers);
    hide At, HeaderBytes, EncodedFrame, HeadersOf, EscapedHeaders, LinesFor, ReadBody, HasLength, ValidUtf8, BodyStart;
    hide Sent, ContentLength;
    assert GoodBody(ShapeFor(f), max);
    BodyReadBack(input, BodyStart(f), ShapeFor(f), max);
  }

  lemma AfterNulSpan(f: Frame, input: seq<byte>, rest: seq<byte>)
    requires input == EncodedFrame(f) + rest
    ensures AfterNul(input, |EncodedFrame(f)|) == Span(f, rest)
  {
    hide EncodedFrame;
  }

  /** The decoder's whole answer for an encodable frame, whatever follows it. */
  lemma DecodesBack(f: Frame, rest: seq<byte>, max: nat)
    requires IsText(f) && Encodable(f)
    requires |EncodedFrame(f)| + |rest| <= USIZE_MAX
    requires Span(f, rest) <= max
    ensures DecodeOne(EncodedFrame(f) + rest, max) == Got(FrameItem(Sent(f)), Span(f, rest))
  {
    var input := EncodedFrame(f) + rest;
    BodyStands(f, input);
    SentIsText(f);
    hide At, HeaderBytes, EncodedFrame, EscapedHeaders, ReadBody;
    hide BodyStart, ValidUtf8, DecodeOne, GoodCommandText, LengthAgrees, DecodeHeaders;
    DownToBody(f, input, max);
    BodyComesBack(f, input, max);
    AfterNulSpan(f, input, rest);
    HeadersComeBack(Sent(f).headers);
  }

  // ---------------------------------------------------------------- the other direction

  /** A decoded command has no LF. */
  lemma DecodedCommandLacksLF(input: seq<byte>, max: nat)
    requires DecodeOne(input, max).Got? && DecodeOne(input, max).item.FrameItem?
    ensures Lacks(DecodeOne(input, max).item.frame.command, LF)
  {
    hide ReadHeaders, ReadBody, DecodeHeaders, ValidUtf8;
    if CommandEnd(input) < |input| {
      var s := ParsedHasShape(input, max);
    }
  }

  lemma NoLFMeansNoLeading(s: Shape)
    ensures Head(s) != []
    ensures Head(s)[0] != LF ==> s.leading == 0
  {
  }

  /** Without leading LFs the command line starts the buffer. */
  lemma CommandLineFirst(s: Shape, input: seq<byte>)
    requires WireBytes(s) <= input && input != [] && input[0] != LF
    ensures |s.command| < |input| && input[|s.command|] == (if s.cr then CR else LF)
  {
    hide LinesBytes;
    NoLFMeansNoLeading(s);
    assert forall i | 0 <= i < |Head(s)| :: Head(s)[i] == WireBytes(s)[i] == input[i];
    assert Head(s) == s.command + Eol(s.cr);
  }

  /** Nor does it hold the CR of its own line end. */
  lemma DecodedCommandKeepsNoCR(input: seq<byte>, max: nat, command: seq<byte>)
    requires DecodeOne(input, max).Got? && DecodeOne(input, max).item.FrameItem?
    requires DecodeOne(input, max).item.frame.command == command
    requires command + [LF] <= input
    ensures !EndsInCR(command)
  {
    assert input[|command|] == (command + [LF])[|command|];
    hide ReadHeaders, ReadBody, DecodeHeaders, ValidUtf8, GoodLines, GoodBody, BodyOf, WireBytes;
    if CommandEnd(input) < |input| {
      var s := ParsedHasShape(input, max);
      CommandLineFirst(s, input);
    }
  }

  /** A body read whole, of the length it had, was announced truly. */
  lemma WholeBodyAgrees(input: seq<byte>, pos: nat, max: nat, command: seq<byte>, headers: seq<Header>, body: seq<byte>)
    requires pos <= |input|
    requires var r := ReadBody(input, pos, max, command, headers); r.Done? && BodyOrEmpty(r.body) == body
    ensures !ContentLength(headers).BadLength?
    ensures ContentLength(headers).Length? ==> ContentLength(headers).n == |body|
  {
    hide ContentLength;
  }

  /** A frame read back whole had the length its headers claim. */
  lemma ReadBackAgrees(f: Frame, rest: seq<byte>, max: nat)
    requires GoodCommandText(f.command)
    requires |EncodedFrame(f)| + |rest| <= USIZE_MAX
    requires DecodeOne(EncodedFrame(f) + rest, max) == Got(FrameItem(Sent(f)), Span(f, rest))
    ensures LengthAgrees(f)
  {
    var input := EncodedFrame(f) + rest;
    BodyStands(f, input);
    DownToBody(f, input, max);
    SentLength(f);
    HasLengthEscaped(f.headers);
    hide At, HeaderBytes, EncodedFrame, EscapedHeaders, BodyStart;
    hide ValidUtf8, DecodeOne, DecodeHeaders, ContentLength, HasLength;
    hide ReadBody, GoodCommandText;
    WholeBodyAgrees(input, BodyStart(f), max, f.command, EscapedHeaders(Sent(f).headers), f.body);
  }

  /**
   * The codec's round trip, exactly: with any bytes behind it, a frame is read
   * back as it was sent if and only if its command is non-empty, holds no LF
   * and does not end in CR, a supplied `content-length` is true, and the frame
   * (with the LF it absorbs) is within the size bound.
   */
  lemma FrameRoundTrip(f: Frame, rest: seq<byte>, max: nat)
    requires IsText(f)
    requires |EncodedFrame(f)| + |rest| <= USIZE_MAX
    ensures DecodeOne(EncodedFrame(f) + rest, max) == Got(FrameItem(Sent(f)), Span(f, rest))
      <==> Encodable(f) && Span(f, rest) <= max
  {
    var input := EncodedFrame(f) + rest;
    hide HeaderBytes, ReadBody, ReadHeaders, ScanFrame, LengthAgrees, DecodeHeaders, ContentLength, ValidUtf8;
    if DecodeOne(input, max) == Got(FrameItem(Sent(f)), Span(f, rest)) {
      DecodedCommandLacksLF(input, max);
      assert f.command + [LF] <= EncodedFrame(f) <= input;
      DecodedCommandKeepsNoCR(input, max, f.command);
      assert f.command != [] by {
        assert input[|f.command|] == (f.command + [LF])[|f.command|];
      }
      ReadBackAgrees(f, rest, max);
      SizeBounded(input, max);
    } else if Encodable(f) && Span(f, rest) <= max {
      DecodesBack(f, rest, max);
    }
  }
}
