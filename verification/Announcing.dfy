/** Which frames come back exactly as the caller gave them, and what the encoder adds to the others. */
module Announcing {
  import opened Bytes
  import opened Escape
  import opened Length
  import opened Frame
  import opened Codec
  import opened RoundTrip
  import opened Spaces

  /** With `rest` behind it, the encoding of `f` is read as `g`, and nothing but the frame is taken. */
  predicate ReadAs(f: Frame, g: Frame, rest: seq<byte>, max: nat) {
    DecodeOne(EncodedFrame(f) + rest, max) == Got(FrameItem(g), Span(f, rest))
  }

  /** The body is text that no NUL ends early. */
  predicate PlainBody(f: Frame) {
    ValidUtf8(f.body) && Lacks(f.body, NUL)
  }

  /** The caller's own `content-length`, where there are several the first, is the length of the body. */
  predicate TrueLength(f: Frame) {
    var named := Named(f.headers, CONTENT_LENGTH);
    && named != [] && LengthOf(named[0].value) == Length(|f.body|)
    && Lacks(named[0].value, CR) && Lacks(named[0].value, LF)
  }

  // ---------------------------------------------------------------- the headers named so

  lemma {:induction false} HasLengthNamed(headers: seq<Header>)
    ensures HasLength(headers) <==> Named(headers, CONTENT_LENGTH) != []
  {
    hide EqIgnoreCase;
    if headers != [] {
      HasLengthNamed(headers[1..]);
    }
  }

  lemma {:induction false} FirstLength(headers: seq<Header>)
    requires Named(headers, CONTENT_LENGTH) != []
    ensures Parser.ContentLength(EscapedHeaders(headers))
         == LengthOf(Escaped(Named(headers, CONTENT_LENGTH)[0].value))
  {
    LengthNameEscaped(headers[0].name);
    hide EqIgnoreCase, LengthOf, Escaped;
    assert EscapedHeaders(headers)[1..] == EscapedHeaders(headers[1..]);
    if !EqIgnoreCase(headers[0].name, CONTENT_LENGTH) {
      FirstLength(headers[1..]);
    }
  }

  lemma {:induction false} SpaceNoBackslash(s: seq<byte>)
    requires AllSpace(s)
    ensures Lacks(s, BACKSLASH) && Lacks(s, COLON)
    decreases |s|
  {
    if s != [] {
      var rest := s[SpaceLen(s)..];
      SpaceNoBackslash(rest);
      assert s == s[..SpaceLen(s)] + rest;
    }
  }

  lemma NumberNoBackslash(s: seq<byte>)
    requires IsNumber(s)
    ensures Lacks(s, BACKSLASH) && Lacks(s, COLON)
  {
    NumberIsAscii(s);
  }

  lemma AnnouncedIsPlain(v: seq<byte>, n: nat)
    requires LengthOf(v) == Length(n)
    ensures Lacks(v, BACKSLASH) && Lacks(v, COLON)
  {
    hide LengthOf, AllSpace, IsNumber;
    var before, s, after := SplitNumber(v, n);
    SpaceNoBackslash(before);
    SpaceNoBackslash(after);
    NumberNoBackslash(s);
  }

  /** Escaping a value keeps the length it announces exactly when it needs no escaping. */
  lemma AnnouncedEscaped(v: seq<byte>, n: nat)
    ensures LengthOf(Escaped(v)) == Length(n) <==> LengthOf(v) == Length(n) && Lacks(v, CR) && Lacks(v, LF)
  {
    hide LengthOf;
    if LengthOf(Escaped(v)) == Length(n) {
      AnnouncedIsPlain(Escaped(v), n);
      EscapedFixed(v);
      EscapedIsInert(v);
    }
    if LengthOf(v) == Length(n) && Lacks(v, CR) && Lacks(v, LF) {
      AnnouncedIsPlain(v, n);
      EscapedPlain(v);
    }
  }

  lemma LengthAgreesExactly(f: Frame)
    ensures LengthAgrees(f) <==> Named(f.headers, CONTENT_LENGTH) == [] || TrueLength(f)
  {
    HasLengthNamed(f.headers);
    HasLengthEscaped(f.headers);
    hide HasLength, EscapedHeaders, Parser.ContentLength, LengthOf;
    if Named(f.headers, CONTENT_LENGTH) != [] {
      FirstLength(f.headers);
      AnnouncedEscaped(Named(f.headers, CONTENT_LENGTH)[0].value, |f.body|);
    }
  }

  // ---------------------------------------------------------------- what comes back

  lemma CommandReadBack(f: Frame, g: Frame, rest: seq<byte>, max: nat)
    requires ReadAs(f, g, rest, max) && g.command == f.command
    ensures GoodCommandText(f.command) && Span(f, rest) <= max
  {
    var input := EncodedFrame(f) + rest;
    hide DecodeOne, HeaderBytes, Sent, ValidUtf8;
    DecodedCommandLacksLF(input, max);
    assert f.command + [LF] <= EncodedFrame(f) <= input;
    DecodedCommandKeepsNoCR(input, max, f.command);
    SizeBounded(input, max);
    assert f.command != [] by {
      assert input[|f.command|] == (f.command + [LF])[|f.command|];
      EmptyCommand(input, max);
    }
  }

  /** A buffer that starts with an LF does not yield a frame. */
  lemma EmptyCommand(input: seq<byte>, max: nat)
    ensures input != [] && input[0] == LF ==> DecodeOne(input, max) == Got(Heartbeat, 1)
  {
  }

  lemma SentUnchanged(f: Frame)
    ensures Sent(f) == f <==> Named(f.headers, CONTENT_LENGTH) != [] || PlainBody(f)
  {
    HasLengthNamed(f.headers);
    hide HasLength, ValidUtf8;
  }

  /**
   * A frame comes back exactly as the caller gave it if and only if its
   * command can be found again, it fits, and either the caller announced the
   * true length or announced none and the body is text without a NUL.
   */
  lemma UnchangedExactly(f: Frame, rest: seq<byte>, max: nat)
    requires IsText(f)
    requires |EncodedFrame(f)| + |rest| <= Bytes.USIZE_MAX
    ensures ReadAs(f, f, rest, max) <==>
      && GoodCommandText(f.command) && Span(f, rest) <= max
      && (if Named(f.headers, CONTENT_LENGTH) == [] then PlainBody(f) else TrueLength(f))
  {
    hide IsText, EncodedFrame, Sent, DecodeOne, LengthAgrees, GoodCommandText, PlainBody, TrueLength;
    if ReadAs(f, f, rest, max) {
      CommandReadBack(f, f, rest, max);
    }
    FrameRoundTrip(f, rest, max);
    LengthAgreesExactly(f);
    SentUnchanged(f);
  }

  /**
   * Any other body of a frame whose caller announced no length comes back with
   * one header more, behind the caller's: a `content-length`, and a true one.
   */
  lemma LengthAdded(f: Frame, rest: seq<byte>, max: nat) returns (added: Header)
    requires IsText(f) && GoodCommandText(f.command)
    requires |EncodedFrame(f)| + |rest| <= Bytes.USIZE_MAX && Span(f, rest) <= max
    requires Named(f.headers, CONTENT_LENGTH) == [] && !PlainBody(f)
    ensures ReadAs(f, f.(headers := f.headers + [added]), rest, max)
    ensures added.name == CONTENT_LENGTH && LengthOf(added.value) == Length(|f.body|)
  {
    FrameRoundTrip(f, rest, max);
    LengthAgreesExactly(f);
    HasLengthNamed(f.headers);
    hide IsText, DecodeOne, LengthAgrees, GoodCommandText, HasLength, ValidUtf8, HeaderBytes, LengthOf, Decimal;
    added := Header(CONTENT_LENGTH, Decimal(|f.body|));
    LengthOfDecimal(|f.body|);
    hide Sent;
    BodyWithin(f);
  }

  lemma BodyWithin(f: Frame)
    ensures |f.body| < |EncodedFrame(f)|
  {
    hide HeaderBytes, Sent;
  }
}
