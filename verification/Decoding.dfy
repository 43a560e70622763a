/** What the decoder makes of a frame of the grammar: its text, its size, and the bytes that are taken. */
module Decoding {
  import opened Bytes
  import opened Escape
  import opened Length
  import opened Frame
  import opened Parser
  import opened Grammar
  import opened Codec
  import opened Refusals

  /** Names and values of the headers, in the order they stand. */
  function Texts(headers: seq<Header>): seq<seq<byte>> {
    if headers == [] then [] else [headers[0].name, headers[0].value] + Texts(headers[1..])
  }

  /** The escaped text stands for `t`. */
  predicate StandsFor(raw: seq<byte>, t: seq<byte>) {
    Unescape(raw) == Plain(t) && ValidUtf8(t)
  }

  /** What is wrong with an escaped text. */
  predicate WrongBy(raw: seq<byte>, e: DecodeError) {
    || (Unescape(raw).BadEscape? && e == InvalidEscape(Unescape(raw).error))
    || (Unescape(raw).Plain? && !ValidUtf8(Unescape(raw).bytes) && e == InvalidUtf8)
  }

  /** It stands for some text. */
  predicate Readable(raw: seq<byte>) {
    Unescape(raw).Plain? && ValidUtf8(Unescape(raw).bytes)
  }

  /** The `k`th text is the first that cannot be read. */
  predicate FirstWrong(texts: seq<seq<byte>>, k: nat) {
    k < |texts| && !Readable(texts[k]) && forall i | 0 <= i < k :: Readable(texts[i])
  }

  /** The headers are what the lines stand for. */
  predicate Saying(raw: seq<Header>, headers: seq<Header>) {
    && |headers| == |raw|
    && forall i | 0 <= i < |raw| ::
         StandsFor(raw[i].name, headers[i].name) && StandsFor(raw[i].value, headers[i].value)
  }

  lemma OneText(raw: seq<byte>)
    ensures DecodeText(raw).Text? ==> StandsFor(raw, DecodeText(raw).bytes)
    ensures DecodeText(raw).NotText? ==> WrongBy(raw, DecodeText(raw).error)
    ensures forall t | StandsFor(raw, t) :: DecodeText(raw) == Text(t)
    ensures forall e | WrongBy(raw, e) :: DecodeText(raw) == NotText(e)
    ensures DecodeText(raw).Text? <==> Readable(raw)
  {
    hide Unescape, ValidUtf8;
  }

  lemma {:induction false} HeadersRead(raw: seq<Header>)
    ensures DecodeHeaders(raw).Headers? ==> Saying(raw, DecodeHeaders(raw).headers)
    ensures forall hs: seq<Header> | Saying(raw, hs) :: DecodeHeaders(raw) == Headers(hs)
  {
    hide DecodeText, StandsFor, WrongBy;
    if raw != [] {
      OneText(raw[0].name);
      OneText(raw[0].value);
      HeadersRead(raw[1..]);
      forall hs: seq<Header> | Saying(raw, hs)
        ensures DecodeHeaders(raw) == Headers(hs)
      {
        assert Saying(raw[1..], hs[1..]);
        assert hs == [Header(hs[0].name, hs[0].value)] + hs[1..];
      }
    }
  }

  /** The first text that cannot be read decides. */
  lemma {:induction false} FirstWrongDecides(raw: seq<Header>, k: nat)
    requires FirstWrong(Texts(raw), k)
    ensures DecodeHeaders(raw).BadHeaders? && WrongBy(Texts(raw)[k], DecodeHeaders(raw).error)
  {
    OneText(raw[0].name);
    OneText(raw[0].value);
    hide DecodeText, StandsFor, WrongBy, Readable;
    var texts := Texts(raw);
    assert texts[0] == raw[0].name && texts[1] == raw[0].value;
    if k >= 2 {
      WrongLater(raw, k);
      FirstWrongDecides(raw[1..], k - 2);
    }
  }

  lemma WrongLater(raw: seq<Header>, k: nat)
    requires FirstWrong(Texts(raw), k) && k >= 2
    ensures Readable(raw[0].name) && Readable(raw[0].value)
    ensures FirstWrong(Texts(raw[1..]), k - 2) && Texts(raw[1..])[k - 2] == Texts(raw)[k]
  {
    hide Readable;
    var texts, rest := Texts(raw), Texts(raw[1..]);
    assert texts == [raw[0].name, raw[0].value] + rest;
    assert texts[0] == raw[0].name && texts[1] == raw[0].value;
    assert forall i | 0 <= i < |rest| :: rest[i] == texts[i + 2];
  }

  // ---------------------------------------------------------------- a whole frame

  /** The command is the first thing in the buffer: it is not the line end of a heart-beat. */
  predicate AtOnce(s: Shape) {
    s.leading == 0 && s.command != []
  }

  lemma NotABeat(s: Shape, input: seq<byte>, max: nat)
    requires GoodCommand(s) && AtOnce(s)
    requires input != [] && (input <= Head(s) || Head(s) <= input)
    ensures input == [CR] || DecodeOne(input, max) == Judge(|input|, ParseFrame(input, max), max)
  {
    hide Judge, ParseFrame;
    assert LFs(0) + s.command == s.command;
    assert input[0] == Head(s)[0] == s.command[0];
    if |input| >= 2 {
      assert input[1] == Head(s)[1];
      assert |s.command| >= 2 ==> Head(s)[1] == s.command[1];
    }
  }

  /** Bytes the frame takes with `rest` behind it. */
  function SizeWith(s: Shape, rest: seq<byte>): nat {
    |WireBytes(s)| + (if rest != [] && rest[0] == LF then 1 else 0)
  }

  lemma DownToText(s: Shape, rest: seq<byte>, max: nat)
    requires GoodShape(s, max) && AtOnce(s) && |WireBytes(s) + rest| <= USIZE_MAX
    ensures DecodeOne(WireBytes(s) + rest, max) ==
              if SizeWith(s, rest) > max then Bad(Oversized, 0)
              else BuildFrame(s.command, HeadersOf(s.lines), s.body, SizeWith(s, rest))
  {
    var input := WireBytes(s) + rest;
    hide ScanFrame, DecodeOne, BuildFrame, GoodBody, GoodLines, HeadersOf, Head, LinesBytes;
    assert Head(s) <= WireBytes(s) <= input;
    ShapeReadBack(s, input, max);
    HeadNotCR(s);
    NotABeat(s, input, max);
    BodyOfIs(s);
    assert rest != [] ==> input[|WireBytes(s)|] == rest[0];
  }

  lemma HeadNotCR(s: Shape)
    requires GoodCommand(s) && AtOnce(s)
    ensures |Head(s)| >= 2
  {
  }

  lemma BodyOfIs(s: Shape)
    ensures BodyOrEmpty(BodyOf(s)) == s.body
  {
    hide HeadersOf;
  }

  /**
   * A frame of the grammar, whatever stands behind it, is decoded so: past the
   * bound it is refused and left in the buffer; else all its bytes are taken.
   * A command that is not UTF-8 is refused before any header.
   */
  lemma CommandDecoded(s: Shape, rest: seq<byte>, max: nat)
    requires GoodShape(s, max) && AtOnce(s) && |WireBytes(s) + rest| <= USIZE_MAX
    ensures var size := SizeWith(s, rest);
            && (size > max ==> DecodeOne(WireBytes(s) + rest, max) == Bad(Oversized, 0))
            && (size <= max && !ValidUtf8(s.command) ==>
                  DecodeOne(WireBytes(s) + rest, max) == Bad(InvalidUtf8, size))
  {
    DownToText(s, rest, max);
    hide DecodeOne, WireBytes, GoodShape, ValidUtf8, HeadersOf;
  }

  /**
   * Then the names and values in turn: the frame is returned exactly when all
   * can be read, with what they stand for; else the first that cannot decides.
   */
  lemma HeadersDecoded(s: Shape, rest: seq<byte>, max: nat, headers: seq<Header>)
    requires GoodShape(s, max) && AtOnce(s) && |WireBytes(s) + rest| <= USIZE_MAX
    requires SizeWith(s, rest) <= max && ValidUtf8(s.command)
    ensures DecodeOne(WireBytes(s) + rest, max) == Got(FrameItem(Frame(s.command, headers, s.body)), SizeWith(s, rest))
       <==> Saying(HeadersOf(s.lines), headers)
  {
    DownToText(s, rest, max);
    hide DecodeOne, WireBytes, GoodShape, ValidUtf8, HeadersOf, Saying, DecodeHeaders;
    HeadersRead(HeadersOf(s.lines));
  }

  lemma HeaderRefused(s: Shape, rest: seq<byte>, max: nat, k: nat)
    requires GoodShape(s, max) && AtOnce(s) && |WireBytes(s) + rest| <= USIZE_MAX
    requires SizeWith(s, rest) <= max && ValidUtf8(s.command)
    requires FirstWrong(Texts(HeadersOf(s.lines)), k)
    ensures var d := DecodeOne(WireBytes(s) + rest, max);
            d.Bad? && WrongBy(Texts(HeadersOf(s.lines))[k], d.error) && d.used == SizeWith(s, rest)
  {
    DownToText(s, rest, max);
    hide DecodeOne, WireBytes, GoodShape, ValidUtf8, HeadersOf, DecodeHeaders, FirstWrong, Texts, WrongBy;
    FirstWrongDecides(HeadersOf(s.lines), k);
  }

  /**
   * The LF a frame absorbs counts towards its size: a frame that just fits is
   * refused when a heart-beat is already there behind it.
   */
  lemma BeatTipsFrame()
    ensures DecodeOne([65, LF, LF, NUL], 4) == Got(FrameItem(Frame([65], [], [])), 4)
    ensures DecodeOne([65, LF, LF, NUL, LF], 4) == Bad(Oversized, 0)
  {
    var s := Shape(0, [65], false, [], []);
    assert WireBytes(s) == [65, LF, LF, NUL] by {
      assert LFs(0) == [];
    }
    assert WireBytes(s) + [] == [65, LF, LF, NUL] && WireBytes(s) + [LF] == [65, LF, LF, NUL, LF];
    hide DecodeOne, WireBytes, Unescape;
    HeadersDecoded(s, [], 4, []);
    CommandDecoded(s, [LF], 4);
  }

  // ---------------------------------------------------------------- every buffer

  /** Every frame that comes out is text, whatever came in. */
  lemma DecodedIsText(buffer: seq<byte>, max: nat)
    requires DecodeOne(buffer, max).Got? && DecodeOne(buffer, max).item.FrameItem?
    ensures IsText(DecodeOne(buffer, max).item.frame)
  {
    hide ParseFrame, ValidUtf8, DecodeHeaders;
    HeadersRead(ParseFrame(buffer, max).headers);
  }

  /** A bad header line stops the decoder for good: nothing is taken. */
  lemma MalformedStays(s: Shape, text: seq<byte>, cr: bool, rest: seq<byte>, max: nat)
    requires GoodCommand(s) && AtOnce(s) && GoodLines(s.lines) && BadLine(text, cr)
    ensures DecodeOne(Head(s) + LinesBytes(s.lines) + text + Eol(cr) + rest, max)
         == Bad(ParseFailed(MalformedHeader(text)), 0)
  {
    var input := Head(s) + LinesBytes(s.lines) + text + Eol(cr) + rest;
    hide DecodeOne, ParseFrame, LinesBytes, Head, Eol, GoodLines, BadLine;
    MalformedRefused(s, text, cr, rest, max);
    HeadNotCR(s);
    assert Head(s) <= input;
    NotABeat(s, input, max);
  }

  /** So does a length that cannot be read or is past the bound, before any of the body is there. */
  lemma LengthStays(s: Shape, rest: seq<byte>, max: nat)
    requires GoodCommand(s) && AtOnce(s) && GoodLines(s.lines)
    ensures var length := ContentLength(HeadersOf(s.lines)); var d := DecodeOne(Before(s) + rest, max);
            && (length.BadLength? ==> d == Bad(ParseFailed(InvalidLength(length.error)), 0))
            && (length.Length? && length.n > max ==> d == Bad(ParseFailed(TooLarge(length.n)), 0))
  {
    hide DecodeOne, ParseFrame, LinesBytes, Head, GoodLines, ContentLength, HeadersOf;
    LengthRefused(s, rest, max);
    HeadNotCR(s);
    assert Head(s) <= Before(s) + rest;
    NotABeat(s, Before(s) + rest, max);
  }

  /** A frame cut off behind its command line is waited for up to the bound, and refused past it. */
  lemma CutFrame(s: Shape, part: seq<byte>, max: nat)
    requires GoodShape(s, max) && AtOnce(s) && |WireBytes(s)| <= USIZE_MAX
    requires Head(s) <= part < WireBytes(s)
    ensures DecodeOne(part, max) == if |part| > max then Bad(Oversized, 0) else Wait
  {
    hide DecodeOne, ParseFrame, LinesBytes, GoodLines, GoodBody, Head;
    HeadNotCR(s);
    NotABeat(s, part, max);
    HeadHasEnd(s, part);
    PrefixNeedsMore(s, part, max);
  }

  lemma HeadHasEnd(s: Shape, part: seq<byte>)
    requires GoodCommand(s) && AtOnce(s) && Head(s) <= part
    ensures CommandEnd(part) < |part|
  {
    hide CommandEnd, StripCR, SkipLF;
    PrefixAt(part, Head(s));
    HeadFound(s, part);
  }
}
