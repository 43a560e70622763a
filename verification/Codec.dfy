/** The wire codec: what it encodes and decodes, and the loops that do it. */
module Codec {
  import opened Options
  import opened Bytes
  import opened Escape
  import opened Length
  import opened Frame
  import opened Parser

  datatype Item = FrameItem(frame: Frame) | Heartbeat

  // ---------------------------------------------------------------- encoding

  /** Some header is named `content-length`, in whatever case. */
  predicate HasLength(headers: seq<Header>) {
    headers != [] && (EqIgnoreCase(headers[0].name, CONTENT_LENGTH) || HasLength(headers[1..]))
  }

  /** The encoder adds a `content-length` only when the body needs one. */
  predicate NeedsLength(f: Frame) {
    !HasLength(f.headers) && (!Lacks(f.body, NUL) || !ValidUtf8(f.body))
  }

  /** The frame as it goes out. */
  function Sent(f: Frame): Frame {
    if NeedsLength(f)
    then f.(headers := f.headers + [Header(CONTENT_LENGTH, Decimal(|f.body|))])
    else f
  }

  function HeaderLine(h: Header): seq<byte> {
    Escaped(h.name) + [COLON] + Escaped(h.value) + [LF]
  }

  function HeaderBytes(headers: seq<Header>): seq<byte> {
    if headers == [] then []
    else HeaderLine(headers[0]) + HeaderBytes(headers[1..])
  }

  function EncodedFrame(f: Frame): seq<byte> {
    f.command + [LF] + HeaderBytes(Sent(f).headers) + [LF] + f.body + [NUL]
  }

  function Encoded(item: Item): seq<byte> {
    match item
    case FrameItem(f) => EncodedFrame(f)
    case Heartbeat => [LF]
  }

  // ---------------------------------------------------------------- decoding

  datatype DecodeError = ParseFailed(cause: ParseError) | Oversized | InvalidEscape(why: EscapeError) | InvalidUtf8

  /** `used` bytes leave the buffer, on some errors too. */
  datatype Decoded =
    | Wait
    | Got(item: Item, used: nat)
    | Bad(error: DecodeError, used: nat)

  datatype TextResult = Text(bytes: seq<byte>) | NotText(error: DecodeError)

  function DecodeText(raw: seq<byte>): TextResult {
    match Unescape(raw)
    case BadEscape(why) => NotText(InvalidEscape(why))
    case Plain(bytes) => if ValidUtf8(bytes) then Text(bytes) else NotText(InvalidUtf8)
  }

  datatype HeadersResult = Headers(headers: seq<Header>) | BadHeaders(error: DecodeError)

  /** Each header is unescaped and checked, name before value, in order. */
  function DecodeHeaders(raw: seq<Header>): HeadersResult {
    if raw == [] then Headers([])
    else
      match DecodeText(raw[0].name)
      case NotText(e) => BadHeaders(e)
      case Text(name) =>
        match DecodeText(raw[0].value)
        case NotText(e) => BadHeaders(e)
        case Text(value) =>
          match DecodeHeaders(raw[1..])
          case BadHeaders(e) => BadHeaders(e)
          case Headers(rest) => Headers([Header(name, value)] + rest)
  }

  function BodyOrEmpty(body: Option<seq<byte>>): seq<byte> {
    if body.Some? then body.value else []
  }

  /** The frame built from parsed pieces. Its bytes are consumed even when this fails. */
  function BuildFrame(command: seq<byte>, raw: seq<Header>, body: seq<byte>, used: nat): (r: Decoded)
    ensures !r.Wait? && r.used == used
  {
    if !ValidUtf8(command) then Bad(InvalidUtf8, used)
    else
      match DecodeHeaders(raw)
      case BadHeaders(e) => Bad(e, used)
      case Headers(headers) => Got(FrameItem(Frame(command, headers, body)), used)
  }

  /** What the decoder makes of the parser's verdict. */
  function Judge(size: nat, parsed: Parsed, max: nat): Decoded {
    match parsed
    case Failed(e) => Bad(ParseFailed(e), 0)
    case NeedMore => if size > max then Bad(Oversized, 0) else Wait
    case Done(command, headers, body, used) =>
      if used > max then Bad(Oversized, 0)
      else BuildFrame(command, headers, BodyOrEmpty(body), used)
  }

  function DecodeOne(buffer: seq<byte>, max: nat): (r: Decoded)
    ensures r.Got? ==> 0 < r.used <= |buffer|
    ensures r.Bad? ==> r.used <= |buffer|
  {
    if buffer != [] && buffer[0] == LF then Got(Heartbeat, 1)
    else if buffer == [CR] then Wait
    else if |buffer| >= 2 && buffer[0] == CR && buffer[1] == LF then Got(Heartbeat, 2)
    else Judge(|buffer|, ParseFrame(buffer, max), max)
  }

  // ---------------------------------------------------------------- size

  /**
   * For every buffer and every bound: an item consumes at least one byte, a
   * frame spans at most the bound, and a decoder that waits holds at most the
   * bound (the lone CR it may wait on needs a bound of one).
   */
  lemma SizeBounded(buffer: seq<byte>, max: nat)
    ensures DecodeOne(buffer, max).Got? ==>
              0 < DecodeOne(buffer, max).used <= |buffer|
              && (DecodeOne(buffer, max).item.FrameItem? ==>
                    DecodeOne(buffer, max).used <= max && |DecodeOne(buffer, max).item.frame.body| < max)
    ensures DecodeOne(buffer, max).Wait? ==> |buffer| <= max || buffer == [CR]
  {
    BodyFits(buffer, max);
  }

  /** A body is shorter than the frame that carried it. */
  lemma BodyFits(buffer: seq<byte>, max: nat)
    ensures ParseFrame(buffer, max).Done? ==>
              |BodyOrEmpty(ParseFrame(buffer, max).body)| < ParseFrame(buffer, max).used
  {
    hide ReadHeaders, SkipLF, IndexFrom, StripCR, ContentLength;
  }

  // ---------------------------------------------------------------- the code

  /** `BytesMut`: a growing buffer that is read from the front. */
  class BytesMut {
    var data: seq<byte>

    constructor ()
      ensures data == []
    {
      data := [];
    }

    method Advance(n: nat)
      requires n <= |data|
      modifies this
      ensures data == old(data)[n..]
    {
      data := data[n..];
    }

    method Put(bytes: seq<byte>)
      modifies this
      ensures data == old(data) + bytes
    {
      data := data + bytes;
    }
  }

  lemma {:induction false} HeaderBytesAppend(a: seq<Header>, h: Header)
    ensures HeaderBytes(a + [h]) == HeaderBytes(a) + HeaderLine(h)
  {
    if a == [] {
      assert a + [h] == [h];
    } else {
      hide HeaderLine;
      HeaderBytesAppend(a[1..], h);
      assert (a + [h])[1..] == a[1..] + [h];
    }
  }

  lemma NoHeaders(headers: seq<Header>, before: seq<byte>)
    ensures before + HeaderBytes(headers[..0]) == before
  {
  }

  lemma OneHeaderMore(headers: seq<Header>, i: nat, before: seq<byte>)
    requires i < |headers|
    ensures before + HeaderBytes(headers[..i]) + HeaderLine(headers[i]) == before + HeaderBytes(headers[..i + 1])
  {
    hide HeaderBytes, HeaderLine;
    HeaderBytesAppend(headers[..i], headers[i]);
    assert headers[..i + 1] == headers[..i] + [headers[i]];
    assert before + HeaderBytes(headers[..i]) + HeaderLine(headers[i])
        == before + (HeaderBytes(headers[..i]) + HeaderLine(headers[i]));
  }

  lemma FourInTurn(z: seq<byte>, a: seq<byte>, b: seq<byte>, c: seq<byte>, d: seq<byte>)
    ensures z + a + b + c + d == z + (a + b + c + d)
  {
    assert z + a + b == z + (a + b);
    assert z + (a + b) + c == z + (a + b + c);
  }

  lemma AppendedInTurn(z: seq<byte>, a: seq<byte>, b: seq<byte>, c: seq<byte>, d: seq<byte>, e: seq<byte>)
    ensures z + a + b + c + b + d + e == z + (a + b + c + b + d + e)
  {
    assert z + a + b == z + (a + b);
    assert z + (a + b) + c == z + (a + b + c);
    assert z + (a + b + c) + b == z + (a + b + c + b);
    assert z + (a + b + c + b) + d == z + (a + b + c + b + d);
  }

  class StompCodec {
    const maxFrameSize: usize

    constructor (max: usize)
      ensures maxFrameSize == max
    {
      maxFrameSize := max;
    }

    /** One header line, escaped, at the end of `dst`. */
    method PutHeader(h: Header, dst: BytesMut)
      modifies dst
      ensures dst.data == old(dst.data) + HeaderLine(h)
    {
      var name := EscapeHeaderValue(h.name);
      var value := EscapeHeaderValue(h.value);
      dst.Put(name);
      dst.Put([COLON]);
      dst.Put(value);
      dst.Put([LF]);
      hide Escaped;
      FourInTurn(old(dst.data), name, [COLON], value, [LF]);
    }

    method PutHeaders(headers: seq<Header>, dst: BytesMut)
      modifies dst
      ensures dst.data == old(dst.data) + HeaderBytes(headers)
    {
      hide HeaderBytes, HeaderLine;
      ghost var before := dst.data;
      NoHeaders(headers, before);
      for i := 0 to |headers|
        invariant dst.data == before + HeaderBytes(headers[..i])
      {
        OneHeaderMore(headers, i, before);
        PutHeader(headers[i], dst);
      }
      assert headers[..|headers|] == headers;
    }

    method Encode(item: Item, dst: BytesMut)
      modifies dst
      ensures dst.data == old(dst.data) + Encoded(item)
    {
      hide HeaderBytes, Decimal, ValidUtf8, Lacks, HasLength, EqIgnoreCase;
      match item {
        case Heartbeat =>
          dst.Put([LF]);
        case FrameItem(f) =>
          var headers := f.headers;
          if !HasLength(headers) {
            if !Lacks(f.body, NUL) || !ValidUtf8(f.body) {
              headers := headers + [Header(CONTENT_LENGTH, Decimal(|f.body|))];
            }
          }
          assert headers == Sent(f).headers;
          hide Sent;
          ghost var before := dst.data;
          dst.Put(f.command);
          dst.Put([LF]);
          PutHeaders(headers, dst);
          dst.Put([LF]);
          dst.Put(f.body);
          dst.Put([NUL]);
          AppendedInTurn(before, f.command, [LF], HeaderBytes(headers), f.body, [NUL]);
      }
    }

    /** Unescape and check the parsed headers one by one. */
    method ConvertHeaders(raw: seq<Header>) returns (r: HeadersResult)
      requires forall i | 0 <= i < |raw| :: |raw[i].name| <= ISIZE_MAX && |raw[i].value| <= ISIZE_MAX
      ensures r == DecodeHeaders(raw)
    {
      var headers: seq<Header> := [];
      for i := 0 to |raw|
        invariant DecodeHeaders(raw) == PrefixedHeaders(headers, DecodeHeaders(raw[i..]))
      {
        assert raw[i..][1..] == raw[i + 1..];
        var name := UnescapeHeaderValue(raw[i].name);
        if name.BadEscape? {
          return BadHeaders(InvalidEscape(name.error));
        }
        if !ValidUtf8(name.bytes) {
          return BadHeaders(InvalidUtf8);
        }
        var value := UnescapeHeaderValue(raw[i].value);
        if value.BadEscape? {
          return BadHeaders(InvalidEscape(value.error));
        }
        if !ValidUtf8(value.bytes) {
          return BadHeaders(InvalidUtf8);
        }
        PrefixedHeadersStep(headers, Header(name.bytes, value.bytes), DecodeHeaders(raw[i + 1..]));
        headers := headers + [Header(name.bytes, value.bytes)];
      }
      return Headers(headers);
    }

    /**
     * Decode one item from the front of `src`, in place. The outcome is
     * `DecodeOne` of the buffer, and exactly the bytes it names are gone.
     */
    method Decode(src: BytesMut) returns (r: Decoded)
      requires |src.data| <= ISIZE_MAX
      modifies src
      ensures r == DecodeOne(old(src.data), maxFrameSize as int)
      ensures src.data == if r.Wait? then old(src.data) else old(src.data)[r.used..]
    {
      if src.data != [] && src.data[0] == LF {
        src.Advance(1);
        return Got(Heartbeat, 1);
      }
      if src.data != [] && src.data[0] == CR {
        if |src.data| == 1 {
          return Wait;
        }
        if src.data[1] == LF {
          src.Advance(2);
          return Got(Heartbeat, 2);
        }
      }
      var parsed := ParseFrameSliceBounded(src.data, maxFrameSize);
      match parsed {
        case Done(command, raw, body, used) =>
          if used > maxFrameSize as int {
            return Bad(Oversized, 0);
          }
          HeadersFit(src.data, maxFrameSize as int);
          src.Advance(used);
          if !ValidUtf8(command) {
            return Bad(InvalidUtf8, used);
          }
          var headers := ConvertHeaders(raw);
          match headers {
            case BadHeaders(e) => return Bad(e, used);
            case Headers(hs) => return Got(FrameItem(Frame(command, hs, BodyOrEmpty(body))), used);
          }
        case NeedMore =>
          if |src.data| > maxFrameSize as int {
            return Bad(Oversized, 0);
          }
          return Wait;
        case Failed(e) =>
          return Bad(ParseFailed(e), 0);
      }
    }
  }

  function PrefixedHeaders(before: seq<Header>, r: HeadersResult): HeadersResult {
    if r.Headers? then Headers(before + r.headers) else r
  }

  lemma PrefixedHeadersStep(before: seq<Header>, h: Header, r: HeadersResult)
    ensures PrefixedHeaders(before, PrefixedHeaders([h], r)) == PrefixedHeaders(before + [h], r)
  {
    if r.Headers? {
      assert before + ([h] + r.headers) == before + [h] + r.headers;
    }
  }

  lemma StrippedShorter(line: seq<byte>)
    ensures |StripCR(line)| <= |line|
  {
  }

  lemma {:induction false} HeaderSizes(input: seq<byte>, pos: nat)
    requires pos <= |input| && ReadHeaders(input, pos).HeadersAt?
    ensures forall h | h in ReadHeaders(input, pos).headers :: |h.name| <= |input| && |h.value| <= |input|
    decreases |input| - pos
  {
    hide IndexFrom, StripCR;
    if input[pos] != LF {
      var end := IndexFrom(input, pos, LF);
      HeaderSizes(input, end + 1);
      assert |StripCR(input[pos..end])| <= |input| by { StrippedShorter(input[pos..end]); }
    }
  }

  /** Nothing the parser returns is longer than its input. */
  lemma HeadersFit(input: seq<byte>, max: nat)
    ensures ParseFrame(input, max).Done? ==>
              forall i | 0 <= i < |ParseFrame(input, max).headers| ::
                var h := ParseFrame(input, max).headers[i];
                |h.name| <= |input| && |h.value| <= |input|
  {
    hide IndexFrom, SkipLF, ReadHeaders, StripCR, ContentLength;
    var pos := CommandEnd(input) + 1;
    if pos <= |input| && ReadHeaders(input, pos).HeadersAt? {
      HeaderSizes(input, pos);
    }
  }
}
