/** The slice parser: what it computes, and the loop that computes it. */
module Parser {
  import opened Options
  import opened Bytes
  import opened Length
  import opened Frame

  datatype ParseError =
    | MalformedHeader(line: seq<byte>)
    | InvalidLength(cause: LengthError)
    | TooLarge(size: nat)
    | LengthOverflow
    | MissingNul

  datatype Parsed =
    | NeedMore
    | Failed(error: ParseError)
    | Done(command: seq<byte>, headers: seq<Header>, body: Option<seq<byte>>, used: nat)

  datatype HeaderScan =
    | HeadersMore
    | HeadersBad(line: seq<byte>)
    | HeadersAt(headers: seq<Header>, pos: nat)

  function SkipLF(input: seq<byte>, pos: nat): (r: nat)
    requires pos <= |input|
    ensures pos <= r <= |input|
    decreases |input| - pos
  {
    if pos < |input| && input[pos] == LF then SkipLF(input, pos + 1) else pos
  }

  /** The header on one line, or `None` without a colon. */
  function HeaderOn(line: seq<byte>): Option<Header> {
    var colon := IndexFrom(line, 0, COLON);
    if colon == |line| then None else Some(Header(line[..colon], line[colon + 1..]))
  }

  function Prefixed(before: seq<Header>, scan: HeaderScan): HeaderScan {
    match scan
    case HeadersAt(headers, pos) => HeadersAt(before + headers, pos)
    case _ => scan
  }

  /** Header lines from `pos` up to and including the blank line. */
  function ReadHeaders(input: seq<byte>, pos: nat): (r: HeaderScan)
    requires pos <= |input|
    ensures r.HeadersAt? ==> pos < r.pos <= |input|
    decreases |input| - pos
  {
    if pos == |input| then HeadersMore
    else if input[pos] == LF then HeadersAt([], pos + 1)
    else
      var end := IndexFrom(input, pos, LF);
      if end == |input| then HeadersMore
      else
        match HeaderOn(StripCR(input[pos..end]))
        case None => HeadersBad(StripCR(input[pos..end]))
        case Some(h) => Prefixed([h], ReadHeaders(input, end + 1))
  }

  /** The first `content-length` header decides. */
  function ContentLength(headers: seq<Header>): (r: LengthResult)
    ensures r.Length? ==> r.n <= USIZE_MAX
  {
    if headers == [] then Absent
    else if EqIgnoreCase(headers[0].name, CONTENT_LENGTH) then LengthOf(headers[0].value)
    else ContentLength(headers[1..])
  }

  function NoneIfEmpty(body: seq<byte>): Option<seq<byte>> {
    if body == [] then None else Some(body)
  }

  /** The body that starts at `pos`; `used` is the index after its NUL. */
  function ReadBody(input: seq<byte>, pos: nat, max: nat, command: seq<byte>, headers: seq<Header>): (r: Parsed)
    requires pos <= |input|
    ensures r.Done? ==> pos < r.used <= |input|
  {
    match ContentLength(headers)
    case BadLength(cause) => Failed(InvalidLength(cause))
    case Length(n) =>
      if n > max then Failed(TooLarge(n))
      else if pos + n + 1 > USIZE_MAX then Failed(LengthOverflow)
      else if pos + n + 1 > |input| then NeedMore
      else if input[pos + n] != NUL then Failed(MissingNul)
      else Done(command, headers, Some(input[pos..pos + n]), pos + n + 1)
    case Absent =>
      var nul := IndexFrom(input, pos, NUL);
      if nul == |input| then NeedMore
      else if nul - pos > max then Failed(TooLarge(nul - pos))
      else Done(command, headers, NoneIfEmpty(input[pos..nul]), nul + 1)
  }

  /** Without an LF in the buffer, everything before a NUL is a bare body. */
  function BareBody(input: seq<byte>, pos: nat, max: nat): (r: Parsed)
    requires pos <= |input|
    ensures r.Done? ==> pos < r.used <= |input|
  {
    var nul := IndexFrom(input, pos, NUL);
    if nul == |input| then NeedMore
    else if nul - pos > max then Failed(TooLarge(nul - pos))
    else Done([], [], NoneIfEmpty(input[pos..nul]), nul + 1)
  }

  /** Index of the LF that ends the command line, `|input|` when there is none. */
  function CommandEnd(input: seq<byte>): (r: nat)
    ensures r <= |input|
  {
    IndexFrom(input, SkipLF(input, 0), LF)
  }

  /** Headers and body, from the line after the command. */
  function ScanRest(input: seq<byte>, pos: nat, max: nat, command: seq<byte>): (r: Parsed)
    requires pos <= |input|
    ensures r.Done? ==> 0 < r.used <= |input|
  {
    match ReadHeaders(input, pos)
    case HeadersMore => NeedMore
    case HeadersBad(line) => Failed(MalformedHeader(line))
    case HeadersAt(headers, next) => ReadBody(input, next, max, command, headers)
  }

  /** The frame `input` starts with, up to and including its NUL. */
  function ScanFrame(input: seq<byte>, max: nat): (r: Parsed)
    ensures r.Done? ==> 0 < r.used <= |input|
  {
    var start := SkipLF(input, 0);
    var end := CommandEnd(input);
    if end == |input| then BareBody(input, start, max)
    else ScanRest(input, end + 1, max, StripCR(input[start..end]))
  }

  /** One LF right after the NUL belongs to the frame if it is already there. */
  function AfterNul(input: seq<byte>, end: nat): (r: nat)
    requires end <= |input|
    ensures end <= r <= |input|
  {
    if end < |input| && input[end] == LF then end + 1 else end
  }

  function WithTrailingLF(input: seq<byte>, r: Parsed): Parsed
    requires r.Done? ==> r.used <= |input|
  {
    if r.Done? then r.(used := AfterNul(input, r.used)) else r
  }

  function ParseFrame(input: seq<byte>, max: nat): (r: Parsed)
    ensures r.Done? ==> 0 < r.used <= |input|
  {
    WithTrailingLF(input, ScanFrame(input, max))
  }

  method GetContentLength(headers: seq<Header>) returns (r: LengthResult)
    ensures r == ContentLength(headers)
  {
    for i := 0 to |headers|
      invariant ContentLength(headers[i..]) == ContentLength(headers)
    {
      assert headers[i..][1..] == headers[i + 1..];
      if EqIgnoreCase(headers[i].name, CONTENT_LENGTH) {
        return LengthOf(headers[i].value);
      }
    }
    return Absent;
  }

  /** The optional LF that may follow a frame's NUL. */
  method SkipTrailingLF(input: seq<byte>, pos: usize) returns (r: usize)
    requires |input| <= ISIZE_MAX && pos as int <= |input|
    ensures r as int == AfterNul(input, pos as int)
  {
    r := pos;
    if r < |input| as usize && input[r] == LF {
      r := r + 1;
    }
  }

  method StripTrailingCR(text: seq<byte>) returns (line: seq<byte>)
    ensures line == StripCR(text)
  {
    line := text;
    if line != [] && line[|line| - 1] == CR {
      line := line[..|line| - 1];
    }
  }

  method SplitHeader(text: seq<byte>) returns (h: Option<Header>)
    requires |text| <= ISIZE_MAX
    ensures h == HeaderOn(StripCR(text))
  {
    var line := StripTrailingCR(text);
    var colon := FindByte(line, 0, COLON);
    if colon == |line| as usize {
      return None;
    }
    return Some(Header(line[..colon], line[colon + 1..]));
  }

  lemma ReadOneHeader(before: seq<Header>, input: seq<byte>, pos: nat, h: Header)
    requires pos < |input| && input[pos] != LF
    requires IndexFrom(input, pos, LF) < |input|
    requires HeaderOn(StripCR(input[pos..IndexFrom(input, pos, LF)])) == Some(h)
    ensures Prefixed(before, ReadHeaders(input, pos))
         == Prefixed(before + [h], ReadHeaders(input, IndexFrom(input, pos, LF) + 1))
  {
    var scan := ReadHeaders(input, IndexFrom(input, pos, LF) + 1);
    if scan.HeadersAt? {
      assert before + ([h] + scan.headers) == before + [h] + scan.headers;
    }
  }

  /**
   * The header loop. Every index is a machine word, so verifying it also shows
   * that no position overflows.
   */
  method ParseHeaders(input: seq<byte>, start: usize) returns (r: HeaderScan)
    requires |input| <= ISIZE_MAX && start as int <= |input|
    ensures r == ReadHeaders(input, start as int)
  {
    var pos := start;
    var headers: seq<Header> := [];
    while true
      invariant start as int <= pos as int <= |input|
      invariant Prefixed(headers, ReadHeaders(input, pos as int)) == ReadHeaders(input, start as int)
      decreases |input| - pos as int
    {
      if pos >= |input| as usize {
        return HeadersMore;
      }
      if input[pos] == LF {
        return HeadersAt(headers, pos as nat + 1);
      }
      var end := FindByte(input, pos, LF);
      if end == |input| as usize {
        return HeadersMore;
      }
      var header := SplitHeader(input[pos..end]);
      match header {
        case None =>
          return HeadersBad(StripCR(input[pos..end]));
        case Some(h) =>
          ReadOneHeader(headers, input, pos as int, h);
          headers := headers + [h];
      }
      pos := end + 1;
    }
  }

  /** The body step, with the checked length arithmetic. */
  method ParseBody(input: seq<byte>, start: usize, max: usize, command: seq<byte>, headers: seq<Header>)
    returns (r: Parsed)
    requires |input| <= ISIZE_MAX && start as int <= |input|
    ensures r == WithTrailingLF(input, ReadBody(input, start as int, max as int, command, headers))
  {
    var pos := start;
    var length := GetContentLength(headers);
    match length {
      case BadLength(cause) =>
        return Failed(InvalidLength(cause));
      case Length(n) =>
        var contentLen := n as usize;
        if contentLen > max {
          return Failed(TooLarge(n));
        }
        // checked_add, twice
        if contentLen > USIZE_MAX as usize - pos || pos + contentLen == USIZE_MAX as usize {
          return Failed(LengthOverflow);
        }
        var needed := pos + contentLen + 1;
        if needed > |input| as usize {
          return NeedMore;
        }
        var body := input[pos..pos + contentLen];
        pos := pos + contentLen;
        if pos >= |input| as usize || input[pos] != NUL {
          return Failed(MissingNul);
        }
        pos := pos + 1;
        pos := SkipTrailingLF(input, pos);
        return Done(command, headers, Some(body), pos as nat);
      case Absent =>
        var nul := FindByte(input, pos, NUL);
        if nul == |input| as usize {
          return NeedMore;
        }
        if nul - pos > max {
          return Failed(TooLarge((nul - pos) as nat));
        }
        var body := input[pos..nul];
        pos := nul + 1;
        pos := SkipTrailingLF(input, pos);
        return Done(command, headers, NoneIfEmpty(body), pos as nat);
    }
  }

  method ParseBareBody(input: seq<byte>, start: usize, max: usize) returns (r: Parsed)
    requires |input| <= ISIZE_MAX && start as int <= |input|
    ensures r == WithTrailingLF(input, BareBody(input, start as int, max as int))
  {
    var nul := FindByte(input, start, NUL);
    if nul == |input| as usize {
      return NeedMore;
    }
    if nul - start > max {
      return Failed(TooLarge((nul - start) as nat));
    }
    var body := input[start..nul];
    var pos := SkipTrailingLF(input, nul + 1);
    return Done([], [], NoneIfEmpty(body), pos as nat);
  }

  method SkipLeadingLFs(input: seq<byte>) returns (pos: usize)
    requires |input| <= ISIZE_MAX
    ensures pos as int == SkipLF(input, 0)
  {
    pos := 0;
    while pos < |input| as usize && input[pos] == LF
      invariant pos as int <= |input|
      invariant SkipLF(input, pos as int) == SkipLF(input, 0)
    {
      pos := pos + 1;
    }
  }

  method ParseFrameSliceBounded(input: seq<byte>, max: usize) returns (r: Parsed)
    requires |input| <= ISIZE_MAX
    ensures r == ParseFrame(input, max as int)
  {
    hide IndexFrom, SkipLF, StripCR, BareBody, ReadHeaders, ReadBody, AfterNul;
    var pos := SkipLeadingLFs(input);
    var end := FindByte(input, pos, LF);
    if end == |input| as usize {
      r := ParseBareBody(input, pos, max);
      return;
    }
    var command := StripTrailingCR(input[pos..end]);
    var scan := ParseHeaders(input, end + 1);
    match scan {
      case HeadersMore => return NeedMore;
      case HeadersBad(line) => return Failed(MalformedHeader(line));
      case HeadersAt(headers, next) => r := ParseBody(input, next as usize, max, command, headers);
    }
  }
}
