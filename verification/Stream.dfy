/** Whole streams: what comes out does not depend on how the bytes came in. */
module Stream {
  import opened Bytes
  import opened Length
  import opened Frame
  import opened Parser
  import opened Grammar
  import opened Codec
  import opened RoundTrip

  /** What a sender may write: a frame, or a heart-beat, which `cr` says is CRLF rather than LF. */
  datatype Piece = Whole(frame: Frame) | Beat(cr: bool)

  function Written(p: Piece): seq<byte> {
    match p
    case Whole(f) => EncodedFrame(f)
    case Beat(cr) => Eol(cr)
  }

  /** The item it is decoded to. */
  function ItemOf(p: Piece): Item {
    match p
    case Whole(f) => FrameItem(Sent(f))
    case Beat(_) => Heartbeat
  }

  /** The encoder writes its frames so, and its heart-beats as a bare LF. */
  lemma EncoderWrites(item: Item)
    ensures Encoded(item) == Written(match item case FrameItem(f) => Whole(f) case Heartbeat => Beat(false))
  {
  }

  /** A heart-beat at the front, in either form, is taken off whole, and nothing behind it. */
  lemma BeatAtFront(cr: bool, rest: seq<byte>, max: nat)
    ensures DecodeOne(Eol(cr) + rest, max) == Got(Heartbeat, |Eol(cr)|)
    ensures (Eol(cr) + rest)[|Eol(cr)|..] == rest
    ensures DecodeOne([CR], max) == Wait
  {
  }

  /** Decoding until the decoder waits or fails. */
  datatype Drained = Drained(items: seq<Item>, rest: seq<byte>, failed: bool)

  function Before(item: Item, d: Drained): Drained {
    d.(items := [item] + d.items)
  }

  function Drain(buffer: seq<byte>, max: nat): Drained
    decreases |buffer|
  {
    match DecodeOne(buffer, max)
    case Wait => Drained([], buffer, false)
    case Bad(_, used) => Drained([], buffer[used..], true)
    case Got(item, used) => Before(item, Drain(buffer[used..], max))
  }

  /** Chunks arrive one by one; after each the decoder runs until it waits. */
  function Feed(buffer: seq<byte>, chunks: seq<seq<byte>>, max: nat): Drained
    decreases |chunks|
  {
    if chunks == [] then Drained([], buffer, false)
    else
      var d := Drain(buffer + chunks[0], max);
      if d.failed then d
      else
        var later := Feed(d.rest, chunks[1..], max);
        later.(items := d.items + later.items)
  }

  function Joined(chunks: seq<seq<byte>>): seq<byte> {
    if chunks == [] then [] else chunks[0] + Joined(chunks[1..])
  }

  function EncodedAll(pieces: seq<Piece>): seq<byte> {
    if pieces == [] then [] else Written(pieces[0]) + EncodedAll(pieces[1..])
  }

  /** The frames of a list of pieces, as sent; heart-beats erased. */
  function FramesSent(pieces: seq<Piece>): seq<Frame> {
    if pieces == [] then []
    else match pieces[0]
         case Whole(f) => [Sent(f)] + FramesSent(pieces[1..])
         case Beat(_) => FramesSent(pieces[1..])
  }

  function Frames(items: seq<Item>): seq<Frame> {
    if items == [] then []
    else match items[0]
         case FrameItem(f) => [f] + Frames(items[1..])
         case Heartbeat => Frames(items[1..])
  }

  /** What one buffer holding them all decodes to: a frame absorbs a heart-beat right behind it. */
  function Absorbed(pieces: seq<Piece>): seq<Item>
    decreases |pieces|
  {
    if pieces == [] then []
    else match pieces[0]
         case Beat(_) => [Heartbeat] + Absorbed(pieces[1..])
         case Whole(f) =>
           [FrameItem(Sent(f))]
           + (if |pieces| > 1 && pieces[1] == Beat(false) then Absorbed(pieces[2..]) else Absorbed(pieces[1..]))
  }

  /** Every frame is encodable, free of NUL in its command, and fits with the LF it may absorb. */
  predicate Sendable(pieces: seq<Piece>, max: nat) {
    pieces == [] ||
    (Sendable(pieces[1..], max) &&
     match pieces[0]
     case Beat(_) => true
     case Whole(f) =>
       IsText(f) && Encodable(f) && Lacks(f.command, NUL)
       && |EncodedFrame(f)| + (if |pieces| > 1 && pieces[1] == Beat(false) then 1 else 0) <= max)
  }

  // ---------------------------------------------------------------- cut-off frames

  /** Every proper prefix of an encoded frame makes the decoder wait, buffer untouched. */
  lemma PrefixWaits(f: Frame, part: seq<byte>, max: nat)
    requires Encodable(f) && Lacks(f.command, NUL)
    requires |EncodedFrame(f)| <= max && |EncodedFrame(f)| <= USIZE_MAX
    requires part < EncodedFrame(f)
    ensures DecodeOne(part, max) == Wait
  {
    PrefixNotHeartbeat(f, part);
    ShapeForFrame(f);
    ShapeIsGood(f, max);
    CommandCut(f, part);
    hide EncodedFrame, WireBytes, GoodShape, ParseFrame, Encodable;
    PrefixNeedsMore(ShapeFor(f), part, max);
  }

  lemma ShapeIsGood(f: Frame, max: nat)
    requires Encodable(f) && |EncodedFrame(f)| <= max && |EncodedFrame(f)| <= USIZE_MAX
    ensures GoodShape(ShapeFor(f), max)
  {
    BodyFitsEncoding(f);
    LinesForHeaders(Sent(f).headers);
    SentLength(f);
    HasLengthEscaped(f.headers);
    hide EncodedFrame, HeaderBytes, LinesBytes, LinesFor, HeadersOf;
    hide EscapedHeaders, ContentLength, HasLength, ValidUtf8, GoodLines, Sent;
  }

  lemma BodyFitsEncoding(f: Frame)
    ensures |f.body| < |EncodedFrame(f)|
  {
    hide HeaderBytes, Sent;
  }

  lemma PrefixNotHeartbeat(f: Frame, part: seq<byte>)
    requires GoodCommandText(f.command) && part < EncodedFrame(f)
    ensures part == [] || part[0] != LF
    ensures !(|part| >= 2 && part[0] == CR && part[1] == LF)
  {
    hide HeaderBytes, Sent;
    assert forall i | 0 <= i < |part| :: part[i] == EncodedFrame(f)[i];
    assert forall i | 0 <= i < |f.command| :: f.command[i] == EncodedFrame(f)[i];
  }

  /** A prefix without an LF is still inside the command. */
  lemma CommandCut(f: Frame, part: seq<byte>)
    requires GoodCommandText(f.command) && Lacks(f.command, NUL) && part < EncodedFrame(f)
    ensures CommandEnd(part) < |part| || Lacks(part, NUL)
  {
    hide HeaderBytes, Sent;
    assert forall i | 0 <= i < |part| :: part[i] == EncodedFrame(f)[i];
    assert EncodedFrame(f)[|f.command|] == LF;
    assert forall i | 0 <= i < |f.command| :: f.command[i] == EncodedFrame(f)[i];
    if part != [] {
      assert SkipLF(part, 0) == 0;
      IndexIs(part, 0, LF, CommandEnd(part));
    }
  }

  /** A NUL in the command ends the frame early when the LF is still to come. */
  lemma NulCutsCommand(f: Frame, max: nat) returns (part: seq<byte>)
    requires GoodCommandText(f.command) && !Lacks(f.command, NUL)
    ensures part < EncodedFrame(f)
    ensures DecodeOne(part, max) != Wait
  {
    hide HeaderBytes, Sent;
    var nul := IndexFrom(f.command, 0, NUL);
    IndexIs(f.command, 0, NUL, nul);
    part := f.command[..nul + 1];
    assert part <= f.command < EncodedFrame(f);
    assert part[0] == f.command[0];
    assert |part| >= 2 ==> part[1] == f.command[1];
    assert SkipLF(part, 0) == 0;
    IndexIs(part, 0, LF, |part|);
    IndexIs(part, 0, NUL, nul);
  }

  /** A frame can be cut anywhere if and only if its command holds no NUL. */
  lemma CutsWaitExactly(f: Frame, max: nat)
    requires Encodable(f)
    requires |EncodedFrame(f)| <= max && |EncodedFrame(f)| <= USIZE_MAX
    ensures (forall part | part < EncodedFrame(f) :: DecodeOne(part, max) == Wait) <==> Lacks(f.command, NUL)
  {
    hide Encodable, EncodedFrame, DecodeOne;
    assert GoodCommandText(f.command) by {
      EncodableCommand(f);
    }
    if Lacks(f.command, NUL) {
      forall part | part < EncodedFrame(f)
        ensures DecodeOne(part, max) == Wait
      {
        PrefixWaits(f, part, max);
      }
    } else {
      var part := NulCutsCommand(f, max);
    }
  }

  /** Such a frame, cut behind the NUL of its command: the front decodes as a frame of its own. */
  lemma NulCommandCut(max: nat)
    requires max >= 2
    ensures var f := Frame([65, NUL], [], []);
            && EncodedFrame(f) == [65, NUL, LF, LF, NUL]
            && DecodeOne(EncodedFrame(f)[..2], max) == Got(FrameItem(Frame([], [], [65])), 2)
  {
    var part := [65, NUL];
    assert EncodedFrame(Frame(part, [], []))[..2] == part;
    assert SkipLF(part, 0) == 0;
    IndexIs(part, 0, LF, 2);
    IndexIs(part, 0, NUL, 1);
    assert part[0..1] == [65];
  }

  lemma EncodableCommand(f: Frame)
    requires Encodable(f)
    ensures GoodCommandText(f.command)
  {
  }

  // ---------------------------------------------------------------- one step of the decoder on a stream

  lemma {:induction false} FramesAppend(a: seq<Item>, b: seq<Item>)
    ensures Frames(a + b) == Frames(a) + Frames(b)
  {
    if a == [] {
      assert a + b == b;
    } else {
      FramesAppend(a[1..], b);
      assert (a + b)[1..] == a[1..] + b;
    }
  }

  /** Only a heart-beat that is a bare LF starts with one. */
  lemma FirstByte(pieces: seq<Piece>, max: nat)
    requires Sendable(pieces, max) && pieces != []
    ensures Written(pieces[0]) != [] && EncodedAll(pieces) != []
    ensures EncodedAll(pieces)[0] == LF <==> pieces[0] == Beat(false)
  {
    hide HeaderBytes, Sent;
    match pieces[0] {
      case Beat(_) =>
      case Whole(f) => assert EncodedFrame(f)[0] == f.command[0];
    }
  }

  /** The pieces left once the first one, and what it absorbs, has been decoded. */
  function LeftAfter(pieces: seq<Piece>, tail: seq<byte>): (left: seq<Piece>)
    requires pieces != []
    ensures |left| < |pieces|
  {
    if pieces[0].Whole? && |pieces| > 1 && pieces[1] == Beat(false) && tail != [] then pieces[2..] else pieces[1..]
  }

  /** A buffer that reaches to the end of the first item yields it. */
  lemma FirstItemDecodes(pieces: seq<Piece>, tail: seq<byte>, more: seq<byte>, max: nat)
    requires pieces != [] && Sendable(pieces, max)
    requires tail + more == EncodedAll(pieces[1..])
    requires |EncodedAll(pieces)| <= USIZE_MAX
    ensures StepKeeps(pieces, Written(pieces[0]) + tail, more, LeftAfter(pieces, tail), max)
    ensures DecodeOne(Written(pieces[0]) + tail, max).item == ItemOf(pieces[0])
  {
    hide EncodedFrame, Sendable, EncodedAll, StepKeeps;
    match pieces[0] {
      case Beat(_) => BeatDecodes(pieces, tail, more, max);
      case Whole(f) => FrameDecodes(f, pieces, tail, more, max);
    }
  }

  /** What the decoder takes besides the frame is the heart-beat behind it. */
  lemma FrameSpan(f: Frame, pieces: seq<Piece>, tail: seq<byte>, more: seq<byte>, max: nat)
    requires pieces != [] && pieces[0] == Whole(f) && Sendable(pieces, max)
    requires tail + more == EncodedAll(pieces[1..])
    ensures tail != [] && tail[0] == LF <==> |pieces| > 1 && pieces[1] == Beat(false) && tail != []
    ensures Span(f, tail) <= max
  {
    var next := pieces[1..];
    hide EncodedFrame, Encodable, Sent;
    if tail != [] {
      assert tail[0] == (tail + more)[0];
      assert next != [];
      hide EncodedAll, Sendable;
      assert Sendable(next, max) by {
        SendableTail(pieces, max);
      }
      FirstByte(next, max);
    }
  }

  lemma SendableTail(pieces: seq<Piece>, max: nat)
    requires pieces != [] && Sendable(pieces, max)
    ensures Sendable(pieces[1..], max)
  {
  }

  lemma DropFrame(e: seq<byte>, tail: seq<byte>, more: seq<byte>)
    ensures (e + tail)[|e|..] + more == tail + more
    ensures tail != [] ==> (e + tail)[|e| + 1..] + more == (tail + more)[1..]
  {
    assert (e + tail)[|e|..] == tail;
    if tail != [] {
      assert (e + tail)[|e| + 1..] == tail[1..];
    }
  }

  lemma EncodedBehindHeartbeat(pieces: seq<Piece>)
    requires |pieces| > 1 && pieces[1] == Beat(false)
    ensures EncodedAll(pieces[1..]) != [] && EncodedAll(pieces[1..])[1..] == EncodedAll(pieces[2..])
    ensures FramesSent(pieces[1..]) == FramesSent(pieces[2..])
  {
    assert pieces[1..][1..] == pieces[2..];
  }

  /** One item decoded off the front of a stream: the rest is still a stream. */
  ghost predicate StepKeeps(pieces: seq<Piece>, buffer: seq<byte>, more: seq<byte>, left: seq<Piece>, max: nat) {
    var d := DecodeOne(buffer, max);
    && d.Got?
    && Frames([d.item]) + FramesSent(left) == FramesSent(pieces)
    && buffer[d.used..] + more == EncodedAll(left)
    && Sendable(left, max)
  }

  lemma FramesSentCons(f: Frame, pieces: seq<Piece>)
    requires pieces != [] && pieces[0] == Whole(f)
    ensures FramesSent(pieces) == [Sent(f)] + FramesSent(pieces[1..])
  {
    hide Sent;
  }

  lemma FrameOfOne(f: Frame)
    ensures Frames([FrameItem(f)]) == [f]
  {
    assert [FrameItem(f)][1..] == [];
  }

  lemma FrameAlone(f: Frame, pieces: seq<Piece>, tail: seq<byte>, more: seq<byte>, max: nat)
    requires pieces != [] && pieces[0] == Whole(f) && Sendable(pieces[1..], max)
    requires tail + more == EncodedAll(pieces[1..])
    requires tail == [] || tail[0] != LF
    requires DecodeOne(EncodedFrame(f) + tail, max) == Got(FrameItem(Sent(f)), |EncodedFrame(f)|)
    ensures StepKeeps(pieces, EncodedFrame(f) + tail, more, pieces[1..], max)
  {
    hide EncodedFrame, Sent, EncodedAll, Sendable, FramesSent, DecodeOne, Frames;
    FramesSentCons(f, pieces);
    FrameOfOne(Sent(f));
    DropFrame(EncodedFrame(f), tail, more);
  }

  lemma FrameWithBeat(f: Frame, pieces: seq<Piece>, tail: seq<byte>, more: seq<byte>, max: nat)
    requires |pieces| > 1 && pieces[0] == Whole(f) && pieces[1] == Beat(false) && Sendable(pieces[1..], max)
    requires tail + more == EncodedAll(pieces[1..]) && tail != []
    requires DecodeOne(EncodedFrame(f) + tail, max) == Got(FrameItem(Sent(f)), |EncodedFrame(f)| + 1)
    ensures StepKeeps(pieces, EncodedFrame(f) + tail, more, pieces[2..], max)
  {
    hide EncodedFrame, Sent, EncodedAll, Sendable, FramesSent, DecodeOne, Frames;
    FramesSentCons(f, pieces);
    FrameOfOne(Sent(f));
    EncodedBehindHeartbeat(pieces);
    SendableTail(pieces[1..], max);
    assert pieces[1..][1..] == pieces[2..];
    DropFrame(EncodedFrame(f), tail, more);
  }

  lemma BeatDecodes(pieces: seq<Piece>, tail: seq<byte>, more: seq<byte>, max: nat)
    requires pieces != [] && pieces[0].Beat? && Sendable(pieces, max)
    requires tail + more == EncodedAll(pieces[1..])
    ensures StepKeeps(pieces, Written(pieces[0]) + tail, more, pieces[1..], max)
    ensures DecodeOne(Written(pieces[0]) + tail, max).item == Heartbeat
  {
    BeatAtFront(pieces[0].cr, tail, max);
    assert FramesSent(pieces) == FramesSent(pieces[1..]);
    assert Frames([Heartbeat]) == [];
    SendableTail(pieces, max);
  }

  lemma FrameDecodes(f: Frame, pieces: seq<Piece>, tail: seq<byte>, more: seq<byte>, max: nat)
    requires pieces != [] && pieces[0] == Whole(f) && Sendable(pieces, max)
    requires tail + more == EncodedAll(pieces[1..])
    requires |EncodedAll(pieces)| <= USIZE_MAX
    ensures StepKeeps(pieces, EncodedFrame(f) + tail, more, LeftAfter(pieces, tail), max)
    ensures DecodeOne(EncodedFrame(f) + tail, max).item == FrameItem(Sent(f))
  {
    FrameSpan(f, pieces, tail, more, max);
    SendableTail(pieces, max);
    EncodedCons(pieces);
    assert IsText(f) && Encodable(f);
    hide EncodedFrame, Encodable, Sent, IsText, EncodedAll, Sendable, DecodeOne, StepKeeps;
    assert |tail| <= |tail + more|;
    DecodesBack(f, tail, max);
    if tail != [] && tail[0] == LF {
      FrameWithBeat(f, pieces, tail, more, max);
    } else {
      FrameAlone(f, pieces, tail, more, max);
    }
  }

  // ---------------------------------------------------------------- draining a buffer

  /**
   * Draining any front part of a sendable stream never fails, stops only where
   * the next item is cut off, and loses no frame: those that came out and those
   * still to come make up the stream.
   */
  lemma {:induction false} DrainKeepsStream(pieces: seq<Piece>, buffer: seq<byte>, more: seq<byte>, max: nat)
    returns (left: seq<Piece>)
    requires Sendable(pieces, max)
    requires buffer + more == EncodedAll(pieces)
    requires |EncodedAll(pieces)| <= USIZE_MAX
    ensures !Drain(buffer, max).failed
    ensures DecodeOne(Drain(buffer, max).rest, max) == Wait
    ensures Sendable(left, max)
    ensures Drain(buffer, max).rest + more == EncodedAll(left)
    ensures |EncodedAll(left)| <= |EncodedAll(pieces)|
    ensures Frames(Drain(buffer, max).items) + FramesSent(left) == FramesSent(pieces)
    decreases |pieces|
  {
    if buffer == [] {
      left := pieces;
    } else {
      assert pieces != [];
      var first := Written(pieces[0]);
      assert EncodedAll(pieces) == first + EncodedAll(pieces[1..]);
      hide DecodeOne, Written, EncodedAll, Sendable, Frames, FramesSent;
      SplitFirst(buffer, more, first, EncodedAll(pieces[1..]));
      if |buffer| < |first| {
        FirstCut(pieces, buffer, max);
        left := pieces;
        FramesOfNone(pieces);
      } else {
        left := DrainStep(pieces, buffer[|first|..], more, max);
      }
    }
  }

  lemma FramesOfNone(pieces: seq<Piece>)
    ensures Frames([]) + FramesSent(pieces) == FramesSent(pieces)
  {
    hide FramesSent;
  }

  /** Where the first piece ends, in a buffer that may stop short of it. */
  lemma SplitFirst(buffer: seq<byte>, more: seq<byte>, first: seq<byte>, rest: seq<byte>)
    requires buffer + more == first + rest
    ensures |buffer| < |first| ==> buffer < first
    ensures |buffer| >= |first| ==>
              buffer == first + buffer[|first|..] && buffer[|first|..] + more == rest
  {
    var all := buffer + more;
    assert buffer == all[..|buffer|] && first == all[..|first|];
    if |buffer| < |first| {
      assert buffer == first[..|buffer|];
    } else {
      assert first == buffer[..|first|];
      assert rest == all[|first|..];
    }
  }

  lemma BeatCut(cr: bool, part: seq<byte>, max: nat)
    requires part != [] && part < Eol(cr)
    ensures part == [CR] && DecodeOne(part, max) == Wait
  {
    assert part[0] == Eol(cr)[0];
  }

  /** A cut-off first item makes the decoder wait. */
  lemma FirstCut(pieces: seq<Piece>, buffer: seq<byte>, max: nat)
    requires pieces != [] && Sendable(pieces, max) && |EncodedAll(pieces)| <= USIZE_MAX
    requires buffer != [] && buffer < Written(pieces[0])
    ensures DecodeOne(buffer, max) == Wait
  {
    hide DecodeOne, EncodedFrame, Encodable;
    match pieces[0] {
      case Beat(_) => BeatCut(pieces[0].cr, buffer, max);
      case Whole(f) => PrefixWaits(f, buffer, max);
    }
  }

  lemma DrainStep(pieces: seq<Piece>, tail: seq<byte>, more: seq<byte>, max: nat) returns (left: seq<Piece>)
    requires pieces != [] && Sendable(pieces, max)
    requires tail + more == EncodedAll(pieces[1..])
    requires |EncodedAll(pieces)| <= USIZE_MAX
    ensures var d := Drain(Written(pieces[0]) + tail, max);
            && !d.failed && DecodeOne(d.rest, max) == Wait
            && d.rest + more == EncodedAll(left)
            && Frames(d.items) + FramesSent(left) == FramesSent(pieces)
    ensures Sendable(left, max)
    ensures |EncodedAll(left)| <= |EncodedAll(pieces)|
    decreases |pieces|, 0
  {
    hide DecodeOne, Written, EncodedAll, Sendable, FramesSent, LeftAfter, Frames;
    var buffer := Written(pieces[0]) + tail;
    FirstItemDecodes(pieces, tail, more, max);
    EncodedCons(pieces);
    var d := DecodeOne(buffer, max);
    var later := buffer[d.used..];
    var next := LeftAfter(pieces, tail);
    assert |later + more| <= |EncodedAll(pieces)|;
    left := DrainKeepsStream(next, later, more, max);
    FramesStep(d.item, Drain(later, max).items, left);
  }

  lemma FramesStep(item: Item, items: seq<Item>, left: seq<Piece>)
    ensures Frames([item] + items) + FramesSent(left) == Frames([item]) + (Frames(items) + FramesSent(left))
  {
    hide Frames, FramesSent;
    FramesAppend([item], items);
  }

  lemma EncodedCons(pieces: seq<Piece>)
    requires pieces != []
    ensures |EncodedAll(pieces)| == |Written(pieces[0])| + |EncodedAll(pieces[1..])|
  {
    hide Written;
  }

  // ---------------------------------------------------------------- main results

  /** A waiting decoder that holds everything there is holds nothing. */
  lemma WholeNeverWaits(pieces: seq<Piece>, max: nat)
    requires Sendable(pieces, max) && |EncodedAll(pieces)| <= USIZE_MAX
    requires DecodeOne(EncodedAll(pieces), max) == Wait
    ensures pieces == []
  {
    if pieces != [] {
      var tail := EncodedAll(pieces[1..]);
      assert tail + [] == tail;
      FirstItemDecodes(pieces, tail, [], max);
    }
  }

  lemma {:induction false} FeedKeepsStream(pieces: seq<Piece>, buffer: seq<byte>, chunks: seq<seq<byte>>, max: nat)
    requires Sendable(pieces, max) && |EncodedAll(pieces)| <= USIZE_MAX
    requires buffer + Joined(chunks) == EncodedAll(pieces)
    requires DecodeOne(buffer, max) == Wait
    ensures var d := Feed(buffer, chunks, max);
            !d.failed && d.rest == [] && Frames(d.items) == FramesSent(pieces)
    decreases |chunks|
  {
    hide DecodeOne, EncodedAll, Sendable, Drain, Frames, FramesSent;
    if chunks == [] {
      assert buffer + [] == buffer;
      WholeNeverWaits(pieces, max);
      NothingLeft();
    } else {
      var joined := buffer + chunks[0];
      var more := Joined(chunks[1..]);
      assert joined + more == buffer + Joined(chunks);
      var left := DrainKeepsStream(pieces, joined, more, max);
      var d := Drain(joined, max);
      FeedKeepsStream(left, d.rest, chunks[1..], max);
      FramesAppend(d.items, Feed(d.rest, chunks[1..], max).items);
    }
  }

  lemma NothingLeft()
    ensures EncodedAll([]) == [] && FramesSent([]) == [] && Frames([]) == []
  {
  }

  /**
   * Chunking independence: however the encoding of a list of pieces is cut into
   * chunks, decoding after each chunk never fails, yields exactly the frames
   * that were sent, in order, and leaves the buffer empty.
   */
  lemma ChunkingIndependent(pieces: seq<Piece>, chunks: seq<seq<byte>>, max: nat)
    requires Sendable(pieces, max) && |EncodedAll(pieces)| <= USIZE_MAX
    requires Joined(chunks) == EncodedAll(pieces)
    ensures var d := Feed([], chunks, max);
            !d.failed && d.rest == [] && Frames(d.items) == FramesSent(pieces)
  {
    assert [] + Joined(chunks) == Joined(chunks);
    FeedKeepsStream(pieces, [], chunks, max);
  }

  /**
   * Stream round trip: one buffer with the encodings of all pieces decodes to
   * exactly those pieces, each frame absorbing one heart-beat right behind it.
   */
  lemma {:induction false} StreamRoundTrip(pieces: seq<Piece>, max: nat)
    requires Sendable(pieces, max) && |EncodedAll(pieces)| <= USIZE_MAX
    ensures Drain(EncodedAll(pieces), max) == Drained(Absorbed(pieces), [], false)
    decreases |pieces|
  {
    if pieces != [] {
      var tail := EncodedAll(pieces[1..]);
      assert tail + [] == tail;
      FirstItemDecodes(pieces, tail, [], max);
      var buffer := Written(pieces[0]) + tail;
      var d := DecodeOne(buffer, max);
      assert buffer[d.used..] + [] == buffer[d.used..];
      if |pieces| > 1 {
        FirstByte(pieces[1..], max);
      }
      AbsorbedStep(pieces, tail);
      EncodedCons(pieces);
      hide DecodeOne, EncodedAll, Sendable, Absorbed, Written, LeftAfter;
      StreamRoundTrip(LeftAfter(pieces, tail), max);
    }
  }

  lemma AbsorbedStep(pieces: seq<Piece>, tail: seq<byte>)
    requires pieces != []
    requires |pieces| > 1 ==> tail != []
    ensures Absorbed(pieces) ==
      [ItemOf(pieces[0])]
      + Absorbed(LeftAfter(pieces, tail))
  {
    hide Sent;
  }
}
