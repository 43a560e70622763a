/** Which headers of a MESSAGE decide where it goes and what an acknowledgement of it names. */
module Routing {
  import opened Options
  import opened Bytes
  import opened Frame

  const DESTINATION: seq<byte> := Ascii("destination")
  const SUBSCRIPTION: seq<byte> := Ascii("subscription")
  const MESSAGE_ID: seq<byte> := Ascii("message-id")
  const ACK: seq<byte> := Ascii("ack")

  /** U+212A, whose lower case is an ASCII `k`. */
  const KELVIN: seq<byte> := [0xE2, 0x84, 0xAA]

  /** The name lowers to `ack`. The other names looked for have no spelling beyond ASCII. */
  predicate LowersToAck(name: seq<byte>) {
    EqIgnoreCase(name, ACK) || (|name| == 5 && EqIgnoreCase(name[..2], Ascii("ac")) && name[2..] == KELVIN)
  }

  /** What the dispatch loop takes from the headers. */
  datatype Route = Route(
    dest: Option<seq<byte>>, sub: Option<seq<byte>>, msgId: Option<seq<byte>>, ack: Option<seq<byte>>)

  /** The last value. */
  function Last(headers: seq<Header>, name: seq<byte>): Option<seq<byte>> {
    if headers == [] then None
    else if EqIgnoreCase(headers[|headers| - 1].name, name) then Some(headers[|headers| - 1].value)
    else Last(headers[..|headers| - 1], name)
  }

  function FirstAck(headers: seq<Header>): Option<seq<byte>> {
    if headers == [] then None
    else if LowersToAck(headers[0].name) then Some(headers[0].value)
    else FirstAck(headers[1..])
  }

  /** The dispatch loop: a repeated header's last value counts, except `ack`, whose first does. */
  method Dispatch(headers: seq<Header>) returns (r: Route)
    ensures r == Route(Last(headers, DESTINATION), Last(headers, SUBSCRIPTION),
                       Last(headers, MESSAGE_ID), FirstAck(headers))
  {
    r := Route(None, None, None, None);
    var i := 0;
    while i < |headers|
      invariant i <= |headers|
      invariant r.dest == Last(headers[..i], DESTINATION)
      invariant r.sub == Last(headers[..i], SUBSCRIPTION)
      invariant r.msgId == Last(headers[..i], MESSAGE_ID)
      invariant FirstAck(headers) == if r.ack.Some? then r.ack else FirstAck(headers[i..])
    {
      var h := headers[i];
      assert headers[..i + 1][..i] == headers[..i];
      NamesDiffer(h.name);
      if EqIgnoreCase(h.name, DESTINATION) {
        r := r.(dest := Some(h.value));
      } else if EqIgnoreCase(h.name, SUBSCRIPTION) {
        r := r.(sub := Some(h.value));
      } else if EqIgnoreCase(h.name, MESSAGE_ID) {
        r := r.(msgId := Some(h.value));
      } else if LowersToAck(h.name) && r.ack == None {
        r := r.(ack := Some(h.value));
      }
      i := i + 1;
    }
    assert headers[..|headers|] == headers;
  }

  /** A name is at most one of the four. */
  lemma NamesDiffer(name: seq<byte>)
    ensures EqIgnoreCase(name, DESTINATION) ==> !EqIgnoreCase(name, SUBSCRIPTION) && !EqIgnoreCase(name, MESSAGE_ID)
    ensures EqIgnoreCase(name, SUBSCRIPTION) ==> !EqIgnoreCase(name, MESSAGE_ID)
    ensures LowersToAck(name) ==> |name| == 3 || |name| == 5
    ensures |DESTINATION| == 11 && |SUBSCRIPTION| == 12 && |MESSAGE_ID| == 10
  {
  }

  /** `ack_id_of`: what `ack_frame` names the MESSAGE by. */
  function AckIdOf(f: Frame): Option<seq<byte>> {
    if First(f.headers, ACK).Some? then First(f.headers, ACK) else First(f.headers, MESSAGE_ID)
  }

  /** `PendingMessage::new`: what the client recorded the MESSAGE under, if it has a `message-id`. */
  function RecordedAckId(f: Frame): Option<seq<byte>> {
    if Last(f.headers, MESSAGE_ID).None? then None
    else if FirstAck(f.headers).Some? then FirstAck(f.headers)
    else Last(f.headers, MESSAGE_ID)
  }

  predicate PlainAckNames(headers: seq<Header>) {
    forall i | 0 <= i < |headers| :: LowersToAck(headers[i].name) ==> EqIgnoreCase(headers[i].name, ACK)
  }

  /** The headers the dispatch loop takes for an `ack`. */
  function AckNamed(headers: seq<Header>): seq<Header> {
    if headers == [] then []
    else (if LowersToAck(headers[0].name) then [headers[0]] else []) + AckNamed(headers[1..])
  }

  lemma {:induction false} FirstAckIsNamed(headers: seq<Header>)
    ensures FirstAck(headers) == if AckNamed(headers) == [] then None else Some(AckNamed(headers)[0].value)
    ensures Named(headers, ACK) != [] ==> AckNamed(headers) != []
    ensures PlainAckNames(headers) ==> AckNamed(headers) == Named(headers, ACK)
  {
    if headers != [] {
      FirstAckIsNamed(headers[1..]);
    }
  }

  lemma {:induction false} LastIsNamed(headers: seq<Header>, name: seq<byte>)
    ensures Last(headers, name)
         == if Named(headers, name) == [] then None else Some(Named(headers, name)[|Named(headers, name)| - 1].value)
  {
    if headers != [] {
      var init := headers[..|headers| - 1];
      var tail := [headers[|headers| - 1]];
      LastIsNamed(init, name);
      NamedConcat(init, tail, name);
      assert init + tail == headers;
      assert Named(tail, name) == (if EqIgnoreCase(tail[0].name, name) then tail else []) + Named(tail[1..], name);
    }
  }

  /**
   * When acknowledging a recorded MESSAGE by its frame names the ack id it was
   * recorded under. Both sides take the first `ack` header, but only the
   * dispatch loop takes one spelled with the KELVIN SIGN; without one the
   * record has the last `message-id` and the acknowledgement the first. With
   * `ack` headers spelled in ASCII alone, it is enough to have one.
   */
  lemma AckFrameNamesRecorded(f: Frame)
    requires Named(f.headers, MESSAGE_ID) != []
    ensures var ids, plain, acks := Named(f.headers, MESSAGE_ID), Named(f.headers, ACK), AckNamed(f.headers);
            && (plain != [] ==> acks != [])
            && (AckIdOf(f) == RecordedAckId(f)
                <==> if plain != [] then plain[0].value == acks[0].value
                     else if acks != [] then ids[0].value == acks[0].value
                     else ids[0].value == ids[|ids| - 1].value)
            && (PlainAckNames(f.headers) ==>
                  (AckIdOf(f) == RecordedAckId(f) <==> plain != [] || ids[0].value == ids[|ids| - 1].value))
  {
    hide EqIgnoreCase, LowersToAck, PlainAckNames;
    FirstAckIsNamed(f.headers);
    FirstIsNamed(f.headers, ACK);
    FirstIsNamed(f.headers, MESSAGE_ID);
    LastIsNamed(f.headers, MESSAGE_ID);
  }

  /** Two `message-id` headers and no `ack`: the acknowledgement would name the one, the record has the other. */
  lemma RepeatedMessageIdMissed()
    ensures var f := Frame([], [Header(MESSAGE_ID, [1]), Header(MESSAGE_ID, [2])], []);
            AckIdOf(f) == Some([1]) && RecordedAckId(f) == Some([2])
  {
    var h := [Header(MESSAGE_ID, [1]), Header(MESSAGE_ID, [2])];
    assert EqIgnoreCase(MESSAGE_ID, MESSAGE_ID);
    NamesDiffer(MESSAGE_ID);
    assert !LowersToAck(MESSAGE_ID);
    assert !EqIgnoreCase(MESSAGE_ID, ACK);
    assert First(h, ACK) == First(h[1..], ACK) == First(h[1..][1..], ACK) == None;
    assert FirstAck(h) == FirstAck(h[1..]) == FirstAck(h[1..][1..]) == None;
    assert Last(h, MESSAGE_ID) == Some([2]);
  }
}
