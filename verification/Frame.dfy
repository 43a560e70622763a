/** STOMP frames, their builders and their header lookups. */
module Frame {
  import opened Options
  import opened Bytes
  import opened Length

  datatype Header = Header(name: seq<byte>, value: seq<byte>)

  datatype Frame = Frame(command: seq<byte>, headers: seq<Header>, body: seq<byte>)

  /** The fields Rust keeps in a `String` hold valid UTF-8. */
  predicate IsText(f: Frame) {
    && ValidUtf8(f.command)
    && forall i | 0 <= i < |f.headers| :: ValidUtf8(f.headers[i].name) && ValidUtf8(f.headers[i].value)
  }

  function Ascii(s: string): seq<byte>
    requires forall i | 0 <= i < |s| :: s[i] < 128 as char
  {
    seq(|s|, i requires 0 <= i < |s| => s[i] as byte)
  }

  const RECEIPT: seq<byte> := Ascii("receipt")

  // ---------------------------------------------------------------- lookups

  /** The headers with this name, in order, ignoring ASCII case. */
  function Named(headers: seq<Header>, name: seq<byte>): seq<Header> {
    if headers == [] then []
    else (if EqIgnoreCase(headers[0].name, name) then [headers[0]] else []) + Named(headers[1..], name)
  }

  /** The headers without those of this name, in order. */
  function Others(headers: seq<Header>, name: seq<byte>): seq<Header> {
    if headers == [] then []
    else (if EqIgnoreCase(headers[0].name, name) then [] else [headers[0]]) + Others(headers[1..], name)
  }

  /** The first value. */
  function First(headers: seq<Header>, name: seq<byte>): Option<seq<byte>> {
    if headers == [] then None
    else if EqIgnoreCase(headers[0].name, name) then Some(headers[0].value)
    else First(headers[1..], name)
  }

  /** `get_header` */
  method GetHeader(f: Frame, name: seq<byte>) returns (value: Option<seq<byte>>)
    ensures value == if Named(f.headers, name) == [] then None else Some(Named(f.headers, name)[0].value)
  {
    FirstIsNamed(f.headers, name);
    var i := 0;
    while i < |f.headers|
      invariant i <= |f.headers|
      invariant First(f.headers, name) == First(f.headers[i..], name)
    {
      if EqIgnoreCase(f.headers[i].name, name) {
        return Some(f.headers[i].value);
      }
      i := i + 1;
    }
    return None;
  }

  lemma {:induction false} FirstIsNamed(headers: seq<Header>, name: seq<byte>)
    ensures First(headers, name) == if Named(headers, name) == [] then None else Some(Named(headers, name)[0].value)
  {
    if headers != [] {
      FirstIsNamed(headers[1..], name);
    }
  }

  // ---------------------------------------------------------------- asking for a receipt

  /** `send_frame_with_receipt`: a receipt header of the caller's gives way to the generated one. */
  function WithReceipt(f: Frame, id: seq<byte>): Frame {
    f.(headers := Others(f.headers, RECEIPT) + [Header(RECEIPT, id)])
  }

  method AddReceipt(f: Frame, id: seq<byte>) returns (r: Frame)
    ensures r == WithReceipt(f, id)
  {
    hide EqIgnoreCase;
    var kept := [];
    var i := 0;
    while i < |f.headers|
      invariant i <= |f.headers|
      invariant Others(f.headers, RECEIPT) == kept + Others(f.headers[i..], RECEIPT)
    {
      assert f.headers[i..][1..] == f.headers[i + 1..];
      if !EqIgnoreCase(f.headers[i].name, RECEIPT) {
        kept := kept + [f.headers[i]];
      }
      i := i + 1;
    }
    return f.(headers := kept + [Header(RECEIPT, id)]);
  }

  lemma {:induction false} NamedConcat(a: seq<Header>, b: seq<Header>, name: seq<byte>)
    ensures Named(a + b, name) == Named(a, name) + Named(b, name)
  {
    hide EqIgnoreCase;
    if a == [] {
      assert a + b == b;
    } else {
      assert (a + b)[1..] == a[1..] + b;
      NamedConcat(a[1..], b, name);
      var here := if EqIgnoreCase(a[0].name, name) then [a[0]] else [];
      assert here + (Named(a[1..], name) + Named(b, name)) == here + Named(a[1..], name) + Named(b, name);
    }
  }

  lemma {:induction false} OthersConcat(a: seq<Header>, b: seq<Header>, name: seq<byte>)
    ensures Others(a + b, name) == Others(a, name) + Others(b, name)
  {
    hide EqIgnoreCase;
    if a == [] {
      assert a + b == b;
    } else {
      assert (a + b)[1..] == a[1..] + b;
      OthersConcat(a[1..], b, name);
      var here := if EqIgnoreCase(a[0].name, name) then [] else [a[0]];
      assert here + (Others(a[1..], name) + Others(b, name)) == here + Others(a[1..], name) + Others(b, name);
    }
  }

  lemma {:induction false} OthersHaveNone(headers: seq<Header>, name: seq<byte>)
    ensures Named(Others(headers, name), name) == []
    ensures Others(Others(headers, name), name) == Others(headers, name)
  {
    hide EqIgnoreCase;
    if headers != [] {
      var rest := Others(headers[1..], name);
      OthersHaveNone(headers[1..], name);
      if EqIgnoreCase(headers[0].name, name) {
        assert Others(headers, name) == [] + rest == rest;
      } else {
        assert Others(headers, name) == [headers[0]] + rest;
        assert Others(headers, name)[1..] == rest;
        assert Named(Others(headers, name), name) == [] + Named(rest, name);
      }
    }
  }

  /**
   * The frame carries exactly one `receipt` header, the generated one, so that
   * is what the broker answers; every other header, the command and the body
   * are the caller's.
   */
  lemma OneReceiptHeader(f: Frame, id: seq<byte>)
    ensures var r := WithReceipt(f, id);
            && Named(r.headers, RECEIPT) == [Header(RECEIPT, id)]
            && First(r.headers, RECEIPT) == Some(id)
            && Others(r.headers, RECEIPT) == Others(f.headers, RECEIPT)
            && r.command == f.command && r.body == f.body
  {
    var r := WithReceipt(f, id);
    var own := [Header(RECEIPT, id)];
    assert Named(own, RECEIPT) == own + Named(own[1..], RECEIPT);
    assert Others(own, RECEIPT) == [] + Others(own[1..], RECEIPT);
    NamedConcat(Others(f.headers, RECEIPT), own, RECEIPT);
    OthersConcat(Others(f.headers, RECEIPT), own, RECEIPT);
    OthersHaveNone(f.headers, RECEIPT);
    FirstIsNamed(r.headers, RECEIPT);
  }
}
