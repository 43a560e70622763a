/** UTF-8 as the encoding of Unicode scalar values (section 3 of RFC 3629), and the check that accepts exactly it. */
module Utf8 {
  import opened Bytes
  import opened Length

  /** A Unicode scalar value: surrogates are none. */
  predicate IsScalar(c: nat) {
    c < 0xD800 || 0xE000 <= c < 0x11_0000
  }

  function Continued(n: nat): byte {
    (0x80 + n % 64) as byte
  }

  function CharBytes(c: nat): seq<byte>
    requires IsScalar(c)
  {
    if c < 0x80 then [c as byte]
    else if c < 0x800 then [(0xC0 + c / 64) as byte, Continued(c)]
    else if c < 0x1_0000 then [(0xE0 + c / 4096) as byte, Continued(c / 64), Continued(c)]
    else [(0xF0 + c / 262144) as byte, Continued(c / 4096), Continued(c / 64), Continued(c)]
  }

  predicate AllScalars(text: seq<nat>) {
    forall i | 0 <= i < |text| :: IsScalar(text[i])
  }

  function TextBytes(text: seq<nat>): seq<byte>
    requires AllScalars(text)
  {
    if text == [] then [] else CharBytes(text[0]) + TextBytes(text[1..])
  }

  lemma CharIsValid(c: nat, rest: seq<byte>)
    requires IsScalar(c)
    ensures CharLen(CharBytes(c) + rest) == |CharBytes(c)|
  {
    var bytes := CharBytes(c);
    assert forall i | 0 <= i < |bytes| :: (bytes + rest)[i] == bytes[i];
    assert c / 4096 == c / 64 / 64 && c / 262144 == c / 64 / 64 / 64;
  }

  /** The six bits of a continuation byte. */
  function Six(b: byte): nat {
    b as nat % 64
  }

  lemma Digit64(high: nat, b: byte)
    requires IsContinuation(b)
    ensures var c := high * 64 + Six(b); c / 64 == high && Continued(c) == b
  {
  }

  lemma ValidIsChar(s: seq<byte>) returns (c: nat)
    requires CharLen(s) > 0
    ensures IsScalar(c) && CharBytes(c) == s[..CharLen(s)]
  {
    var first := s[0] as nat;
    match CharLen(s) {
      case 1 => c := first;
      case 2 =>
        c := (first - 0xC0) * 64 + Six(s[1]);
        Digit64(first - 0xC0, s[1]);
      case 3 => c := ThreeByteChar(s);
      case _ => c := FourByteChar(s);
    }
  }

  lemma ThreeByteChar(s: seq<byte>) returns (c: nat)
    requires CharLen(s) == 3
    ensures IsScalar(c) && CharBytes(c) == s[..3]
  {
    var lead := s[0] as nat - 0xE0;
    var high := lead * 64 + Six(s[1]);
    c := high * 64 + Six(s[2]);
    Digit64(lead, s[1]);
    Digit64(high, s[2]);
    assert c / 4096 == high / 64;
    hide Continued;
  }

  lemma FourByteChar(s: seq<byte>) returns (c: nat)
    requires CharLen(s) == 4
    ensures IsScalar(c) && CharBytes(c) == s[..4]
  {
    var lead := s[0] as nat - 0xF0;
    var high := lead * 64 + Six(s[1]);
    var mid := high * 64 + Six(s[2]);
    c := mid * 64 + Six(s[3]);
    Digit64(lead, s[1]);
    Digit64(high, s[2]);
    Digit64(mid, s[3]);
    assert c / 4096 == mid / 64 && c / 262144 == high / 64;
    hide Continued;
  }

  lemma {:induction false} TextIsValid(text: seq<nat>)
    requires AllScalars(text)
    ensures ValidUtf8(TextBytes(text))
  {
    if text != [] {
      TextIsValid(text[1..]);
      CharIsValid(text[0], TextBytes(text[1..]));
      hide CharLen;
      assert TextBytes(text)[|CharBytes(text[0])|..] == TextBytes(text[1..]);
    }
  }

  lemma {:induction false} ValidIsText(s: seq<byte>) returns (text: seq<nat>)
    requires ValidUtf8(s)
    ensures AllScalars(text) && TextBytes(text) == s
    decreases |s|
  {
    if s == [] {
      text := [];
    } else {
      var c := ValidIsChar(s);
      hide CharLen, CharBytes;
      var rest := ValidIsText(s[CharLen(s)..]);
      text := [c] + rest;
      assert text[1..] == rest;
      assert s == s[..CharLen(s)] + s[CharLen(s)..];
    }
  }

  ghost predicate Encodes(text: seq<nat>, s: seq<byte>) {
    AllScalars(text) && TextBytes(text) == s
  }

  /** The check accepts exactly the encodings of texts. */
  lemma ValidExactly(s: seq<byte>)
    ensures ValidUtf8(s) <==> exists text :: Encodes(text, s)
  {
    hide ValidUtf8;
    if ValidUtf8(s) {
      var text := ValidIsText(s);
      assert Encodes(text, s);
    }
    forall text | Encodes(text, s)
      ensures ValidUtf8(s)
    {
      TextIsValid(text);
    }
  }
}
