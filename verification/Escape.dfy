/** Header escaping (section "Value Encoding" of STOMP 1.2) and its inverse. */
module Escape {
  import opened Options
  import opened Bytes

  datatype EscapeError = Incomplete | Invalid(other: byte)

  datatype Unescaped = Plain(bytes: seq<byte>) | BadEscape(error: EscapeError)

  function EscapeByte(b: byte): seq<byte> {
    if b == BACKSLASH then [BACKSLASH, BACKSLASH]
    else if b == CR then [BACKSLASH, 114]
    else if b == LF then [BACKSLASH, 110]
    else if b == COLON then [BACKSLASH, 99]
    else [b]
  }

  function Escaped(s: seq<byte>): seq<byte> {
    if s == [] then [] else EscapeByte(s[0]) + Escaped(s[1..])
  }

  /** What a two-byte escape stands for. */
  function EscapeCode(b: byte): Option<byte> {
    if b == BACKSLASH then Some(BACKSLASH)
    else if b == 110 then Some(LF)
    else if b == 114 then Some(CR)
    else if b == 99 then Some(COLON)
    else None
  }

  function Prepend(b: byte, r: Unescaped): Unescaped {
    match r
    case Plain(bytes) => Plain([b] + bytes)
    case BadEscape(e) => r
  }

  function Unescape(s: seq<byte>): Unescaped {
    if s == [] then Plain([])
    else if s[0] != BACKSLASH then Prepend(s[0], Unescape(s[1..]))
    else if |s| == 1 then BadEscape(Incomplete)
    else
      match EscapeCode(s[1])
      case Some(b) => Prepend(b, Unescape(s[2..]))
      case None => BadEscape(Invalid(s[1]))
  }

  /** No byte that would end a header name, a header or a line. */
  predicate Inert(s: seq<byte>) {
    forall i | 0 <= i < |s| :: s[i] != CR && s[i] != LF && s[i] != COLON
  }

  lemma {:induction false} UnescapeEscaped(s: seq<byte>)
    ensures Unescape(Escaped(s)) == Plain(s)
  {
    if s != [] {
      UnescapeEscaped(s[1..]);
      var e := Escaped(s);
      if |EscapeByte(s[0])| == 1 {
        assert e[1..] == Escaped(s[1..]);
      } else {
        assert e[2..] == Escaped(s[1..]);
      }
    }
  }

  lemma {:induction false} EscapedIsInert(s: seq<byte>)
    ensures Inert(Escaped(s))
  {
    if s != [] {
      EscapedIsInert(s[1..]);
    }
  }

  /**
   * Unescaping loses nothing exactly on the encoder's own output: whatever
   * `Unescape` accepts, escaping it again gives the same bytes if and only if
   * they held no raw CR, LF or colon.
   */
  lemma {:induction false} EscapeUnescaped(s: seq<byte>)
    requires Unescape(s).Plain?
    ensures Escaped(Unescape(s).bytes) == s <==> Inert(s)
  {
    if s == [] {
    } else {
      var n := if s[0] == BACKSLASH then 2 else 1;
      var rest := s[n..];
      EscapeUnescaped(rest);
      var t := Unescape(s).bytes;
      assert t[1..] == Unescape(rest).bytes;
      assert s == s[..n] + rest;
      if Inert(s) {
        assert Inert(rest);
        assert EscapeByte(t[0]) == s[..n];
      } else if Escaped(t) == s {
        EscapedIsInert(t);
      }
    }
  }

  lemma {:induction false} EscapedAppend(a: seq<byte>, b: seq<byte>)
    ensures Escaped(a + b) == Escaped(a) + Escaped(b)
  {
    hide EscapeByte;
    if a == [] {
      assert a + b == b;
    } else {
      EscapedAppend(a[1..], b);
      assert (a + b)[1..] == a[1..] + b;
      assert EscapeByte(a[0]) + (Escaped(a[1..]) + Escaped(b)) == EscapeByte(a[0]) + Escaped(a[1..]) + Escaped(b);
    }
  }

  /** Only a name without special bytes escapes to itself. */
  lemma {:induction false} EscapedFixed(s: seq<byte>)
    requires Lacks(Escaped(s), BACKSLASH)
    ensures Escaped(s) == s
  {
    if s != [] {
      assert Escaped(s) == EscapeByte(s[0]) + Escaped(s[1..]);
      assert EscapeByte(s[0])[0] == Escaped(s)[0];
      assert forall i | 0 <= i < |Escaped(s[1..])| :: Escaped(s[1..])[i] == Escaped(s)[|EscapeByte(s[0])| + i];
      EscapedFixed(s[1..]);
    }
  }

  lemma {:induction false} EscapedPlain(s: seq<byte>)
    requires Inert(s) && Lacks(s, BACKSLASH)
    ensures Escaped(s) == s
  {
    if s != [] {
      EscapedPlain(s[1..]);
    }
  }

  method EscapeHeaderValue(input: seq<byte>) returns (result: seq<byte>)
    ensures result == Escaped(input)
  {
    result := [];
    for i := 0 to |input|
      invariant result == Escaped(input[..i])
    {
      EscapedAppend(input[..i], [input[i]]);
      assert input[..i + 1] == input[..i] + [input[i]];
      assert Escaped([input[i]]) == EscapeByte(input[i]);
      var b := input[i];
      if b == BACKSLASH {
        result := result + [BACKSLASH, BACKSLASH];
      } else if b == CR {
        result := result + [BACKSLASH, 114];
      } else if b == LF {
        result := result + [BACKSLASH, 110];
      } else if b == COLON {
        result := result + [BACKSLASH, 99];
      } else {
        result := result + [b];
      }
    }
    assert input[..|input|] == input;
  }

  function PrependAll(bs: seq<byte>, r: Unescaped): Unescaped {
    match r
    case Plain(bytes) => Plain(bs + bytes)
    case BadEscape(e) => r
  }

  method UnescapeHeaderValue(input: seq<byte>) returns (r: Unescaped)
    requires |input| <= ISIZE_MAX
    ensures r == Unescape(input)
  {
    var result: seq<byte> := [];
    var i: usize := 0;
    while i < |input| as usize
      invariant i as int <= |input|
      invariant PrependAll(result, Unescape(input[i..])) == Unescape(input)
    {
      ghost var tail := input[i..];
      if input[i] == BACKSLASH {
        if i + 1 >= |input| as usize {
          return BadEscape(Incomplete);
        }
        assert tail[2..] == input[i + 2..];
        match EscapeCode(input[i + 1]) {
          case Some(b) =>
            result := result + [b];
          case None =>
            return BadEscape(Invalid(input[i + 1]));
        }
        i := i + 2;
      } else {
        assert tail[1..] == input[i + 1..];
        result := result + [input[i]];
        i := i + 1;
      }
    }
    assert input[i..] == [];
    return Plain(result);
  }
}
