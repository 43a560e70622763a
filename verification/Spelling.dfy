/** The escapes of section "Value Encoding" of STOMP 1.2, said as a spelling of each byte. */
module Spelling {
  import opened Options
  import opened Bytes
  import opened Escape

  /** How one byte stands in a header: as it is, or as a backslash and a letter. */
  datatype Spelt = Raw(b: byte) | Coded(b: byte)

  /** The letters of the four escapes. */
  const LETTERS: map<byte, char> := map[CR := 'r', LF := 'n', COLON := 'c', BACKSLASH := '\\']

  predicate GoodSpelling(x: Spelt) {
    match x
    case Raw(b) => b != BACKSLASH
    case Coded(b) => b in LETTERS
  }

  predicate AllGood(xs: seq<Spelt>) {
    forall i | 0 <= i < |xs| :: GoodSpelling(xs[i])
  }

  function TextOf(x: Spelt): seq<byte>
    requires GoodSpelling(x)
  {
    match x
    case Raw(b) => [b]
    case Coded(b) => [BACKSLASH, LETTERS[b] as byte]
  }

  /** The bytes in the buffer. */
  function TextsOf(xs: seq<Spelt>): seq<byte>
    requires AllGood(xs)
  {
    if xs == [] then [] else TextOf(xs[0]) + TextsOf(xs[1..])
  }

  /** The bytes that are meant. */
  function Meant(xs: seq<Spelt>): seq<byte> {
    seq(|xs|, i requires 0 <= i < |xs| => xs[i].b)
  }

  /** No escape has this letter. */
  predicate NoLetter(b: byte) {
    forall c | c in LETTERS :: LETTERS[c] as byte != b
  }

  /** The text is spelt out up to its end, or up to a backslash that begins no escape. */
  predicate SpeltTo(s: seq<byte>, xs: seq<Spelt>, stop: seq<byte>) {
    && AllGood(xs) && s == TextsOf(xs) + stop
    && (stop == [] || (stop[0] == BACKSLASH && (|stop| == 1 || NoLetter(stop[1]))))
  }

  /** What such a text stands for. */
  function Verdict(xs: seq<Spelt>, stop: seq<byte>): Unescaped {
    if stop == [] then Plain(Meant(xs))
    else if |stop| == 1 then BadEscape(Incomplete)
    else BadEscape(Invalid(stop[1]))
  }

  lemma CodesAreLetters(letter: byte)
    ensures EscapeCode(letter).None? <==> NoLetter(letter)
    ensures EscapeCode(letter).Some? ==>
              EscapeCode(letter).value in LETTERS && LETTERS[EscapeCode(letter).value] as byte == letter
    ensures forall b | b in LETTERS && LETTERS[b] as byte == letter :: EscapeCode(letter) == Some(b)
  {
    assert CR in LETTERS && LF in LETTERS && COLON in LETTERS && BACKSLASH in LETTERS;
  }

  lemma {:induction false} VerdictOfSpelling(s: seq<byte>, xs: seq<Spelt>, stop: seq<byte>)
    requires SpeltTo(s, xs, stop)
    ensures Unescape(s) == Verdict(xs, stop)
    decreases |xs|
  {
    hide NoLetter;
    if xs == [] {
      if |stop| >= 2 {
        CodesAreLetters(stop[1]);
      }
    } else {
      var rest := s[|TextOf(xs[0])|..];
      assert SpeltTo(rest, xs[1..], stop);
      VerdictOfSpelling(rest, xs[1..], stop);
      assert Meant(xs) == [xs[0].b] + Meant(xs[1..]);
      if xs[0].Coded? {
        CodesAreLetters(LETTERS[xs[0].b] as byte);
        assert s[1] == LETTERS[xs[0].b] as byte;
      }
    }
  }

  lemma {:induction false} SpellingOf(s: seq<byte>) returns (xs: seq<Spelt>, stop: seq<byte>)
    ensures SpeltTo(s, xs, stop)
    decreases |s|
  {
    hide NoLetter;
    if s == [] {
      xs, stop := [], [];
    } else if s[0] != BACKSLASH {
      xs, stop := SpellingOf(s[1..]);
      xs := JoinSpelling(Raw(s[0]), s[1..], xs, stop);
      assert s == [s[0]] + s[1..];
    } else if |s| == 1 {
      xs, stop := [], s;
    } else {
      CodesAreLetters(s[1]);
      if EscapeCode(s[1]).None? {
        xs, stop := [], s;
      } else {
        xs, stop := SpellingOf(s[2..]);
        xs := JoinSpelling(Coded(EscapeCode(s[1]).value), s[2..], xs, stop);
        assert s == [s[0], s[1]] + s[2..];
      }
    }
  }

  lemma JoinSpelling(x: Spelt, s: seq<byte>, xs: seq<Spelt>, stop: seq<byte>) returns (all: seq<Spelt>)
    requires GoodSpelling(x) && SpeltTo(s, xs, stop)
    ensures all == [x] + xs && SpeltTo(TextOf(x) + s, all, stop)
  {
    hide NoLetter, TextOf, GoodSpelling;
    all := [x] + xs;
    assert all[1..] == xs;
    assert TextOf(x) + (TextsOf(xs) + stop) == TextOf(x) + TextsOf(xs) + stop;
  }

  /**
   * Exactly: unescaping gives a verdict if and only if the text can be spelt
   * so. Raw CR, LF and colons are let through, and the first backslash that
   * begins no escape is the error.
   */
  lemma UnescapeExactly(s: seq<byte>, r: Unescaped)
    ensures Unescape(s) == r <==> exists xs, stop :: SpeltTo(s, xs, stop) && r == Verdict(xs, stop)
  {
    hide Unescape, SpeltTo, Verdict;
    var ys, end := SpellingOf(s);
    VerdictOfSpelling(s, ys, end);
    forall xs, stop | SpeltTo(s, xs, stop)
      ensures Unescape(s) == Verdict(xs, stop)
    {
      VerdictOfSpelling(s, xs, stop);
    }
  }

  /** The encoder spells the four bytes as escapes and no other. */
  function Encoding(s: seq<byte>): seq<Spelt> {
    seq(|s|, i requires 0 <= i < |s| => if s[i] in LETTERS then Coded(s[i]) else Raw(s[i]))
  }

  lemma {:induction false} EscapedExactly(s: seq<byte>)
    ensures AllGood(Encoding(s)) && Escaped(s) == TextsOf(Encoding(s)) && Meant(Encoding(s)) == s
  {
    if s != [] {
      EscapedExactly(s[1..]);
      assert Encoding(s)[1..] == Encoding(s[1..]);
    }
  }
}
