/** Exactly which `content-length` values announce a length. */
module Spaces {
  import opened Options
  import opened Bytes
  import opened Length

  const PLUS: byte := 43

  /** White-space characters only. */
  predicate AllSpace(s: seq<byte>)
    decreases |s|
  {
    s == [] || (SpaceLen(s) > 0 && AllSpace(s[SpaceLen(s)..]))
  }

  // ---------------------------------------------------------------- white space from the front

  lemma {:induction false} SpaceIsUtf8(s: seq<byte>)
    requires AllSpace(s)
    ensures ValidUtf8(s)
    decreases |s|
  {
    if s != [] {
      SpaceIsChar(s);
      SpaceIsUtf8(s[SpaceLen(s)..]);
    }
  }

  lemma SpaceIsChar(s: seq<byte>)
    requires SpaceLen(s) > 0
    ensures CharLen(s) == SpaceLen(s)
  {
  }

  lemma {:induction false} Utf8Concat(a: seq<byte>, b: seq<byte>)
    requires ValidUtf8(a) && ValidUtf8(b)
    ensures ValidUtf8(a + b)
    decreases |a|
  {
    if a == [] {
      assert a + b == b;
    } else {
      CharInFront(a, b);
      Utf8Concat(a[CharLen(a)..], b);
      assert (a + b)[CharLen(a)..] == a[CharLen(a)..] + b;
    }
  }

  lemma CharInFront(a: seq<byte>, b: seq<byte>)
    requires CharLen(a) > 0
    ensures CharLen(a + b) == CharLen(a)
  {
    assert forall i | 0 <= i < |a| :: (a + b)[i] == a[i];
  }

  lemma SpaceInFront(a: seq<byte>, b: seq<byte>)
    requires SpaceLen(a) > 0
    ensures SpaceLen(a + b) == SpaceLen(a)
  {
    assert forall i | 0 <= i < |a| :: (a + b)[i] == a[i];
    if |a| >= 3 {
      assert (a + b)[..3] == a[..3];
    }
  }

  lemma {:induction false} TrimStartDrops(spaces: seq<byte>, s: seq<byte>)
    requires AllSpace(spaces) && SpaceLen(s) == 0
    ensures TrimStart(spaces + s) == s
    decreases |spaces|
  {
    if spaces == [] {
      assert spaces + s == s;
    } else {
      SpaceInFront(spaces, s);
      var n := SpaceLen(spaces);
      assert (spaces + s)[n..] == spaces[n..] + s;
      TrimStartDrops(spaces[n..], s);
    }
  }

  // ---------------------------------------------------------------- and from the end

  /** White space behind more text ends that text the same way. */
  lemma EndInFront(a: seq<byte>, s: seq<byte>)
    requires SpaceLenAtEnd(s) > 0
    ensures SpaceLenAtEnd(a + s) == SpaceLenAtEnd(s)
  {
    var t := a + s;
    assert t[|t| - 1..] == s[|s| - 1..];
    if |s| >= 2 {
      assert t[|t| - 2..] == s[|s| - 2..];
    }
    if |s| >= 3 {
      assert t[|t| - 3..] == s[|s| - 3..];
    }
  }

  /** One white-space character ends as it began. */
  lemma SpaceEnds(s: seq<byte>)
    requires SpaceLen(s) == |s| > 0
    ensures SpaceLenAtEnd(s) == |s|
  {
    assert s[|s| - |s|..] == s;
    if |s| >= 2 {
      assert s[|s| - 1..] == [s[|s| - 1]];
    }
    if |s| == 3 {
      assert s[..3] == s;
      assert s[1..] == [s[1], s[2]];
    }
  }

  /** White space can be taken off its end as well as off its front. */
  lemma {:induction false} LastSpace(s: seq<byte>)
    requires AllSpace(s) && s != []
    ensures SpaceLenAtEnd(s) > 0 && AllSpace(s[..|s| - SpaceLenAtEnd(s)])
    decreases |s|
  {
    hide SpaceLenAtEnd, SpaceLen, AllSpace;
    var n := FirstSpace(s);
    if n == |s| {
      SpaceEnds(s);
      NothingIsSpace(s[..0]);
    } else {
      LastSpace(s[n..]);
      SpaceThen(s[..n], s[n..]);
      assert s[..n] + s[n..] == s;
    }
  }

  lemma FirstSpace(s: seq<byte>) returns (n: nat)
    requires AllSpace(s) && s != []
    ensures 0 < n <= |s| && n == SpaceLen(s) == SpaceLen(s[..n]) && AllSpace(s[n..])
  {
    n := SpaceLen(s);
    WholeSpace(s, n);
    hide SpaceLen;
  }

  lemma NothingIsSpace(s: seq<byte>)
    requires s == []
    ensures AllSpace(s)
  {
  }

  lemma SpaceThen(first: seq<byte>, rest: seq<byte>)
    requires SpaceLen(first) == |first| > 0
    requires SpaceLenAtEnd(rest) > 0 && AllSpace(rest[..|rest| - SpaceLenAtEnd(rest)])
    ensures var k := SpaceLenAtEnd(first + rest);
            k == SpaceLenAtEnd(rest) && AllSpace((first + rest)[..|first + rest| - k])
  {
    EndInFront(first, rest);
    var left := rest[..|rest| - SpaceLenAtEnd(rest)];
    SpaceInFront(first, left);
    hide SpaceLenAtEnd, SpaceLen;
    var s := first + rest;
    assert s[..|s| - SpaceLenAtEnd(rest)] == first + left;
    assert (first + left)[|first|..] == left;
  }

  lemma WholeSpace(s: seq<byte>, n: nat)
    requires n == SpaceLen(s) > 0
    ensures SpaceLen(s[..n]) == n
  {
    if n == 3 {
      assert s[..3][..3] == s[..3];
    }
  }

  lemma {:induction false} TrimEndDrops(s: seq<byte>, spaces: seq<byte>)
    requires AllSpace(spaces) && SpaceLenAtEnd(s) == 0
    ensures TrimEnd(s + spaces) == s
    decreases |spaces|
  {
    hide SpaceLenAtEnd, SpaceLen, AllSpace;
    if spaces == [] {
      assert s + spaces == s;
    } else {
      LastSpace(spaces);
      EndInFront(s, spaces);
      var left := spaces[..|spaces| - SpaceLenAtEnd(spaces)];
      assert (s + spaces)[..|s + spaces| - SpaceLenAtEnd(spaces)] == s + left;
      TrimEndDrops(s, left);
    }
  }

  // ---------------------------------------------------------------- numbers with white space around them

  /** Digits with perhaps a plus sign in front. */
  predicate IsNumber(s: seq<byte>) {
    s != [] && (AllDigits(s) || (|s| > 1 && s[0] == PLUS && AllDigits(s[1..])))
  }

  function ValueOf(s: seq<byte>): nat
    requires IsNumber(s)
  {
    if s[0] == PLUS then DigitsValue(s[1..]) else DigitsValue(s)
  }

  predicate Plain(b: byte) {
    b == PLUS || IsDigit(b)
  }

  lemma NumberIsAscii(s: seq<byte>)
    requires IsNumber(s)
    ensures s != [] && forall i | 0 <= i < |s| :: Plain(s[i])
  {
    if !AllDigits(s) {
      forall i | 0 < i < |s|
        ensures IsDigit(s[i])
      {
        assert s[1..][i - 1] == s[i];
      }
    }
  }

  /** None of its characters, nor the end of any of its tails, is white space. */
  lemma NoSpaceFrom(s: seq<byte>)
    requires s != [] && Plain(s[0])
    ensures SpaceLen(s) == 0
  {
  }

  lemma NotWide(s: seq<byte>)
    requires |s| == 3 && Plain(s[0])
    ensures !IsWideSpace(s)
  {
  }

  /** A text whose last three bytes are plain does not end in white space. */
  lemma EndsPlain(s: seq<byte>)
    requires s != [] && Plain(s[|s| - 1])
    requires |s| >= 2 ==> Plain(s[|s| - 2])
    requires |s| >= 3 ==> Plain(s[|s| - 3])
    ensures SpaceLenAtEnd(s) == 0
  {
    TailsPlain(s);
    hide Plain;
    if |s| >= 1 && SpaceLen(s[|s| - 1..]) == 1 {
      assert false;
    } else if |s| >= 2 && SpaceLen(s[|s| - 2..]) == 2 {
      assert false;
    } else if |s| >= 3 && IsWideSpace(s[|s| - 3..]) {
      assert false;
    }
  }

  lemma TailsPlain(s: seq<byte>)
    requires s != [] && Plain(s[|s| - 1])
    requires |s| >= 2 ==> Plain(s[|s| - 2])
    requires |s| >= 3 ==> Plain(s[|s| - 3])
    ensures SpaceLen(s[|s| - 1..]) == 0
    ensures |s| >= 2 ==> SpaceLen(s[|s| - 2..]) == 0
    ensures |s| >= 3 ==> !IsWideSpace(s[|s| - 3..])
  {
    hide SpaceLen, IsWideSpace, Plain;
    var one := s[|s| - 1..];
    assert one[0] == s[|s| - 1];
    NoSpaceFrom(one);
    if |s| >= 2 {
      var two := s[|s| - 2..];
      assert two[0] == s[|s| - 2];
      NoSpaceFrom(two);
    }
    if |s| >= 3 {
      var three := s[|s| - 3..];
      assert |three| == 3 && three[0] == s[|s| - 3];
      NotWide(three);
    }
  }

  lemma NumberHasNoSpace(s: seq<byte>, after: seq<byte>)
    requires IsNumber(s)
    ensures SpaceLenAtEnd(s) == 0 && ValidUtf8(s) && SpaceLen(s + after) == 0
  {
    NumberIsAscii(s);
    hide IsNumber, SpaceLen, SpaceLenAtEnd, ValidUtf8;
    assert IsAscii(s);
    AsciiIsUtf8(s);
    EndsPlain(s);
    assert (s + after)[0] == s[0];
    NoSpaceFrom(s + after);
  }

  lemma ParsesNumber(s: seq<byte>)
    requires IsNumber(s)
    ensures ParseUsize(s) == if ValueOf(s) <= USIZE_MAX then Some(ValueOf(s)) else None
  {
    hide DigitsValue;
    if s[0] == PLUS {
      assert !IsDigit(s[0]);
    }
  }

  /** A number with any white space around it announces its value, or is refused when that exceeds 64 bits. */
  lemma SpacedNumber(before: seq<byte>, s: seq<byte>, after: seq<byte>)
    requires AllSpace(before) && IsNumber(s) && AllSpace(after)
    ensures LengthOf(before + s + after)
         == if ValueOf(s) <= USIZE_MAX then Length(ValueOf(s)) else BadLength(NotANumber)
  {
    hide LengthOf, Trim, ValidUtf8, SpaceLen, SpaceLenAtEnd, AllSpace, ParseUsize, ValueOf, IsNumber;
    SpacedTrims(before, s, after);
    NumberNotEmpty(s);
    ParsesNumber(s);
    LengthOfTrimmed(before + s + after);
  }

  lemma LengthOfTrimmed(v: seq<byte>)
    requires ValidUtf8(v) && Trim(v) != []
    ensures LengthOf(v)
         == (if ParseUsize(Trim(v)).Some? then Length(ParseUsize(Trim(v)).value) else BadLength(NotANumber))
  {
    hide ValidUtf8, Trim, ParseUsize;
  }

  lemma SpacedTrims(before: seq<byte>, s: seq<byte>, after: seq<byte>)
    requires AllSpace(before) && IsNumber(s) && AllSpace(after)
    ensures ValidUtf8(before + s + after) && Trim(before + s + after) == s
  {
    hide ValidUtf8, SpaceLen, SpaceLenAtEnd, AllSpace, IsNumber, TrimStart, TrimEnd;
    NumberHasNoSpace(s, after);
    SpaceIsUtf8(before);
    SpaceIsUtf8(after);
    Utf8Concat(before, s);
    Utf8Concat(before + s, after);
    TrimStartDrops(before, s + after);
    TrimEndDrops(s, after);
    assert before + s + after == before + (s + after);
  }

  lemma NumberNotEmpty(s: seq<byte>)
    requires IsNumber(s)
    ensures s != []
  {
  }

  // ---------------------------------------------------------------- and nothing else

  lemma {:induction false} TrimStartSplits(v: seq<byte>) returns (before: seq<byte>)
    ensures AllSpace(before) && v == before + TrimStart(v)
    decreases |v|
  {
    hide SpaceLen;
    if SpaceLen(v) == 0 {
      before := [];
    } else {
      var n := SpaceLen(v);
      var rest := TrimStartSplits(v[n..]);
      before := v[..n] + rest;
      WholeSpace(v, n);
      SpaceInFront(v[..n], rest);
      assert before[n..] == rest;
    }
  }

  lemma {:induction false} TrimEndSplits(v: seq<byte>) returns (after: seq<byte>)
    ensures AllSpace(after) && v == TrimEnd(v) + after
    decreases |v|
  {
    hide SpaceLenAtEnd, SpaceLen, AllSpace, TrimEnd;
    TrimEndOnce(v);
    if SpaceLenAtEnd(v) == 0 {
      after := [];
      NoSpaceIsSpace();
    } else {
      var n := |v| - SpaceLenAtEnd(v);
      var front, last := v[..n], v[n..];
      var rest := TrimEndSplits(front);
      after := rest + last;
      EndIsSpace(v);
      SpaceBehind(rest, last);
      Regroup(TrimEnd(v), rest, last, v, n);
    }
  }

  lemma Regroup(a: seq<byte>, b: seq<byte>, c: seq<byte>, v: seq<byte>, n: nat)
    requires n <= |v| && v[..n] == a + b && v[n..] == c
    ensures v == a + (b + c)
  {
    assert v == v[..n] + v[n..];
  }

  lemma NoSpaceIsSpace()
    ensures AllSpace([])
  {
  }

  lemma TrimEndOnce(v: seq<byte>)
    ensures TrimEnd(v) == if SpaceLenAtEnd(v) == 0 then v else TrimEnd(v[..|v| - SpaceLenAtEnd(v)])
  {
    hide SpaceLenAtEnd;
  }

  lemma EndIsSpace(v: seq<byte>)
    requires SpaceLenAtEnd(v) > 0
    ensures AllSpace(v[|v| - SpaceLenAtEnd(v)..])
  {
    var last := v[|v| - SpaceLenAtEnd(v)..];
    EndLength(v);
    hide SpaceLenAtEnd, SpaceLen;
    assert last[|last|..] == [];
  }

  lemma EndLength(v: seq<byte>)
    requires SpaceLenAtEnd(v) > 0
    ensures SpaceLen(v[|v| - SpaceLenAtEnd(v)..]) == SpaceLenAtEnd(v)
  {
    if |v| >= 3 {
      WideAlone(v[|v| - 3..]);
    }
    hide IsWideSpace, SpaceLen;
  }

  lemma WideAlone(s: seq<byte>)
    requires |s| == 3
    ensures IsWideSpace(s) ==> SpaceLen(s) == 3
  {
    assert s[..3] == s;
  }

  lemma {:induction false} SpaceBehind(a: seq<byte>, b: seq<byte>)
    requires AllSpace(a) && AllSpace(b)
    ensures AllSpace(a + b)
    decreases |a|
  {
    if a == [] {
      assert a + b == b;
    } else {
      SpaceInFront(a, b);
      var n := SpaceLen(a);
      assert (a + b)[n..] == a[n..] + b;
      SpaceBehind(a[n..], b);
    }
  }

  /**
   * Exactly: a value announces the length `n` if and only if it is a number of
   * that value, within 64 bits, with white space and nothing else around it.
   */
  lemma AnnouncesExactly(v: seq<byte>, n: nat)
    ensures LengthOf(v) == Length(n)
       <==> exists before, s, after :: Spaced(v, before, s, after) && ValueOf(s) == n <= USIZE_MAX
  {
    hide AllSpace, ValueOf, IsNumber, LengthOf;
    forall before, s, after | Spaced(v, before, s, after)
      ensures LengthOf(v) == if ValueOf(s) <= USIZE_MAX then Length(ValueOf(s)) else BadLength(NotANumber)
    {
      SpacedNumber(before, s, after);
    }
    if LengthOf(v) == Length(n) {
      var before, s, after := SplitNumber(v, n);
      assert Spaced(v, before, s, after);
    }
  }

  /** The value is the number `s` with white space around it. */
  predicate Spaced(v: seq<byte>, before: seq<byte>, s: seq<byte>, after: seq<byte>) {
    AllSpace(before) && IsNumber(s) && AllSpace(after) && v == before + s + after
  }

  lemma SplitNumber(v: seq<byte>, n: nat) returns (before: seq<byte>, s: seq<byte>, after: seq<byte>)
    requires LengthOf(v) == Length(n)
    ensures Spaced(v, before, s, after) && ValueOf(s) == n <= USIZE_MAX
  {
    hide AllSpace, ValueOf, IsNumber, ParseUsize, ValidUtf8, TrimStart, TrimEnd;
    before := TrimStartSplits(v);
    after := TrimEndSplits(TrimStart(v));
    s := Trim(v);
    assert v == before + (s + after);
    NumberParsed(s, n);
  }

  lemma NumberParsed(s: seq<byte>, n: nat)
    requires s != [] && ParseUsize(s) == Some(n)
    ensures IsNumber(s) && ValueOf(s) == n && n <= USIZE_MAX
  {
    hide DigitsValue;
  }
}
