/** UTF-8 text, trimming, and the decimal `content-length`. */
module Length {
  import opened Options
  import opened Bytes

  predicate IsContinuation(b: byte) {
    0x80 <= b <= 0xBF
  }

  /** Length of the well-formed UTF-8 character `s` starts with, 0 when there is none. */
  function CharLen(s: seq<byte>): (n: nat)
    ensures n <= |s|
    ensures s != [] && s[0] < 0x80 ==> n == 1
  {
    if |s| >= 1 && s[0] < 0x80 then 1
    else if |s| >= 2 && 0xC2 <= s[0] <= 0xDF && IsContinuation(s[1]) then 2
    else if |s| >= 3 && 0xE0 <= s[0] <= 0xEF && IsContinuation(s[1]) && IsContinuation(s[2])
            && (s[0] == 0xE0 ==> s[1] >= 0xA0) && (s[0] == 0xED ==> s[1] <= 0x9F) then 3
    else if |s| >= 4 && 0xF0 <= s[0] <= 0xF4
            && IsContinuation(s[1]) && IsContinuation(s[2]) && IsContinuation(s[3])
            && (s[0] == 0xF0 ==> s[1] >= 0x90) && (s[0] == 0xF4 ==> s[1] <= 0x8F) then 4
    else 0
  }

  /** The bytes are UTF-8. */
  predicate ValidUtf8(s: seq<byte>)
    decreases |s|
  {
    s == [] || (CharLen(s) > 0 && ValidUtf8(s[CharLen(s)..]))
  }

  predicate IsAscii(s: seq<byte>) {
    forall i | 0 <= i < |s| :: s[i] < 0x80
  }

  lemma {:induction false} AsciiIsUtf8(s: seq<byte>)
    requires IsAscii(s)
    ensures ValidUtf8(s)
  {
    if s != [] {
      AsciiIsUtf8(s[1..]);
    }
  }

  /** Length of the white-space character `s` starts with, 0 when there is none. */
  function SpaceLen(s: seq<byte>): (n: nat)
    ensures n <= |s|
  {
    if |s| >= 1 && (9 <= s[0] <= 13 || s[0] == 32) then 1
    else if |s| >= 2 && s[0] == 0xC2 && (s[1] == 0x85 || s[1] == 0xA0) then 2
    else if |s| >= 3 && IsWideSpace(s[..3]) then 3
    else 0
  }

  /** Length of the white-space character `s` ends with, 0 when there is none. */
  function SpaceLenAtEnd(s: seq<byte>): (n: nat)
    ensures n <= |s|
  {
    if |s| >= 1 && SpaceLen(s[|s| - 1..]) == 1 then 1
    else if |s| >= 2 && SpaceLen(s[|s| - 2..]) == 2 then 2
    else if |s| >= 3 && IsWideSpace(s[|s| - 3..]) then 3
    else 0
  }

  /** U+1680, U+2000 to U+200A, U+2028, U+2029, U+202F, U+205F and U+3000. */
  predicate IsWideSpace(s: seq<byte>)
    requires |s| == 3
  {
    || s == [0xE1, 0x9A, 0x80]
    || (s[0] == 0xE2 && s[1] == 0x80
        && (0x80 <= s[2] <= 0x8A || s[2] == 0xA8 || s[2] == 0xA9 || s[2] == 0xAF))
    || s == [0xE2, 0x81, 0x9F]
    || s == [0xE3, 0x80, 0x80]
  }

  function TrimStart(s: seq<byte>): seq<byte>
    decreases |s|
  {
    if SpaceLen(s) == 0 then s else TrimStart(s[SpaceLen(s)..])
  }

  function TrimEnd(s: seq<byte>): seq<byte>
    decreases |s|
  {
    if SpaceLenAtEnd(s) == 0 then s else TrimEnd(s[..|s| - SpaceLenAtEnd(s)])
  }

  /** `str::trim` */
  function Trim(s: seq<byte>): seq<byte> {
    TrimEnd(TrimStart(s))
  }

  predicate IsDigit(b: byte) {
    48 <= b <= 57
  }

  predicate AllDigits(s: seq<byte>) {
    forall i | 0 <= i < |s| :: IsDigit(s[i])
  }

  function DigitsValue(s: seq<byte>): nat
    requires AllDigits(s)
  {
    if s == [] then 0 else 10 * DigitsValue(s[..|s| - 1]) + (s[|s| - 1] - 48) as int
  }

  datatype LengthError = NotUtf8 | Empty | NotANumber

  datatype LengthResult = Absent | Length(n: nat) | BadLength(error: LengthError)

  /** A 64-bit number in decimal: one optional plus sign, digits, no overflow. */
  function ParseUsize(s: seq<byte>): (r: Option<nat>)
    ensures r.Some? ==> r.value <= USIZE_MAX
  {
    var digits := if |s| > 1 && s[0] == 43 then s[1..] else s;
    if digits == [] || !AllDigits(digits) then None
    else if DigitsValue(digits) > USIZE_MAX then None
    else Some(DigitsValue(digits))
  }

  /** The length one `content-length` value announces. */
  function LengthOf(v: seq<byte>): (r: LengthResult)
    ensures !r.Absent?
    ensures r.Length? ==> r.n <= USIZE_MAX
  {
    if !ValidUtf8(v) then BadLength(NotUtf8)
    else if Trim(v) == [] then BadLength(Empty)
    else
      match ParseUsize(Trim(v))
      case Some(n) => Length(n)
      case None => BadLength(NotANumber)
  }

  /** `usize::to_string` */
  function Decimal(n: nat): (s: seq<byte>)
    ensures s != [] && AllDigits(s)
  {
    if n < 10 then [(48 + n) as byte] else Decimal(n / 10) + [(48 + n % 10) as byte]
  }

  lemma {:induction false} DecimalValue(n: nat)
    ensures DigitsValue(Decimal(n)) == n
  {
    var s := Decimal(n);
    if n < 10 {
      assert DigitsValue(s[..0]) == 0;
    } else {
      DecimalValue(n / 10);
      assert s[..|s| - 1] == Decimal(n / 10);
    }
  }

  lemma DigitsTrimmed(s: seq<byte>)
    requires s != [] && AllDigits(s)
    ensures Trim(s) == s
  {
    assert IsDigit(s[0]);
    NoSpaceBeforeDigit(s);
    assert TrimStart(s) == s;
    NoSpaceAfterDigit(s);
  }

  lemma NoSpaceBeforeDigit(s: seq<byte>)
    requires s != [] && IsDigit(s[0])
    ensures SpaceLen(s) == 0
  {
  }

  lemma NoSpaceAfterDigit(s: seq<byte>)
    requires s != [] && AllDigits(s)
    ensures SpaceLenAtEnd(s) == 0
  {
    hide SpaceLen;
    NoSpaceBeforeDigit(s[|s| - 1..]);
    if |s| >= 2 {
      NoSpaceBeforeDigit(s[|s| - 2..]);
    }
  }

  /** The length the encoder prints is the length the parser reads. */
  lemma LengthOfDecimal(n: nat)
    requires n <= USIZE_MAX
    ensures LengthOf(Decimal(n)) == Length(n)
  {
    var s := Decimal(n);
    AsciiIsUtf8(s);
    DecimalValue(n);
    hide Decimal, DigitsValue, ValidUtf8;
    DigitsTrimmed(s);
  }
}
