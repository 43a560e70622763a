/** Bytes, machine words and the searches the wire code is built from. */
module Bytes {

  newtype byte = b: int | 0 <= b < 256

  /** Rust's `usize` on a 64-bit target. */
  newtype usize = n: int | 0 <= n < 0x1_0000_0000_0000_0000

  const USIZE_MAX: int := 0xFFFF_FFFF_FFFF_FFFF

  /** No slice or `Vec` is longer than `isize::MAX` bytes. */
  const ISIZE_MAX: int := 0x7FFF_FFFF_FFFF_FFFF

  const NUL: byte := 0
  const LF: byte := 10
  const CR: byte := 13
  const COLON: byte := 58
  const BACKSLASH: byte := 92

  /** Where `b` first occurs in `s` at or after `from`, or `|s|` when it does not. */
  function IndexFrom(s: seq<byte>, from: nat, b: byte): (r: nat)
    requires from <= |s|
    ensures from <= r <= |s|
    decreases |s| - from
  {
    if from == |s| || s[from] == b then from else IndexFrom(s, from + 1, b)
  }

  /** `r` is the first index of `b`, or the end when there is none. */
  predicate IsFirst(s: seq<byte>, from: nat, b: byte, r: nat) {
    && from <= r <= |s|
    && (r < |s| ==> s[r] == b)
    && forall i | from <= i < r :: s[i] != b
  }

  /** `IndexFrom` finds the first occurrence, and nothing else is the first. */
  lemma {:induction false} IndexIs(s: seq<byte>, from: nat, b: byte, r: nat)
    requires from <= |s|
    ensures IndexFrom(s, from, b) == r <==> IsFirst(s, from, b, r)
    decreases |s| - from
  {
    if from < |s| && s[from] != b {
      IndexIs(s, from + 1, b, r);
    }
  }

  /** The search of a slice for a byte, on the part of `s` that starts at `from`. */
  method FindByte(s: seq<byte>, from: usize, b: byte) returns (r: usize)
    requires |s| <= ISIZE_MAX && from as int <= |s|
    ensures r as int == IndexFrom(s, from as int, b)
  {
    r := from;
    while r < |s| as usize && s[r] != b
      invariant from <= r <= |s| as usize
      invariant IndexFrom(s, r as int, b) == IndexFrom(s, from as int, b)
    {
      r := r + 1;
    }
  }

  /** `b` does not occur in `s`. */
  predicate Lacks(s: seq<byte>, b: byte) {
    forall i | 0 <= i < |s| :: s[i] != b
  }

  /** A line without its LF, one trailing CR removed. */
  function StripCR(line: seq<byte>): seq<byte> {
    if |line| > 0 && line[|line| - 1] == CR then line[..|line| - 1] else line
  }

  function ToLower(b: byte): byte {
    if 65 <= b <= 90 then b + 32 else b
  }

  /** `eq_ignore_ascii_case` */
  predicate EqIgnoreCase(a: seq<byte>, b: seq<byte>) {
    |a| == |b| && forall i | 0 <= i < |a| :: ToLower(a[i]) == ToLower(b[i])
  }

  /** `content-length` */
  const CONTENT_LENGTH: seq<byte> := [99, 111, 110, 116, 101, 110, 116, 45, 108, 101, 110, 103, 116, 104]
}
