/**
 * Go's `byte` and `int64` as Dafny subset types, `Bytes` for a Go `[]byte`,
 * and the ASCII bytes the hooks look at.
 */
module GoTypes {

  type byte = b: int | 0 <= b < 0x100

  /** A Go `[]byte`, or the bytes of a Go `string`. */
  type Bytes = seq<byte>

  const MIN_INT64: int := -0x8000_0000_0000_0000
  const MAX_INT64: int := 0x7FFF_FFFF_FFFF_FFFF

  predicate InInt64(x: int) { MIN_INT64 <= x <= MAX_INT64 }

  type int64 = x: int | InInt64(x)

  const DQUOTE: byte := 0x22     // '"'
  const PLUS: byte := 0x2B       // '+'
  const MINUS: byte := 0x2D      // '-'
  const ZERO: byte := 0x30       // '0'
  const NINE: byte := 0x39       // '9'
  const BACKSLASH: byte := 0x5C  // '\\'

  /** The bytes of an ASCII (or Latin-1) string literal, for writing inputs legibly. */
  function FromString(s: string): (r: Bytes)
    requires forall i | 0 <= i < |s| :: s[i] as int < 0x100
    ensures |r| == |s|
    ensures forall i | 0 <= i < |s| :: r[i] == s[i] as int
  {
    seq(|s|, i requires 0 <= i < |s| => s[i] as int)
  }
}
