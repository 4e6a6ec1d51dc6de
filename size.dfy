/**
 * The `Size` scalar: a byte count written as a base-10 int64 followed by one
 * suffix byte, `m` for mebibytes (2^20) or `g` for gibibytes (2^30).
 *
 * `ParseSize` is the computation of `(*Size).UnmarshalTOML` with Go's fixed-width
 * arithmetic written out: the product is int64 arithmetic and wraps, the range
 * check compares that wrapped value with the platform `int` maximum, and the
 * final `Size(size)` conversion keeps the low `bits` bits. `SizeVar` is the
 * destination the hook writes through its pointer receiver.
 */
module Sizes {
  import opened Wrappers
  import opened GoTypes
  import Strconv

  const MIB: int := 0x10_0000      // 1 << 20
  const GIB: int := 0x4000_0000    // 1 << 30
  const SUFFIX_G: byte := 0x67     // 'g'
  const SUFFIX_M: byte := 0x6D     // 'm'

  /** The widths Go's `int` has on the platforms it supports. */
  predicate IsPlatformWidth(bits: nat) { bits == 32 || bits == 64 }

  function Modulus(bits: nat): int
    requires IsPlatformWidth(bits)
  {
    if bits == 32 then 0x1_0000_0000 else 0x1_0000_0000_0000_0000
  }

  /** `maxInt = int64(^uint(0) >> 1)`: the largest `int` of the platform. */
  function MaxInt(bits: nat): (r: int)
    requires IsPlatformWidth(bits)
    ensures r == if bits == 32 then 0x7FFF_FFFF else MAX_INT64
  {
    Modulus(bits) / 2 - 1
  }

  function MinInt(bits: nat): int
    requires IsPlatformWidth(bits)
  {
    -Modulus(bits) / 2
  }

  /**
   * Two's-complement truncation to `bits` bits: the one value of that width
   * congruent to `x` modulo 2^bits. With `bits == 64` this is the wrap-around of
   * Go's int64 arithmetic; with the platform width it is the `Size(size)` conversion.
   */
  function TwosComplement(x: int, bits: nat): (r: int)
    requires IsPlatformWidth(bits)
    ensures MinInt(bits) <= r <= MaxInt(bits)
    ensures (r - x) % Modulus(bits) == 0
    ensures MinInt(bits) <= x <= MaxInt(bits) ==> r == x
  {
    var m := Modulus(bits);
    var r := (x + m / 2) % m - m / 2;
    assert x + m / 2 == m * ((x + m / 2) / m) + (x + m / 2) % m;
    assert r - x == -m * ((x + m / 2) / m);
    r
  }

  predicate IsSuffix(b: byte) { b == SUFFIX_M || b == SUFFIX_G }

  /** The factor a suffix stands for. */
  function Scale(suffix: byte): int
    requires IsSuffix(suffix)
  {
    if suffix == SUFFIX_M then MIB else GIB
  }

  /** Why the size hook returns a non-nil error. */
  datatype SizeError =
    | NumberError(cause: Strconv.NumError)  // the `strconv.ParseInt` error, returned as is
    | UnknownSuffix(suffix: byte)           // "unknown size suffix: %c"
    | NotRepresentable(size: int)           // "size %d cannot be represented by an int"

  /** Everything before the suffix byte. */
  function Prefix(data: Bytes): Bytes
    requires |data| > 0
  {
    data[..|data| - 1]
  }

  function Suffix(data: Bytes): byte
    requires |data| > 0
  {
    data[|data| - 1]
  }

  /**
   * What `(*Size).UnmarshalTOML` computes on a platform whose `int` has `bits`
   * bits. Empty input is excluded: the hook slices `data[:len-1]` unguarded and
   * panics on it.
   */
  function ParseSize(data: Bytes, bits: nat): (r: Result<int, SizeError>)
    requires |data| > 0
    requires IsPlatformWidth(bits)
    // a success is a value of the platform `int`
    ensures r.Ok? ==> MinInt(bits) <= r.value <= MaxInt(bits)
    // the number is parsed first: its error wins whatever the suffix
    ensures Strconv.ParseInt64(Prefix(data)).Err? ==>
              r == Err(NumberError(Strconv.ParseInt64(Prefix(data)).error))
    // a parsed number with any suffix byte other than `m` or `g`
    ensures Strconv.ParseInt64(Prefix(data)).Ok? && !IsSuffix(Suffix(data)) ==>
              r == Err(UnknownSuffix(Suffix(data)))
    // a wrapped product above the platform maximum is the range error carrying that product
    ensures Strconv.ParseInt64(Prefix(data)).Ok? && IsSuffix(Suffix(data)) &&
            TwosComplement(Strconv.ParseInt64(Prefix(data)).value * Scale(Suffix(data)), 64) > MaxInt(bits) ==>
              r == Err(NotRepresentable(TwosComplement(Strconv.ParseInt64(Prefix(data)).value * Scale(Suffix(data)), 64)))
    // the range check rejects only wrapped products above the platform maximum
    ensures r.Err? && r.error.NotRepresentable? ==> MaxInt(bits) < r.error.size <= MAX_INT64
    // on a 64-bit platform the range check can never fail
    ensures bits == 64 ==> !(r.Err? && r.error.NotRepresentable?)
  {
    match Strconv.ParseInt64(Prefix(data))
    case Err(e) => Err(NumberError(e))
    case Ok(n) =>
      var suffix := Suffix(data);
      if !IsSuffix(suffix) then Err(UnknownSuffix(suffix))
      else
        var size := TwosComplement(n * Scale(suffix), 64);
        if size > MaxInt(bits) then Err(NotRepresentable(size))
        else Ok(TwosComplement(size, bits))
  }

  // ---------------------------------------------------------------------------
  // Properties of ParseSize
  // ---------------------------------------------------------------------------

  /**
   * ParseSize against the reference grammar of an integer: success exactly when
   * the prefix is a signed decimal int64, the suffix is `m` or `g` and the wrapped
   * product passes the range check; the value stored is that product wrapped to
   * 64 bits and then narrowed to the platform width.
   */
  lemma ParseSizeMatchesReference(data: Bytes, bits: nat)
    requires |data| > 0 && IsPlatformWidth(bits)
    ensures ParseSize(data, bits).Ok? <==>
              Strconv.IsInteger(Prefix(data)) && InInt64(Strconv.SignedValue(Prefix(data))) &&
              IsSuffix(Suffix(data)) &&
              TwosComplement(Strconv.SignedValue(Prefix(data)) * Scale(Suffix(data)), 64) <= MaxInt(bits)
    ensures ParseSize(data, bits).Ok? ==>
              ParseSize(data, bits).value ==
                TwosComplement(TwosComplement(Strconv.SignedValue(Prefix(data)) * Scale(Suffix(data)), 64), bits)
  {
    Strconv.ParseInt64Correct(Prefix(data));
  }

  /**
   * When the scaled number fits the platform `int`, the decimal text of the
   * number with a suffix parses to exactly the scaled number; when it fits
   * int64 but not `int`, it is the range error.
   */
  lemma ParseSizeOfDecimal(n: int, suffix: byte, bits: nat)
    requires InInt64(n) && IsSuffix(suffix) && IsPlatformWidth(bits)
    ensures MinInt(bits) <= n * Scale(suffix) <= MaxInt(bits) ==>
              ParseSize(Strconv.FormatInt(n) + [suffix], bits) == Ok(n * Scale(suffix))
    ensures MaxInt(bits) < n * Scale(suffix) <= MAX_INT64 ==>
              ParseSize(Strconv.FormatInt(n) + [suffix], bits) == Err(NotRepresentable(n * Scale(suffix)))
  {
    var data := Strconv.FormatInt(n) + [suffix];
    assert Prefix(data) == Strconv.FormatInt(n);
    Strconv.FormatIntRoundTrip(n);
  }

  /** `"200m"` is 200 * 2^20 bytes on either platform (config_test.go). */
  lemma ParseSize200m(bits: nat)
    requires IsPlatformWidth(bits)
    ensures ParseSize(FromString("200m"), bits) == Ok(209_715_200)
  {
    assert FromString("200m") == Strconv.FormatInt(200) + [SUFFIX_M];
    ParseSizeOfDecimal(200, SUFFIX_M, bits);
  }

  /** `"1g"` is 2^30 bytes on either platform (config_test.go). */
  lemma ParseSize1g(bits: nat)
    requires IsPlatformWidth(bits)
    ensures ParseSize(FromString("1g"), bits) == Ok(1_073_741_824)
  {
    assert FromString("1g") == Strconv.FormatInt(1) + [SUFFIX_G];
    ParseSizeOfDecimal(1, SUFFIX_G, bits);
  }

  /** `"10x"`: the number parses, so the suffix is what is reported. */
  lemma ParseSize10x(bits: nat)
    requires IsPlatformWidth(bits)
    ensures ParseSize(FromString("10x"), bits) == Err(UnknownSuffix(0x78))
  {
    assert Prefix(FromString("10x")) == Strconv.FormatInt(10);
    Strconv.FormatIntRoundTrip(10);
  }

  /** `"abcX"`: the prefix is not a number, so its syntax error is reported, not the suffix. */
  lemma ParseSizeAbcX(bits: nat)
    requires IsPlatformWidth(bits)
    ensures ParseSize(FromString("abcX"), bits)
            == Err(NumberError(Strconv.NumError(FromString("abc"), Strconv.ErrSyntax)))
  {
    assert Prefix(FromString("abcX")) == FromString("abc");
  }

  /**
   * On a 64-bit platform an oversized `g` value is not rejected: `"9000000000g"`
   * holds 9000000000 * 2^30, which exceeds the int64 maximum, wraps to a
   * negative number, and that number passes the range check.
   */
  lemma ParseSizeWrapsOn64()
    ensures ParseSize(Strconv.FormatInt(9_000_000_000) + [SUFFIX_G], 64) == Ok(-8_783_067_657_709_551_616)
  {
    assert Prefix(Strconv.FormatInt(9_000_000_000) + [SUFFIX_G]) == Strconv.FormatInt(9_000_000_000);
    Strconv.FormatIntRoundTrip(9_000_000_000);
  }

  /**
   * The wrapped value need not be negative: `"17179869185g"` holds
   * (2^34 + 1) * 2^30 = 2^64 + 2^30, which wraps to plus one gibibyte and is
   * stored as if `"1g"` had been written.
   */
  lemma ParseSizeWrapsPositiveOn64()
    ensures ParseSize(Strconv.FormatInt(17_179_869_185) + [SUFFIX_G], 64) == Ok(1_073_741_824)
  {
    assert Prefix(Strconv.FormatInt(17_179_869_185) + [SUFFIX_G]) == Strconv.FormatInt(17_179_869_185);
    Strconv.FormatIntRoundTrip(17_179_869_185);
  }

  /**
   * On a 32-bit platform the range check does reject what exceeds `int`:
   * `"2g"` is 2^31, one more than the 32-bit maximum.
   */
  lemma ParseSize2gOn32()
    ensures ParseSize(FromString("2g"), 32) == Err(NotRepresentable(2_147_483_648))
  {
    assert FromString("2g") == Strconv.FormatInt(2) + [SUFFIX_G];
    ParseSizeOfDecimal(2, SUFFIX_G, 32);
  }

  /**
   * On a 32-bit platform the range check has no lower bound and the final
   * conversion keeps the low 32 bits: `"-3g"` is stored as plus one gibibyte.
   */
  lemma ParseSizeNegativeWrapsOn32()
    ensures ParseSize(FromString("-3g"), 32) == Ok(1_073_741_824)
  {
    assert Prefix(FromString("-3g")) == Strconv.FormatInt(-3);
    Strconv.FormatIntRoundTrip(-3);
  }

  /**
   * Size has no marshal hook, so a decoded size is written back as plain
   * decimal digits, and that text never parses as a Size again: its last byte
   * is a digit, not a suffix.
   */
  lemma ReencodedSizeRejected(v: int, bits: nat)
    requires InInt64(v) && IsPlatformWidth(bits)
    ensures ParseSize(Strconv.FormatInt(v), bits).Err?
  {
    var text := Strconv.FormatInt(v);
    var digits := Strconv.Unsigned(text);
    assert Suffix(text) == digits[|digits| - 1];
    assert Strconv.IsDigit(Suffix(text));
  }

  // ---------------------------------------------------------------------------
  // The destination written through the hook's pointer receiver
  // ---------------------------------------------------------------------------

  /** A `Size` variable on a platform whose `int` has `bits` bits. */
  class SizeVar {
    const bits: nat
    var value: int

    ghost predicate Valid()
      reads this
    {
      IsPlatformWidth(bits) && MinInt(bits) <= value <= MaxInt(bits)
    }

    /** A zero-valued `Size`. */
    constructor (bits: nat)
      requires IsPlatformWidth(bits)
      ensures Valid() && this.bits == bits && value == 0
    {
      this.bits := bits;
      value := 0;
    }

    /**
     * `(*Size).UnmarshalTOML`: parse the number, apply the suffix, check the
     * range, and only then store; every error return leaves the value as it was.
     */
    method UnmarshalTOML(data: Bytes) returns (err: Outcome<SizeError>)
      requires Valid() && |data| > 0
      modifies this
      ensures Valid()
      ensures match ParseSize(data, bits)
              case Ok(v) => err == Pass && value == v
              case Err(e) => err == Fail(e) && value == old(value)
    {
      var length := |data|;
      var parsed := Strconv.ParseInt64(data[..length - 1]);
      if parsed.Err? {
        return Fail(NumberError(parsed.error));
      }
      var size: int := parsed.value;

      var suffix := data[|data| - 1];
      if suffix == SUFFIX_M {
        size := TwosComplement(size * MIB, 64);
      } else if suffix == SUFFIX_G {
        size := TwosComplement(size * GIB, 64);
      } else {
        return Fail(UnknownSuffix(suffix));
      }

      if size > MaxInt(bits) {
        return Fail(NotRepresentable(size));
      }

      value := TwosComplement(size, bits);
      return Pass;
    }
  }

  /**
   * The test sequence on one variable: `"200m"` stores 200 MiB, then `"10x"`
   * fails on its suffix and leaves those 200 MiB in place.
   */
  method UnmarshalThenReject(bits: nat) returns (ok: Outcome<SizeError>, stored: int, kept: int, err: Outcome<SizeError>)
    requires IsPlatformWidth(bits)
    ensures ok == Pass && stored == 209_715_200
    ensures err == Fail(UnknownSuffix(0x78)) && kept == 209_715_200
  {
    var s := new SizeVar(bits);
    ok := s.UnmarshalTOML(FromString("200m"));
    ParseSize200m(bits);
    stored := s.value;
    err := s.UnmarshalTOML(FromString("10x"));
    ParseSize10x(bits);
    kept := s.value;
  }
}
