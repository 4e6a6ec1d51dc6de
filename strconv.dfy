/**
 * Base-10 integer text as Go's strconv package reads and writes it:
 * `strconv.ParseInt(s, 10, 64)`, which the size hook calls on everything before
 * the suffix, and `strconv.FormatInt(v, 10)`, the plain decimal form a document
 * encoder writes for an integer field.
 */
module Strconv {
  import opened Wrappers
  import opened GoTypes

  const MAX_UINT64: int := 0xFFFF_FFFF_FFFF_FFFF

  /** ParseUint's early overflow bound for base 10: maxUint64/10 + 1. */
  const CUTOFF: int := MAX_UINT64 / 10 + 1

  /** ParseInt's sign bound for bitSize 64: 1 << 63. */
  const SIGN_CUTOFF: int := 0x8000_0000_0000_0000

  datatype NumErrorKind = ErrSyntax | ErrRange

  /** Go's `*strconv.NumError`: the text that failed to parse and why. */
  datatype NumError = NumError(num: Bytes, err: NumErrorKind)

  predicate IsDigit(b: byte) { ZERO <= b <= NINE }

  predicate AllDigits(s: Bytes) { forall i | 0 <= i < |s| :: IsDigit(s[i]) }

  /** Reference meaning of a digit string, read most significant digit first. */
  function DigitsValue(s: Bytes): nat
    requires AllDigits(s)
  {
    if s == [] then 0 else 10 * DigitsValue(s[..|s| - 1]) + (s[|s| - 1] - ZERO)
  }

  /** The text after an optional leading sign. */
  function Unsigned(s: Bytes): Bytes
  {
    if |s| > 0 && (s[0] == PLUS || s[0] == MINUS) then s[1..] else s
  }

  /** Reference grammar of a base-10 integer: an optional sign, then one or more digits. */
  predicate IsInteger(s: Bytes)
  {
    |Unsigned(s)| > 0 && AllDigits(Unsigned(s))
  }

  /** Reference meaning of a base-10 integer, with no bound on its size. */
  function SignedValue(s: Bytes): int
    requires IsInteger(s)
  {
    var magnitude: int := DigitsValue(Unsigned(s));
    if s[0] == MINUS then -magnitude else magnitude
  }

  /**
   * The digit loop of `ParseUint`: each byte is first checked to be a digit,
   * then the accumulator is checked for overflow, so a range error found early
   * wins over a bad byte further on.
   */
  function Accumulate(s: Bytes, n: nat): (r: Result<nat, NumErrorKind>)
    requires n <= MAX_UINT64
    ensures r.Ok? ==> n <= r.value <= MAX_UINT64
  {
    if s == [] then Ok(n)
    else if !IsDigit(s[0]) then Err(ErrSyntax)
    else if n >= CUTOFF then Err(ErrRange)
    else
      var n1 := n * 10 + (s[0] - ZERO);
      if n1 > MAX_UINT64 then Err(ErrRange)
      else Accumulate(s[1..], n1)
  }

  /** `strconv.ParseUint(s, 10, 64)`, reporting only the kind of failure. */
  function ParseUint64(s: Bytes): (r: Result<nat, NumErrorKind>)
    ensures r.Ok? ==> r.value <= MAX_UINT64
    ensures s == [] ==> r == Err(ErrSyntax)
  {
    if s == [] then Err(ErrSyntax) else Accumulate(s, 0)
  }

  /**
   * `strconv.ParseInt(s, 10, 64)`: strip one sign, parse the rest as unsigned,
   * then bound it by 1 << 63. A range error from the unsigned parse leaves the
   * maximum uint64 behind, which the sign check then rejects as a range error.
   */
  function ParseInt64(s: Bytes): (r: Result<int64, NumError>)
    ensures r.Err? ==> r.error.num == s
    ensures s == [] ==> r == Err(NumError(s, ErrSyntax))
  {
    if s == [] then Err(NumError(s, ErrSyntax))
    else
      var neg := s[0] == MINUS;
      var u := ParseUint64(Unsigned(s));
      if u == Err(ErrSyntax) then Err(NumError(s, ErrSyntax))
      else
        var un := if u.Ok? then u.value else MAX_UINT64;
        if !neg && un >= SIGN_CUTOFF then Err(NumError(s, ErrRange))
        else if neg && un > SIGN_CUTOFF then Err(NumError(s, ErrRange))
        else Ok(if neg then -un else un)
  }

  /** Decimal digits of `n`, most significant first, with no leading zero. */
  function FormatUint(n: nat): (r: Bytes)
    ensures |r| > 0 && AllDigits(r) && DigitsValue(r) == n
    ensures r[0] != ZERO || n == 0
  {
    if n < 10 then [ZERO + n]
    else
      var p := FormatUint(n / 10);
      var r := p + [ZERO + n % 10];
      assert r[..|r| - 1] == p;
      r
  }

  /** `strconv.FormatInt(v, 10)`: a minus sign for negative values, then the digits. */
  function FormatInt(v: int): (r: Bytes)
    ensures IsInteger(r) && SignedValue(r) == v
  {
    if v < 0 then
      var r := [MINUS] + FormatUint(-v);
      assert Unsigned(r) == FormatUint(-v);
      r
    else
      var r := FormatUint(v);
      assert Unsigned(r) == r;
      r
  }

  // ---------------------------------------------------------------------------
  // ParseUint64 and ParseInt64 against the reference grammar and meaning
  // ---------------------------------------------------------------------------

  /** A longer prefix of a digit string never has a smaller value. */
  lemma {:induction false} DigitsPrefixMonotone(s: Bytes, k: nat)
    requires AllDigits(s) && k <= |s|
    ensures DigitsValue(s[..k]) <= DigitsValue(s)
  {
    if k < |s| {
      var p := s[..|s| - 1];
      assert p[..k] == s[..k];
      DigitsPrefixMonotone(p, k);
    } else {
      assert s[..k] == s;
    }
  }

  /** Resuming the digit loop after `k` digits yields the whole value, or a range error. */
  lemma {:induction false} AccumulateFrom(s: Bytes, k: nat)
    requires AllDigits(s) && k <= |s|
    requires DigitsValue(s[..k]) <= MAX_UINT64
    ensures Accumulate(s[k..], DigitsValue(s[..k]))
            == if DigitsValue(s) <= MAX_UINT64 then Ok(DigitsValue(s)) else Err(ErrRange)
    decreases |s| - k
  {
    if k == |s| {
      assert s[..k] == s;
    } else {
      var n := DigitsValue(s[..k]);
      assert s[..k + 1][..k] == s[..k];
      assert s[k..][1..] == s[k + 1..];
      var n1 := n * 10 + (s[k] - ZERO);
      assert DigitsValue(s[..k + 1]) == n1;
      if n1 > MAX_UINT64 {
        DigitsPrefixMonotone(s, k + 1);
      } else {
        AccumulateFrom(s, k + 1);
      }
    }
  }

  /** The digit loop fails on any text holding a byte that is not a digit. */
  lemma {:induction false} AccumulateRejects(s: Bytes, n: nat)
    requires n <= MAX_UINT64 && !AllDigits(s)
    ensures Accumulate(s, n).Err?
  {
    if IsDigit(s[0]) && n < CUTOFF && n * 10 + (s[0] - ZERO) <= MAX_UINT64 {
      assert !AllDigits(s[1..]) by {
        var i :| 0 <= i < |s| && !IsDigit(s[i]);
        assert s[1..][i - 1] == s[i];
      }
      AccumulateRejects(s[1..], n * 10 + (s[0] - ZERO));
    }
  }

  /** `ParseUint(s, 10, 64)` accepts exactly the non-empty digit strings whose value fits in 64 bits. */
  lemma ParseUint64Correct(s: Bytes)
    ensures ParseUint64(s).Ok? <==> |s| > 0 && AllDigits(s) && DigitsValue(s) <= MAX_UINT64
    ensures |s| > 0 && AllDigits(s) && DigitsValue(s) <= MAX_UINT64 ==> ParseUint64(s) == Ok(DigitsValue(s))
    ensures |s| > 0 && AllDigits(s) && DigitsValue(s) > MAX_UINT64 ==> ParseUint64(s) == Err(ErrRange)
  {
    if |s| > 0 {
      if AllDigits(s) {
        assert s[..0] == [];
        assert s[0..] == s;
        AccumulateFrom(s, 0);
      } else {
        AccumulateRejects(s, 0);
      }
    }
  }

  /**
   * `ParseInt(s, 10, 64)` succeeds exactly on an optionally signed digit string
   * whose value is an int64, and then returns that value; a well-formed integer
   * out of range is a range error; anything else is an error.
   */
  lemma ParseInt64Correct(s: Bytes)
    ensures ParseInt64(s).Ok? <==> IsInteger(s) && InInt64(SignedValue(s))
    ensures IsInteger(s) && InInt64(SignedValue(s)) ==> ParseInt64(s) == Ok(SignedValue(s))
    ensures IsInteger(s) && !InInt64(SignedValue(s)) ==> ParseInt64(s) == Err(NumError(s, ErrRange))
    ensures !IsInteger(s) ==> ParseInt64(s).Err?
  {
    ParseUint64Correct(Unsigned(s));
  }

  /** Reading back the decimal text of any int64 gives the same number. */
  lemma FormatIntRoundTrip(v: int)
    requires InInt64(v)
    ensures ParseInt64(FormatInt(v)) == Ok(v)
  {
    ParseInt64Correct(FormatInt(v));
  }
}
