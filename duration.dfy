/**
 * The `Duration` scalar: a time.Duration (an int64 count of nanoseconds) whose
 * document form is a Go-quoted string such as `"1m0s"`.
 *
 * The hooks only sequence four standard-library calls whose code is not part of
 * this model: `strconv.Quote`, `strconv.Unquote`, `time.ParseDuration` and
 * `time.Duration.String`. They are taken as a `Library` parameter, and what the
 * round trip needs of them is stated as the hypotheses `QuoteLaws` and
 * `DurationLaws`; `StandInLawful` shows that a library meeting both exists.
 */
module Durations {
  import opened Wrappers
  import opened GoTypes
  import Strconv

  const SECOND: int64 := 1_000_000_000
  const MINUTE: int64 := 60_000_000_000

  /** A Go error value, known here only by its message. */
  type ErrorText = Bytes

  /** The standard-library functions the duration hooks call. */
  datatype Library = Library(
    quote: Bytes -> Bytes,                            // strconv.Quote
    unquote: Bytes -> Result<Bytes, ErrorText>,       // strconv.Unquote
    parseDuration: Bytes -> Result<int64, ErrorText>, // time.ParseDuration
    format: int64 -> Bytes)                           // time.Duration.String

  /** Text that `strconv.Quote` copies unchanged: printable ASCII other than `"` and `\`. */
  predicate EscapeFree(s: Bytes)
  {
    forall i | 0 <= i < |s| :: 0x20 <= s[i] < 0x7F && s[i] != DQUOTE && s[i] != BACKSLASH
  }

  function Quoted(s: Bytes): Bytes
  {
    [DQUOTE] + s + [DQUOTE]
  }

  /**
   * Quote always writes both quote marks, so its output is never empty; Unquote
   * reads back whatever Quote wrote; and escape-free text is quoted by wrapping it
   * in double quotes.
   */
  ghost predicate QuoteLaws(lib: Library)
  {
    (forall s: Bytes :: lib.quote(s) != [] && lib.unquote(lib.quote(s)) == Ok(s)) &&
    (forall s: Bytes :: EscapeFree(s) ==> lib.quote(s) == Quoted(s))
  }

  /** ParseDuration reads back what Duration.String writes. */
  ghost predicate DurationLaws(lib: Library)
  {
    forall d: int64 :: lib.parseDuration(lib.format(d)) == Ok(d)
  }

  /** `Duration.String`: the canonical text of `time.Duration(d)`, which reads back as `d`. */
  function String(lib: Library, d: int64): (r: Bytes)
    ensures DurationLaws(lib) ==> lib.parseDuration(r) == Ok(d)
  {
    lib.format(d)
  }

  /**
   * `Duration.MarshalTOML`: never fails, and for a canonical text with nothing
   * to escape yields that text between double quotes.
   */
  function MarshalTOML(lib: Library, d: int64): (r: Result<Bytes, ErrorText>)
    ensures r.Ok?
    ensures QuoteLaws(lib) && EscapeFree(String(lib, d)) ==> r.value == Quoted(String(lib, d))
  {
    Ok(lib.quote(String(lib, d)))
  }

  /**
   * What `(*Duration).UnmarshalTOML` does with `data`: `Ok(None)` leaves the
   * destination alone, `Ok(Some(d))` stores `d`, `Err(e)` returns `e` and stores
   * nothing.
   */
  function DecodeLiteral(lib: Library, data: Bytes): (r: Result<Option<int64>, ErrorText>)
    // an absent value is not an error and sets nothing
    ensures r == Ok(None) <==> data == []
    // a malformed quoted literal is returned as Unquote's error
    ensures data != [] && lib.unquote(data).Err? ==> r == Err(lib.unquote(data).error)
    // a text that ParseDuration rejects is returned as ParseDuration's error
    ensures data != [] && lib.unquote(data).Ok? && lib.parseDuration(lib.unquote(data).value).Err? ==>
              r == Err(lib.parseDuration(lib.unquote(data).value).error)
    // a duration is stored only when both library calls succeed, and it is ParseDuration's
    ensures r.Ok? && r.value.Some? <==>
              data != [] && lib.unquote(data).Ok? && lib.parseDuration(lib.unquote(data).value).Ok?
    ensures r.Ok? && r.value.Some? ==> Ok(r.value.value) == lib.parseDuration(lib.unquote(data).value)
  {
    if data == [] then Ok(None)
    else
      match lib.unquote(data)
      case Err(e) => Err(e)
      case Ok(unquoted) =>
        match lib.parseDuration(unquoted)
        case Err(e) => Err(e)
        case Ok(duration) => Ok(Some(duration))
  }

  // ---------------------------------------------------------------------------
  // Round trip and the literals of the tests
  // ---------------------------------------------------------------------------

  /** Unmarshalling what MarshalTOML wrote stores the duration that was marshalled. */
  lemma MarshalThenUnmarshal(lib: Library, d: int64)
    requires QuoteLaws(lib) && DurationLaws(lib)
    ensures DecodeLiteral(lib, MarshalTOML(lib, d).value) == Ok(Some(d))
  {
    assert lib.unquote(lib.quote(String(lib, d))) == Ok(String(lib, d));
  }

  /** One second marshals to `"1s"` when its canonical text is `1s` (duration_test.go). */
  lemma MarshalOneSecond(lib: Library)
    requires QuoteLaws(lib) && String(lib, SECOND) == FromString("1s")
    ensures MarshalTOML(lib, SECOND) == Ok(FromString("\"1s\""))
  {
    assert FromString("\"1s\"") == Quoted(FromString("1s"));
  }

  /** One minute marshals to `"1m0s"` when its canonical text is `1m0s` (config_test.go). */
  lemma MarshalOneMinute(lib: Library)
    requires QuoteLaws(lib) && String(lib, MINUTE) == FromString("1m0s")
    ensures MarshalTOML(lib, MINUTE) == Ok(FromString("\"1m0s\""))
  {
    assert FromString("\"1m0s\"") == Quoted(FromString("1m0s"));
  }

  /** `"1s"` unmarshals to one second when ParseDuration reads `1s` so (duration_test.go). */
  lemma UnmarshalOneSecond(lib: Library)
    requires QuoteLaws(lib) && lib.parseDuration(FromString("1s")) == Ok(SECOND)
    ensures DecodeLiteral(lib, FromString("\"1s\"")) == Ok(Some(SECOND))
  {
    assert FromString("\"1s\"") == Quoted(FromString("1s"));
    assert EscapeFree(FromString("1s"));
  }

  /**
   * A library meeting both hypotheses: durations written as a decimal count of
   * nanoseconds, unescaped between double quotes. It is no model of Go's
   * library, only evidence that the laws can hold together.
   */
  function StandIn(): Library
  {
    Library(
      s => Quoted(s),
      t => if |t| >= 2 && t[0] == DQUOTE && t[|t| - 1] == DQUOTE then Ok(t[1..|t| - 1]) else Err(t),
      s => match Strconv.ParseInt64(s) case Ok(v) => Ok(v) case Err(_) => Err(s),
      d => Strconv.FormatInt(d))
  }

  lemma StandInLawful()
    ensures QuoteLaws(StandIn()) && DurationLaws(StandIn())
  {
    var lib := StandIn();
    forall s: Bytes
      ensures lib.quote(s) != [] && lib.unquote(lib.quote(s)) == Ok(s)
    {
      assert Quoted(s)[1..|Quoted(s)| - 1] == s;
    }
    forall d: int64
      ensures lib.parseDuration(lib.format(d)) == Ok(d)
    {
      Strconv.FormatIntRoundTrip(d);
    }
  }

  // ---------------------------------------------------------------------------
  // The destination written through the hook's pointer receiver
  // ---------------------------------------------------------------------------

  /** A `Duration` variable. */
  class DurationVar {
    var value: int64

    /** A zero-valued `Duration`. */
    constructor ()
      ensures value == 0
    {
      value := 0;
    }

    /**
     * `(*Duration).UnmarshalTOML`: ignore empty input, unquote, parse, and only
     * then store; each error is returned as the library reported it, with the
     * value left as it was.
     */
    method UnmarshalTOML(lib: Library, data: Bytes) returns (err: Outcome<ErrorText>)
      modifies this
      ensures match DecodeLiteral(lib, data)
              case Ok(None) => err == Pass && value == old(value)
              case Ok(Some(d)) => err == Pass && value == d
              case Err(e) => err == Fail(e) && value == old(value)
    {
      if |data| == 0 {
        return Pass;
      }

      var unquoted := lib.unquote(data);
      if unquoted.Err? {
        return Fail(unquoted.error);
      }

      var duration := lib.parseDuration(unquoted.value);
      if duration.Err? {
        return Fail(duration.error);
      }

      value := duration.value;
      return Pass;
    }
  }

  /**
   * A fresh Duration, unmarshalled from what MarshalTOML wrote for `d`, holds `d`
   * and reports no error.
   */
  method RoundTripThroughVariable(lib: Library, d: int64) returns (got: int64, err: Outcome<ErrorText>)
    requires QuoteLaws(lib) && DurationLaws(lib)
    ensures err == Pass && got == d
  {
    var data := MarshalTOML(lib, d);
    var dst := new DurationVar();
    err := dst.UnmarshalTOML(lib, data.value);
    MarshalThenUnmarshal(lib, d);
    got := dst.value;
  }
}
