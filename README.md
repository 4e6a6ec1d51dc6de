# Size and Duration scalar hooks of influxdata/config

The package decodes and encodes TOML configuration files through an external
TOML library. Its own logic is two custom scalar types, each with a hook the
library calls for a field of that type:

- `Size` (size.go) reads `<base-10 int64><suffix>`, where the suffix `m` scales
  by 2^20 and `g` by 2^30. It checks the product against the platform `int`
  maximum `maxInt` and only then stores it.
- `Duration` (duration.go) reads a Go-quoted string such as `"1m0s"` and parses
  it with `time.ParseDuration`. It writes itself back as the quoted canonical
  text and treats an empty value as absent.

config.go:18-76 is a token-for-token copy of both hooks and of `maxInt`. The
single model below stands for both places. config.go:20-22, 24-42 and 44-46
match duration.go:11-13, 16-34 and 37-39. config.go:48 and 50-76 match
size.go:8 and 13-41.

Modules:

- `Wrappers` (wrappers.dfy) holds `Option`, `Result` and `Outcome`. `Outcome`
  stands for Go's bare `error` return.
- `GoTypes` (gotypes.dfy) holds the subset types `byte` and `int64`, and `Bytes`
  for `seq<byte>`.
- `Strconv` (strconv.dfy) models `strconv.ParseInt(s, 10, 64)` as Go's standard
  library writes it.
  - The digits are read left to right.
  - A byte that is not a digit is a syntax error.
  - A value past 2^64-1 is a range error. This error is reported even when a bad
    byte comes later, because the loop checks overflow before it reaches that
    byte.
  - One leading `+` or `-` is taken off first, and then the sign bound 2^63 is
    checked.
  - The module also holds `FormatInt`, the plain decimal text the encoder writes
    for an integer.
  - Both are proved against a separate reference grammar and value:
    `IsInteger` and `SignedValue`.
- `Sizes` (size.dfy) holds `ParseSize`, the computation of
  `(*Size).UnmarshalTOML`.
  - The int width is a parameter, `bits` (32 or 64).
  - `size *= 1 << 20` is int64 arithmetic. It wraps, and `TwosComplement(_, 64)`
    models that wrap.
  - The final `Size(size)` conversion is `TwosComplement(_, bits)`.
  - The class `SizeVar` is the variable the hook writes through its pointer
    receiver. `SizeVar.UnmarshalTOML` follows the Go statements one by one and
    is proved to agree with `ParseSize`.
- `Durations` (duration.dfy) covers the Duration hooks.
  - The four library calls (`strconv.Quote`, `strconv.Unquote`,
    `time.ParseDuration` and `time.Duration.String`) are fields of a `Library`
    value that each hook takes as a parameter.
  - What the round trip needs of these calls is stated as two hypotheses.
    `QuoteLaws` says three things: Quote always writes both quote marks, so its
    output is never empty; Unquote reads back whatever Quote wrote; and Quote
    puts escape-free text between double quotes unchanged. `DurationLaws` says
    that ParseDuration reads back what String writes.
  - `StandInLawful` proves that some library satisfies both hypotheses, so
    lemmas that assume them do not hold vacuously.
  - The class `DurationVar` is the variable written through `*d`.

What the model shows about the size check:

- On a 64-bit platform the check `size > maxInt` compares an int64 with the
  int64 maximum, so it can never fail (`ParseSize`, last ensures).
- An oversized `g` value therefore wraps modulo 2^64 and is accepted whatever
  it wraps to: `9000000000g` becomes negative (`ParseSizeWrapsOn64`), and
  `17179869185g` becomes +1 GiB (`ParseSizeWrapsPositiveOn64`).
- On a 32-bit platform the check has no lower bound, so `"-3g"` narrows to
  +1 GiB (`ParseSizeNegativeWrapsOn32`).
- Size has no marshal hook. A decoded size is written back as plain digits, and
  those digits never parse as a Size again (`ReencodedSizeRejected`).

## Model

| member | source | states |
|---|---|---|
| `Strconv.ParseInt64` | size.go:20 | a failure carries the text that was parsed; empty text is a syntax error |
| `Strconv.ParseUint64` | size.go:20 | the digit loop that ParseInt runs after the sign: a success is at most 2^64-1, and empty text is a syntax error |
| `Sizes.MaxInt` | size.go:8 | the largest platform int: 2^31-1 on 32 bits, 2^63-1 on 64 bits |
| `Strconv.ParseInt64Correct` | size.go:20 | ParseInt succeeds exactly on an optional sign followed by one or more digits whose value is an int64, and returns that value; a well-formed integer outside int64 is a range error; any other text is an error |
| `Sizes.TwosComplement` | size.go:28-39 | the result is the unique value of the given width congruent to the input modulo 2^width, and it equals the input when the input already fits (int64 wrap-around of `size *=` and the `Size(size)` conversion) |
| `Sizes.ParseSize` | size.go:17-41 | a success fits the platform `int`; a number error wins whatever the suffix; a parsed number with a suffix other than `m`/`g` is the unknown-suffix error; a parsed number with suffix `m`/`g` whose int64-wrapped product exceeds `maxInt` is the range error carrying that product, and the range error comes from nothing else; on 64 bits the range error never happens |
| `Sizes.ParseSizeMatchesReference` | size.go:19-39 | success exactly when the prefix is a signed decimal int64, the suffix is `m` or `g` and the int64-wrapped product is at most `maxInt`; the stored value is that wrapped product narrowed to `int` |
| `Sizes.ParseSizeOfDecimal` | size.go:26-39 | the decimal text of an int64 with a suffix yields exactly number * 2^20 or 2^30 when that fits `int`, and the range error when it fits int64 but not `int` |
| `Sizes.ParseSize200m` | config_test.go:86-93 | `"200m"` parses to 209715200 on either width |
| `Sizes.ParseSize1g` | config_test.go:95-103 | `"1g"` parses to 1073741824 on either width |
| `Sizes.ParseSize10x` | size.go:26-32 | `"10x"` is the unknown-suffix error for `x` |
| `Sizes.ParseSizeAbcX` | size.go:19-23 | `"abcX"` is ParseInt's syntax error on `abc`: the number is parsed before the suffix is examined |
| `Sizes.ParseSizeWrapsOn64` | size.go:28-39 | on 64 bits, 9000000000 with suffix `g` wraps to -8783067657709551616 and is accepted |
| `Sizes.ParseSizeWrapsPositiveOn64` | size.go:28-39 | on 64 bits, 17179869185 with suffix `g` (2^64 + 2^30) wraps to 1073741824 and is accepted |
| `Sizes.ParseSize2gOn32` | size.go:35-36 | on 32 bits `"2g"` (2^31) is the range error |
| `Sizes.ParseSizeNegativeWrapsOn32` | size.go:35-39 | on 32 bits `"-3g"` passes the range check and is stored as 1073741824 |
| `Sizes.ReencodedSizeRejected` | size.go:13-33 | the plain decimal text of any int64, as written back for a Size, fails to parse as a Size |
| `Sizes.SizeVar.constructor` | size.go:13 | a new Size is zero and within the platform `int` range |
| `Sizes.SizeVar.UnmarshalTOML` | size.go:17-41 | on success returns nil and stores ParseSize's value; on every error returns that error and leaves the stored value unchanged; the value stays within `int` |
| `Sizes.UnmarshalThenReject` | size.go:26-39 | `"200m"` returns nil and stores 209715200 (the test at config_test.go:86-93); a following `"10x"` returns the unknown-suffix error and the variable keeps 209715200 |
| `Durations.String` | duration.go:11-13 | under `DurationLaws`, the text of `d` reads back through ParseDuration as `d` |
| `Durations.MarshalTOML` | duration.go:37-39 | never fails; for escape-free canonical text, yields that text between double quotes |
| `Durations.DecodeLiteral` | duration.go:16-34 | no change and no error exactly for empty input; an Unquote failure is returned as is; a ParseDuration failure is returned as is; a duration is stored exactly when Unquote and ParseDuration both succeed, and it is ParseDuration's result |
| `Durations.MarshalThenUnmarshal` | duration.go:16-39 | given the quote and duration laws, unmarshalling MarshalTOML's output stores the marshalled duration, for every int64 duration |
| `Durations.MarshalOneSecond` | duration_test.go:9-19 | one second whose text is `1s` marshals to `"1s"` |
| `Durations.MarshalOneMinute` | config_test.go:105-116 | one minute whose text is `1m0s` marshals to `"1m0s"` |
| `Durations.UnmarshalOneSecond` | duration_test.go:21-33 | `"1s"` unmarshals to one second when ParseDuration reads `1s` as one second |
| `Durations.DurationVar.constructor` | duration.go:9 | a new Duration is zero |
| `Durations.DurationVar.UnmarshalTOML` | duration.go:16-34 | empty input returns nil and changes nothing; an Unquote or ParseDuration failure is returned and changes nothing; otherwise stores ParseDuration's value and returns nil |
| `Durations.RoundTripThroughVariable` | duration.go:16-39 | a fresh variable unmarshalled from MarshalTOML's output holds the marshalled duration and reports no error |

## Left out

- Empty Size input: the hook slices `data[:len-1]` with no guard and panics. `ParseSize` and `SizeVar.UnmarshalTOML` require non-empty input instead of modelling the panic.
- `strconv.Quote`, `strconv.Unquote`, `time.ParseDuration` and `time.Duration.String` are not modelled. Their code is not part of this model, and ParseDuration uses float64 for fractions. The hooks take them as a parameter, and only `QuoteLaws` and `DurationLaws` constrain them.
- `EscapeFree` admits printable ASCII only. Go's Quote also leaves printable non-ASCII text alone, such as the `µ` that durations of magnitude 1µs to 1ms print. So `MarshalTOML`'s exact output shape (the text between double quotes) is stated only for ASCII canonical text. The round trip does not depend on it.
- `ParseInt64` reports the kind of a failure and the input, but not the `Func` field or the message text of `*strconv.NumError`. `SizeError` records the suffix byte or the rejected size, but not the `fmt.Errorf` message text.
- The HTTP handler (config.go:88-109) is left out because it does file and network I/O. Its POST branch opens the file without truncating it.
- `NewConfig` (config.go:137-143) is left out because it is an `os.Stat` existence check.
- `(*Config).Decode` (config.go:111-114), `Decode`, `DecodeFile`, `ParseFile`, `NewEncoder` and `UnmarshalTable` (config.go:145-187, legacy.go) are left out: each passes its work straight to a TOML library, and that library's code is not part of this model.
- `Config.Encode` and `EncodeDefault` (config.go:117-133) are left out for the same reason. The library also produces the `doc`-tag comments and the field order.
- doc.go is left out because it holds only the package comment.
