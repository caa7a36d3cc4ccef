# Logger middleware configuration defaults

A model of how the request-logging middleware resolves its configuration
(`middleware/logger/config.go`). A caller passes zero or one partially filled
`Config`; `configDefault` returns a resolved `Config` in which every field the
caller left unset (nil, empty string, non-positive interval) has its documented
default, every field the caller set is kept, and colour output is switched on
when colours are not disabled and lines go to standard output.

Modules:

- `Wrappers` (`wrappers.dfy`): `Option`, where `None` is Go's `nil`.
- `LoggerConfig` (`logger_config.dfy`): the `Config` record, the defaults
  `CONFIG_DEFAULT` and `DEFAULT_FORMAT`, the template marker constants,
  `Resolve` (the body of `configDefault` once an argument is given, with the
  intended interval test; see Findings),
  `ApplyDefaults` (`configDefault` itself, its variadic argument as a sequence)
  and the lemmas about them.
- `IntervalGuard` (`interval_guard.dfy`): the interval test exactly as written,
  `int(cfg.TimeInterval) <= 0`, with Go's platform-dependent `int` conversion,
  and how it differs from the intended test on 32-bit targets (see Findings).

Representation choices:

- Function-valued fields (`Next`, `Skip`, `Done`, `BeforeHandlerFunc`,
  `LoggerFunc`) are `Option<FuncRef>`. `FuncRef` is an identity token with the
  two built-in defaults, `beforeHandlerFunc` and `defaultLoggerInstance`, named.
- `Stream` is `Option<Stream>`, where `Stream` is a writer identity with a
  distinguished `Stdout`. This is enough for the comparison with the default
  stream at `config.go:166`.
- `CustomTags` is `Option<map<string, FuncRef>>` and `timeZoneLocation` is
  `Option<Location>`. Both pass through unchanged.
- `TimeInterval` is a `Duration`: an integer count of nanoseconds restricted to
  the signed 64-bit range of Go's `time.Duration`.
- `ConfigDefault` is the constant `CONFIG_DEFAULT`. `ZERO_CONFIG` is Go's zero
  value `Config{}`.

Two points of the code worth stating plainly:

- An empty `Format` is replaced by the default format (`config.go:141-143`);
  it never means no output.
- `enableColors` is only ever switched on; a stream other than stdout leaves
  the caller's value unchanged (`config.go:165-168`).
- The comment at `config.go:165` mentions a custom format, but the test only
  looks at `DisableColors` and the stream.

## Model

| member | source | states |
|---|---|---|
| `LoggerConfig.Resolve` | middleware/logger/config.go:128-170 | Each set field (stream, before-handler, logger, format, time format, time zone, positive interval) is kept. Each unset one gets its default: stdout, `beforeHandlerFunc`, `defaultLoggerInstance`, the default format, `"15:04:05"`, `"Local"` or 500 ms. `Next`, `Skip` and `Done` are always the caller's, since their defaults are nil. `CustomTags`, `timeZoneLocation`, `DisableColors` and `enableLatency` are copied. `enableColors` is on iff it was on or colours are not disabled and the resolved stream is stdout. The result is resolved. |
| `LoggerConfig.ApplyDefaults` | middleware/logger/config.go:122-171 | No argument gives exactly `ConfigDefault`. Otherwise the result is the first argument resolved and later arguments are ignored. The result is always resolved. |
| `LoggerConfig.NoConfigGivesDefault` | middleware/logger/config.go:104-126 | With no argument the result is `ConfigDefault`, with colours on, the default format and a 500 ms interval. |
| `LoggerConfig.ZeroConfigGivesDefault` | middleware/logger/config.go:104-170 | Passing the zero value `Config{}` gives the same result as passing nothing. |
| `LoggerConfig.ExtraArgumentsIgnored` | middleware/logger/config.go:124-129 | Only the first variadic argument matters. |
| `LoggerConfig.FormatKeptIffNonEmpty` | middleware/logger/config.go:141-143 | The format is kept exactly when it is non-empty. An empty format becomes the default format, never empty. |
| `LoggerConfig.IntervalKeptIffPositive` | middleware/logger/config.go:150-152 | The interval is kept exactly when it is positive. Otherwise it becomes 500 ms. |
| `LoggerConfig.ColorsNeverForcedOff` | middleware/logger/config.go:165-168 | Colours that were on stay on. They come on when not disabled and the stream is nil or stdout. With colours disabled the flag is left as given. |
| `LoggerConfig.FixedPointIffResolved` | middleware/logger/config.go:129-170 | `Resolve` leaves a configuration unchanged iff it is already resolved. |
| `LoggerConfig.ResolveIdempotent` | middleware/logger/config.go:129-170 | Resolving twice is the same as resolving once. |
| `LoggerConfig.ApplyDefaultsIdempotent` | middleware/logger/config.go:122-170 | Feeding the result of `configDefault` back into it changes nothing. |
| `LoggerConfig.ResolvedIffResult` | middleware/logger/config.go:122-170 | A configuration is resolved iff some call of `configDefault` returns it, so `IsResolved` describes exactly the possible results. |
| `IntervalGuard.ToInt` | middleware/logger/config.go:150 | Go's `int(d)` is in the platform `int` range and congruent to `d` modulo the word size. It equals `d` whenever `d` fits. |
| `IntervalGuard.ResolveAsWritten` | middleware/logger/config.go:150-152 | As written, the interval is reset to 500 ms iff `int(TimeInterval) <= 0` and is kept otherwise. Every other field is as in `Resolve`. |
| `IntervalGuard.AsWrittenAgreesOn64Bit` | middleware/logger/config.go:150-152 | On a 64-bit target the code as written equals `Resolve` for every input. |
| `IntervalGuard.ThreeSecondsResetOn32Bit` | middleware/logger/config.go:150-152 | On a 32-bit target a positive 3 s interval is reset to 500 ms by the code as written, while `Resolve` keeps it. |
| `IntervalGuard.NegativeIntervalKeptOn32Bit` | middleware/logger/config.go:150-152 | On a 32-bit target the negative interval -4294967295 ns reads as 1 and is kept by the code as written, so its result is not resolved; `Resolve` replaces it by 500 ms. |

## Findings

| source | as written | input that shows it | evidently intended | confidence | as-written member | corrected member |
|---|---|---|---|---|---|---|
| middleware/logger/config.go:150 | `int(cfg.TimeInterval) <= 0` converts the 64-bit duration to the platform `int`, which keeps only the low 32 bits on 32-bit targets | `TimeInterval: 3 * time.Second` on a 32-bit target: `int(3000000000)` is `-1294967296`, so the interval is replaced by 500 ms; and `TimeInterval: -4294967295` reads as `1`, so a negative interval is kept | `cfg.TimeInterval <= 0`: only zero or negative intervals take the default | not executed; the conversion rule is Go's, and the effect is limited to 32-bit targets | `IntervalGuard.ResolveAsWritten`, `IntervalGuard.ThreeSecondsResetOn32Bit`, `IntervalGuard.NegativeIntervalKeptOn32Bit` | `LoggerConfig.Resolve`, `LoggerConfig.IntervalKeptIffPositive` |

## Left out

- Writing to the stream (`io.Writer`, `os.Stdout`) is I/O. A stream is only an identity, compared with stdout.
- What callbacks do (`Next`, `Skip`, `Done`, `BeforeHandlerFunc`, `LoggerFunc`, custom `LogFunc` tags) is foreign code. Only whether each one is present is modelled.
- The `Buffer` interface and the `LogFunc` type (`config.go:88-101`) have no implementation in this file. They wrap an external byte buffer and are not modelled.
- Turning `TimeZone` into `timeZoneLocation` and formatting timestamps need Go's `time` library. Neither happens in `configDefault`, which only copies `timeZoneLocation`.
- The `${tag:param}` template parser, the line renderer, the tag registry and the background time-refresh task are not part of this model. Only their marker constants (`START_TAG`, `END_TAG`, `PARAM_SEPARATOR`) are declared.
- `ConfigDefault` is a package-level variable in Go, so other code could reassign it. The model treats it as the constant `CONFIG_DEFAULT`.
- A nil `CustomTags` map and an empty one are kept apart, as `None` and `Some(map[])`. Nothing here treats them differently.
