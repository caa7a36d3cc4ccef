/** The configuration of the request-logging middleware and the function that
    resolves a partially filled configuration against its documented
    defaults (middleware/logger/config.go). */
module LoggerConfig {
  import opened Wrappers

  /** Markers of the `${tag}` / `${tag:param}` template syntax. */
  const START_TAG: string := "${"
  const END_TAG: string := "}"
  const PARAM_SEPARATOR: string := ":"

  /** Go's `time.Duration`: a signed 64-bit count of nanoseconds. */
  const MIN_DURATION: int := -0x8000_0000_0000_0000
  const MAX_DURATION: int := 0x7fff_ffff_ffff_ffff
  type Duration = d: int | MIN_DURATION <= d <= MAX_DURATION

  const MILLISECOND: Duration := 1_000_000

  /** Identity of the `io.Writer` a line is written to. Only its identity
      matters here: it is compared against `os.Stdout`. */
  datatype Stream = Stdout | Writer(id: nat)

  /** Identity of a function value (a callback, a logger, a custom tag).
      Its behaviour is not modelled; the two built-in defaults are named. */
  datatype FuncRef = BeforeHandlerFunc | DefaultLoggerInstance | UserFunc(id: nat)

  /** Identity of a resolved `*time.Location`. */
  datatype Location = Location(id: nat)

  /** One `Config` value; `None` is Go's `nil`, `""` the empty string. */
  datatype Config = Config(
    stream: Option<Stream>,
    next: Option<FuncRef>,
    skip: Option<FuncRef>,
    done: Option<FuncRef>,
    customTags: Option<map<string, FuncRef>>,
    beforeHandlerFunc: Option<FuncRef>,
    loggerFunc: Option<FuncRef>,
    timeZoneLocation: Option<Location>,
    format: string,
    timeFormat: string,
    timeZone: string,
    timeInterval: Duration,
    disableColors: bool,
    enableColors: bool,
    enableLatency: bool)

  const DEFAULT_FORMAT: string := "[${time}] ${ip} ${status} - ${latency} ${method} ${path} ${error}\n"
  const DEFAULT_TIME_FORMAT: string := "15:04:05"
  const DEFAULT_TIME_ZONE: string := "Local"
  const DEFAULT_TIME_INTERVAL: Duration := 500 * MILLISECOND

  /** Go's zero value `Config{}`: every field nil, empty, zero or false. */
  const ZERO_CONFIG: Config := Config(
    stream := None,
    next := None,
    skip := None,
    done := None,
    customTags := None,
    beforeHandlerFunc := None,
    loggerFunc := None,
    timeZoneLocation := None,
    format := "",
    timeFormat := "",
    timeZone := "",
    timeInterval := 0,
    disableColors := false,
    enableColors := false,
    enableLatency := false)

  /** `ConfigDefault`: the documented defaults. The fields it does not name
      (`CustomTags`, `timeZoneLocation`, `DisableColors`, `enableLatency`)
      keep Go's zero value. */
  const CONFIG_DEFAULT: Config := Config(
    stream := Some(Stdout),
    next := None,
    skip := None,
    done := None,
    customTags := None,
    beforeHandlerFunc := Some(BeforeHandlerFunc),
    loggerFunc := Some(DefaultLoggerInstance),
    timeZoneLocation := None,
    format := DEFAULT_FORMAT,
    timeFormat := DEFAULT_TIME_FORMAT,
    timeZone := DEFAULT_TIME_ZONE,
    timeInterval := DEFAULT_TIME_INTERVAL,
    disableColors := false,
    enableColors := true,
    enableLatency := false)

  /** Colours are wanted when they are not disabled and lines go to the
      default stream. */
  predicate ColorsWanted(c: Config) {
    !c.disableColors && c.stream == CONFIG_DEFAULT.stream
  }

  /** Every field that has a default is set, and colours are on when
      wanted: the shape of every resolved configuration. */
  predicate IsResolved(c: Config) {
    && c.stream.Some?
    && c.beforeHandlerFunc.Some?
    && c.loggerFunc.Some?
    && c.format != ""
    && c.timeFormat != ""
    && c.timeZone != ""
    && c.timeInterval > 0
    && (ColorsWanted(c) ==> c.enableColors)
  }

  /** A string field left empty takes `default`. */
  function NonEmptyOr(s: string, default: string): (r: string) {
    if s == "" then default else s
  }

  /** A duration that is zero or negative takes `default`. */
  function PositiveOr(d: Duration, default: Duration): (r: Duration) {
    if d <= 0 then default else d
  }

  /** The body of `configDefault` once a configuration is given: a copy in
      which each unset field is filled from `CONFIG_DEFAULT`, with colours
      then switched on when they are not disabled and the stream is the
      default one. */
  function Resolve(cfg: Config): (r: Config)
    // A set field is kept.
    ensures cfg.stream.Some? ==> r.stream == cfg.stream
    ensures cfg.beforeHandlerFunc.Some? ==> r.beforeHandlerFunc == cfg.beforeHandlerFunc
    ensures cfg.loggerFunc.Some? ==> r.loggerFunc == cfg.loggerFunc
    ensures cfg.format != "" ==> r.format == cfg.format
    ensures cfg.timeFormat != "" ==> r.timeFormat == cfg.timeFormat
    ensures cfg.timeZone != "" ==> r.timeZone == cfg.timeZone
    ensures cfg.timeInterval > 0 ==> r.timeInterval == cfg.timeInterval
    // An unset field gets its default.
    ensures cfg.stream.None? ==> r.stream == Some(Stdout)
    ensures cfg.beforeHandlerFunc.None? ==> r.beforeHandlerFunc == Some(BeforeHandlerFunc)
    ensures cfg.loggerFunc.None? ==> r.loggerFunc == Some(DefaultLoggerInstance)
    ensures cfg.format == "" ==> r.format == DEFAULT_FORMAT
    ensures cfg.timeFormat == "" ==> r.timeFormat == DEFAULT_TIME_FORMAT
    ensures cfg.timeZone == "" ==> r.timeZone == DEFAULT_TIME_ZONE
    ensures cfg.timeInterval <= 0 ==> r.timeInterval == DEFAULT_TIME_INTERVAL
    // `Next`, `Skip` and `Done` default to nil, so they are always the caller's.
    ensures r.next == cfg.next && r.skip == cfg.skip && r.done == cfg.done
    // Fields without a default are copied.
    ensures r.customTags == cfg.customTags && r.timeZoneLocation == cfg.timeZoneLocation
    ensures r.disableColors == cfg.disableColors && r.enableLatency == cfg.enableLatency
    // Colours are switched on when wanted, and never switched off.
    ensures r.enableColors <==> cfg.enableColors || (!cfg.disableColors && r.stream == Some(Stdout))
    ensures IsResolved(r)
  {
    var stream := cfg.stream.OrElse(CONFIG_DEFAULT.stream);
    Config(
      stream := stream,
      next := cfg.next.OrElse(CONFIG_DEFAULT.next),
      skip := cfg.skip.OrElse(CONFIG_DEFAULT.skip),
      done := cfg.done.OrElse(CONFIG_DEFAULT.done),
      customTags := cfg.customTags,
      beforeHandlerFunc := cfg.beforeHandlerFunc.OrElse(CONFIG_DEFAULT.beforeHandlerFunc),
      loggerFunc := cfg.loggerFunc.OrElse(CONFIG_DEFAULT.loggerFunc),
      timeZoneLocation := cfg.timeZoneLocation,
      format := NonEmptyOr(cfg.format, CONFIG_DEFAULT.format),
      timeFormat := NonEmptyOr(cfg.timeFormat, CONFIG_DEFAULT.timeFormat),
      timeZone := NonEmptyOr(cfg.timeZone, CONFIG_DEFAULT.timeZone),
      timeInterval := PositiveOr(cfg.timeInterval, CONFIG_DEFAULT.timeInterval),
      disableColors := cfg.disableColors,
      enableColors := cfg.enableColors || (!cfg.disableColors && stream == CONFIG_DEFAULT.stream),
      enableLatency := cfg.enableLatency)
  }

  /** `configDefault(config ...Config)`: with no argument the defaults
      themselves; otherwise the first argument resolved, the rest ignored. */
  function ApplyDefaults(config: seq<Config>): (r: Config)
    ensures |config| == 0 ==> r == CONFIG_DEFAULT
    ensures |config| > 0 ==> r == Resolve(config[0])
    ensures IsResolved(r)
  {
    if |config| < 1 then CONFIG_DEFAULT else Resolve(config[0])
  }

  /** With no argument: colours on and the default format. */
  lemma NoConfigGivesDefault()
    ensures ApplyDefaults([]) == CONFIG_DEFAULT
    ensures ApplyDefaults([]).enableColors
    ensures ApplyDefaults([]).format == DEFAULT_FORMAT
    ensures ApplyDefaults([]).timeInterval == 500 * MILLISECOND
  {
  }

  /** Passing Go's zero value `Config{}` is the same as passing nothing. */
  lemma ZeroConfigGivesDefault()
    ensures ApplyDefaults([ZERO_CONFIG]) == ApplyDefaults([])
  {
  }

  /** Arguments after the first are ignored. */
  lemma ExtraArgumentsIgnored(config: seq<Config>)
    requires |config| > 0
    ensures ApplyDefaults(config) == ApplyDefaults([config[0]])
  {
  }

  /** An empty format is not kept: the format survives exactly when it is
      non-empty, and the default format is used otherwise. */
  lemma FormatKeptIffNonEmpty(cfg: Config)
    ensures Resolve(cfg).format == cfg.format <==> cfg.format != ""
    ensures cfg.format == "" ==> Resolve(cfg).format == DEFAULT_FORMAT
  {
  }

  /** The interval survives exactly when it is positive. */
  lemma IntervalKeptIffPositive(cfg: Config)
    ensures Resolve(cfg).timeInterval == cfg.timeInterval <==> cfg.timeInterval > 0
    ensures cfg.timeInterval <= 0 ==> Resolve(cfg).timeInterval == DEFAULT_TIME_INTERVAL
  {
  }

  /** Colours are never switched off, and are on whenever they are not
      disabled and the caller left the stream nil or chose stdout. */
  lemma ColorsNeverForcedOff(cfg: Config)
    ensures cfg.enableColors ==> Resolve(cfg).enableColors
    ensures !cfg.disableColors && (cfg.stream.None? || cfg.stream == Some(Stdout)) ==> Resolve(cfg).enableColors
    ensures cfg.disableColors ==> Resolve(cfg).enableColors == cfg.enableColors
  {
  }

  /** A configuration is left unchanged by `Resolve` exactly when it is
      already resolved. */
  lemma FixedPointIffResolved(c: Config)
    ensures Resolve(c) == c <==> IsResolved(c)
  {
  }

  /** Idempotence: resolving a resolved configuration changes nothing. */
  lemma ResolveIdempotent(cfg: Config)
    ensures Resolve(Resolve(cfg)) == Resolve(cfg)
  {
  }

  /** Idempotence of `configDefault` applied to its own output. */
  lemma ApplyDefaultsIdempotent(config: seq<Config>)
    ensures ApplyDefaults([ApplyDefaults(config)]) == ApplyDefaults(config)
  {
  }

  /** The results of `configDefault` are exactly the resolved
      configurations. */
  lemma ResolvedIffResult(c: Config)
    ensures IsResolved(c) <==> exists config :: ApplyDefaults(config) == c
  {
    if IsResolved(c) {
      assert ApplyDefaults([c]) == c;
    }
  }
}
