/** The interval test of `configDefault` as written: `int(cfg.TimeInterval) <= 0`
    converts the 64-bit `time.Duration` to Go's `int`, whose width is that of
    the target platform. On a 32-bit target the conversion keeps only the low
    32 bits, so some positive intervals read as zero or negative and are
    replaced by the default. */
module IntervalGuard {
  import opened Wrappers
  import opened LoggerConfig

  /** The width of Go's `int` on the target platform. */
  datatype Arch = Arch32 | Arch64

  /** Number of values of Go's `int` on `arch`. */
  function WordModulus(arch: Arch): (m: int) {
    match arch
    case Arch32 => 0x1_0000_0000
    case Arch64 => 0x1_0000_0000_0000_0000
  }

  /** Go's conversion `int(d)`: the two's-complement value of the low bits of
      `d` that fit the platform's `int`. */
  function ToInt(d: Duration, arch: Arch): (n: int)
    ensures -WordModulus(arch) / 2 <= n < WordModulus(arch) / 2
    ensures n % WordModulus(arch) == d % WordModulus(arch)
    ensures -WordModulus(arch) / 2 <= d < WordModulus(arch) / 2 ==> n == d
  {
    var m := WordModulus(arch);
    (d + m / 2) % m - m / 2
  }

  /** `configDefault` as written: identical to `Resolve` except that the
      interval is tested after the conversion to `int`. The interval is the
      only field this test affects. */
  function ResolveAsWritten(cfg: Config, arch: Arch): (r: Config)
    ensures ToInt(cfg.timeInterval, arch) <= 0 ==> r.timeInterval == DEFAULT_TIME_INTERVAL
    ensures ToInt(cfg.timeInterval, arch) > 0 ==> r.timeInterval == cfg.timeInterval
    ensures r.(timeInterval := 0) == Resolve(cfg).(timeInterval := 0)
  {
    var timeInterval := if ToInt(cfg.timeInterval, arch) <= 0 then CONFIG_DEFAULT.timeInterval else cfg.timeInterval;
    Resolve(cfg).(timeInterval := timeInterval)
  }

  /** On a 64-bit target every duration fits `int`, so the code as written
      behaves as `Resolve`. */
  lemma AsWrittenAgreesOn64Bit(cfg: Config)
    ensures ResolveAsWritten(cfg, Arch64) == Resolve(cfg)
  {
  }

  /** On a 32-bit target a three-second interval, which is positive, reads as
      negative after the conversion and is replaced by 500 ms; `Resolve`
      keeps it. */
  lemma ThreeSecondsResetOn32Bit()
    ensures var cfg := ZERO_CONFIG.(timeInterval := 3_000_000_000);
      && cfg.timeInterval > 0
      && ResolveAsWritten(cfg, Arch32).timeInterval == DEFAULT_TIME_INTERVAL
      && Resolve(cfg).timeInterval == 3_000_000_000
  {
  }

  /** The same truncation keeps some negative intervals: on a 32-bit target
      -4294967295 ns reads as 1, so it is kept and the result is not
      resolved, although every result of `Resolve` has a positive interval. */
  lemma NegativeIntervalKeptOn32Bit()
    ensures var cfg := ZERO_CONFIG.(timeInterval := -4_294_967_295);
      && ResolveAsWritten(cfg, Arch32).timeInterval == -4_294_967_295
      && !IsResolved(ResolveAsWritten(cfg, Arch32))
      && Resolve(cfg).timeInterval == DEFAULT_TIME_INTERVAL
  {
  }
}
