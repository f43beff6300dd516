/**
 * The detector's configuration bag and the defaults the detector applies
 * to it with `??` and optional chaining (`this.config?.field ?? default`).
 */
module Options {
  import opened Wrappers

  /** A probe address; its syntax is not modelled. */
  type Url = string

  /** The optional inner `config` object. Timeouts are in milliseconds. */
  datatype Settings = Settings(
    initTimeout: Option<int>,
    classNameMethodTimeout: Option<int>,
    useRandomFetchUrlFromBlacklist: Option<bool>,
    customFetchUrl: Option<Url>)

  /** The argument of the constructor: both members may be left out. */
  datatype AntiAdblockConfig = AntiAdblockConfig(debug: Option<bool>, config: Option<Settings>)

  /** `1000 * 10`: the readiness timeout when none is configured. */
  const DefaultInitTimeoutMs: int := 1000 * 10

  /** `1000 * 1`: the bait-element measurement delay when none is configured. */
  const DefaultClassNameDelayMs: int := 1000 * 1

  /**
   * `this.config?.initTimeout ?? 1000 * 10`. Only an absent value (no inner
   * config, or no field) falls back to the default; 0 and negative values are kept.
   */
  function InitTimeout(config: Option<Settings>): (ms: int)
    ensures config.None? || config.value.initTimeout.None? ==> ms == DefaultInitTimeoutMs
    ensures config.Some? && config.value.initTimeout.Some? ==> ms == config.value.initTimeout.value
  {
    match config
    case None => DefaultInitTimeoutMs
    case Some(s) => Coalesce(s.initTimeout, DefaultInitTimeoutMs)
  }

  /** `this.config?.classNameMethodTimeout ?? 1000 * 1`, with the same `??` rule. */
  function ClassNameDelay(config: Option<Settings>): (ms: int)
    ensures config.None? || config.value.classNameMethodTimeout.None? ==> ms == DefaultClassNameDelayMs
    ensures config.Some? && config.value.classNameMethodTimeout.Some? ==> ms == config.value.classNameMethodTimeout.value
  {
    match config
    case None => DefaultClassNameDelayMs
    case Some(s) => Coalesce(s.classNameMethodTimeout, DefaultClassNameDelayMs)
  }

  /** `config.debug ?? false`: debugging is on only when asked for explicitly. */
  function DebugEnabled(options: AntiAdblockConfig): (on: bool)
    ensures on <==> options.debug == Some(true)
  {
    Coalesce(options.debug, false)
  }
}
