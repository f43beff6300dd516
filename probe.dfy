/**
 * Which address the bait request probes: a custom URL wins over the
 * random-blacklist flag, which wins over the default blacklist URL.
 * The blacklist itself (its default URL and the random draw) is not part of
 * this model; both reach these functions as parameters.
 */
module Probe {
  import opened Wrappers
  import opened Options

  /** The branch of the nested conditional that supplies the probe URL. */
  datatype ProbeSource = CustomUrl(url: Url) | RandomBlacklistUrl | DefaultBlacklistUrl

  /**
   * `customFetchUrl !== undefined ? customFetchUrl
   *   : useRandomFetchUrlFromBlacklist ? getRandomUrl() : DEFAULT_BLACKLIST_URL`,
   * with an absent inner config read as all fields absent.
   */
  function SelectProbe(config: Option<Settings>): (src: ProbeSource)
    ensures src.CustomUrl? <==> config.Some? && config.value.customFetchUrl.Some?
    ensures src.CustomUrl? ==> src.url == config.value.customFetchUrl.value
    ensures src.RandomBlacklistUrl? <==>
      config.Some? && config.value.customFetchUrl.None? && config.value.useRandomFetchUrlFromBlacklist == Some(true)
  {
    match config
    case None => DefaultBlacklistUrl
    case Some(s) =>
      if s.customFetchUrl.Some? then CustomUrl(s.customFetchUrl.value)
      else if s.useRandomFetchUrlFromBlacklist == Some(true) then RandomBlacklistUrl
      else DefaultBlacklistUrl
  }

  /**
   * The URL the request is sent to, given what `getRandomUrl()` would
   * return (`randomDraw`) and `DEFAULT_BLACKLIST_URL` (`defaultUrl`).
   */
  function ProbeUrl(config: Option<Settings>, randomDraw: Url, defaultUrl: Url): (url: Url)
    ensures SelectProbe(config).CustomUrl? ==> url == SelectProbe(config).url
    ensures SelectProbe(config).RandomBlacklistUrl? ==> url == randomDraw
    ensures SelectProbe(config).DefaultBlacklistUrl? ==> url == defaultUrl
  {
    match SelectProbe(config)
    case CustomUrl(u) => u
    case RandomBlacklistUrl => randomDraw
    case DefaultBlacklistUrl => defaultUrl
  }

  /** A custom URL is used whatever the random-blacklist flag says. */
  lemma CustomUrlOverridesRandomFlag(s: Settings, flag: Option<bool>, randomDraw: Url, defaultUrl: Url)
    requires s.customFetchUrl.Some?
    ensures ProbeUrl(Some(s.(useRandomFetchUrlFromBlacklist := flag)), randomDraw, defaultUrl) == s.customFetchUrl.value
    ensures ProbeUrl(Some(s.(useRandomFetchUrlFromBlacklist := flag)), randomDraw, defaultUrl)
         == ProbeUrl(Some(s), randomDraw, defaultUrl)
  {
  }

  /** Without a custom URL the random draw is used when the flag is set, the default URL otherwise. */
  lemma RandomDrawUsedIffFlagSet(config: Option<Settings>, randomDraw: Url, defaultUrl: Url)
    requires config.None? || config.value.customFetchUrl.None?
    ensures ProbeUrl(config, randomDraw, defaultUrl) ==
      if config.Some? && config.value.useRandomFetchUrlFromBlacklist == Some(true) then randomDraw else defaultUrl
  {
  }

  /** The random draw is ignored unless the random branch is taken: no other branch depends on it. */
  lemma OnlyRandomBranchUsesDraw(config: Option<Settings>, draw1: Url, draw2: Url, defaultUrl: Url)
    requires !SelectProbe(config).RandomBlacklistUrl?
    ensures ProbeUrl(config, draw1, defaultUrl) == ProbeUrl(config, draw2, defaultUrl)
  {
  }
}
