/**
 * The crawler's options: the `CrawlerOptions` record, the static default
 * options, and the object-spread merge `{ ...defaultOptions, ...options }`
 * the constructor performs.
 */
module CrawlerConfig {
  import opened Wrappers

  /** The page lifecycle event `waitForLoadState` waits for. */
  datatype WaitUntil = DomContentLoaded | Load | NetworkIdle

  /** A complete options object; `userAgent` and `verbose` are optional fields. */
  datatype CrawlerOptions = CrawlerOptions(
    maxDepth: int,
    maxPages: int,
    maxConcurrency: int,
    timeoutSecs: int,
    waitUntil: WaitUntil,
    outDir: string,
    headless: bool,
    userAgent: Option<string>,
    verbose: Option<bool>)

  /** `Partial<CrawlerOptions>`: every field may be absent. */
  datatype PartialOptions = PartialOptions(
    maxDepth: Option<int>,
    maxPages: Option<int>,
    maxConcurrency: Option<int>,
    timeoutSecs: Option<int>,
    waitUntil: Option<WaitUntil>,
    outDir: Option<string>,
    headless: Option<bool>,
    userAgent: Option<string>,
    verbose: Option<bool>)

  /** The constructor called without options. */
  const NoOptions := PartialOptions(None, None, None, None, None, None, None, None, None)

  /**
   * The static default options. The default concurrency is the machine's
   * CPU count, which is a parameter here.
   */
  function DefaultOptions(cpuCount: nat): (d: CrawlerOptions)
    ensures d.maxDepth == 2 && d.maxPages == 10 && d.maxConcurrency == cpuCount
    ensures d.timeoutSecs == 30 && d.waitUntil == DomContentLoaded
    ensures d.outDir == "./storage" && d.headless
    ensures d.userAgent.None? && d.verbose.None?
  {
    CrawlerOptions(2, 10, cpuCount, 30, DomContentLoaded, "./storage", true, None, None)
  }

  /** Spreading one optional field over the value already there. */
  function Spread<T>(base: T, over: Option<T>): T {
    if over.Some? then over.value else base
  }

  /** `{ ...defaults, ...options }`: each supplied field replaces the default. */
  function Merge(defaults: CrawlerOptions, options: PartialOptions): (r: CrawlerOptions)
    ensures options.maxDepth.Some? ==> r.maxDepth == options.maxDepth.value
    ensures options.maxDepth.None? ==> r.maxDepth == defaults.maxDepth
    ensures options.maxPages.Some? ==> r.maxPages == options.maxPages.value
    ensures options.maxPages.None? ==> r.maxPages == defaults.maxPages
    ensures options.maxConcurrency.Some? ==> r.maxConcurrency == options.maxConcurrency.value
    ensures options.maxConcurrency.None? ==> r.maxConcurrency == defaults.maxConcurrency
    ensures options.timeoutSecs.Some? ==> r.timeoutSecs == options.timeoutSecs.value
    ensures options.timeoutSecs.None? ==> r.timeoutSecs == defaults.timeoutSecs
    ensures options.waitUntil.Some? ==> r.waitUntil == options.waitUntil.value
    ensures options.waitUntil.None? ==> r.waitUntil == defaults.waitUntil
    ensures options.outDir.Some? ==> r.outDir == options.outDir.value
    ensures options.outDir.None? ==> r.outDir == defaults.outDir
    ensures options.headless.Some? ==> r.headless == options.headless.value
    ensures options.headless.None? ==> r.headless == defaults.headless
    ensures options.userAgent.Some? ==> r.userAgent == options.userAgent
    ensures options.userAgent.None? ==> r.userAgent == defaults.userAgent
    ensures options.verbose.Some? ==> r.verbose == options.verbose
    ensures options.verbose.None? ==> r.verbose == defaults.verbose
  {
    CrawlerOptions(
      Spread(defaults.maxDepth, options.maxDepth),
      Spread(defaults.maxPages, options.maxPages),
      Spread(defaults.maxConcurrency, options.maxConcurrency),
      Spread(defaults.timeoutSecs, options.timeoutSecs),
      Spread(defaults.waitUntil, options.waitUntil),
      Spread(defaults.outDir, options.outDir),
      Spread(defaults.headless, options.headless),
      if options.userAgent.Some? then options.userAgent else defaults.userAgent,
      if options.verbose.Some? then options.verbose else defaults.verbose)
  }

  /** A complete options object seen as a partial one (what the command line passes). */
  function Given(o: CrawlerOptions): PartialOptions {
    PartialOptions(Some(o.maxDepth), Some(o.maxPages), Some(o.maxConcurrency),
                   Some(o.timeoutSecs), Some(o.waitUntil), Some(o.outDir),
                   Some(o.headless), o.userAgent, o.verbose)
  }

  /** Constructing without options yields exactly the defaults. */
  lemma NoOptionsGivesDefaults(cpuCount: nat)
    ensures Merge(DefaultOptions(cpuCount), NoOptions) == DefaultOptions(cpuCount)
  {
  }

  /** Supplying a complete options object yields that object, whatever the CPU count. */
  lemma FullOptionsOverrideDefaults(cpuCount: nat, o: CrawlerOptions)
    ensures Merge(DefaultOptions(cpuCount), Given(o)) == o
  {
  }
}
