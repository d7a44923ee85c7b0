/** The run of src/scraper.ts: `scrape`, which drives the browser through
    set-up, navigation, the challenge check, the content wait and extraction,
    with its timeout handler and its `finally`, and `runScraper`, which merges
    the configuration and reads the output file back.

    The browser, the markup parser and the file system are collaborators: what
    each call does in a run is an input (`Collaborators`), and the calls made
    are recorded in order. A `World` holds what the run changes: the output
    file, `debug.html`, and the record of calls. */
module Scraper {
  import opened JsString
  import opened Collections
  import opened Utils
  import opened Page

  /** A collaborator call that either returns or throws. */
  datatype Outcome = Pass | Fail(error: ScrapeError)

  /** A collaborator call that returns a value or throws. */
  datatype Result<T> = Ok(value: T) | Err(error: ScrapeError)

  /** How each collaborator call behaves in one run. `persist` is the
      directory creation and the write of the output file on the live path,
      `persistFallback` the same on the fallback path, and `select` the markup
      parser: the `article.thread` containers of a markup string. Cookie
      injection has no entry: its failure is logged and has no other effect. */
  datatype Collaborators = Collaborators(
    launch: Outcome,
    newContext: Outcome,
    newPage: Outcome,
    route: Outcome,
    headers: Outcome,
    goto: Outcome,
    evaluate: Result<Document>,
    waitForContent: Outcome,
    settle: Outcome,
    extract: Result<seq<Card>>,
    persist: Outcome,
    content: Result<string>,
    writeDebug: Outcome,
    persistFallback: Outcome,
    select: string -> seq<Container>)

  /** The calls a run makes, with the arguments that depend on the configuration. */
  datatype Call =
    | Launch(headless: bool)
    | NewContext(userAgent: Option<string>)
    | AddCookies(cookies: seq<Cookie>)
    | NewPage
    | Route
    | SetHeaders
    | Goto(url: string)
    | Evaluate
    | WaitForContent
    | Settle
    | Extract
    | WriteOutput
    | Content
    | WriteDebug
    | FallbackParse
    | Close

  /** What a run can change: the calls made so far, the offers in the output
      file, the text of `debug.html` (`None`: no such file), and how many
      times the browser has been closed. */
  datatype State = State(calls: seq<Call>, output: Option<seq<Offer>>, debug: Option<string>, closes: nat)

  /** The state after (part of) a run and the error that escapes it. */
  datatype Run = Run(state: State, error: Option<ScrapeError>)

  function Record(s: State, c: Call): State {
    s.(calls := s.calls + [c])
  }

  /** `browser.close()`. */
  function Shut(s: State): State {
    Record(s, Close).(closes := s.closes + 1)
  }

  /** `cookies?.length` is truthy. */
  predicate HasCookies(cfg: Config) {
    cfg.cookies.Some? && |cfg.cookies.value| > 0
  }

  /** `!bypassCloudflare`: images, fonts and media are blocked. */
  predicate BlocksResources(cfg: Config) {
    cfg.bypassCloudflare != Some(true)
  }

  /** `fallbackParse` is truthy. */
  predicate FallbackEnabled(cfg: Config) {
    cfg.fallbackParse == Some(true)
  }

  /** The user agent put into the context options: only a non-empty one. */
  function ContextUserAgent(cfg: Config): Option<string> {
    OrNull(cfg.userAgent)
  }

  /** The steps before the `try`: launch, context, cookies, page, request
      routing and headers. An error here escapes at once. */
  function Setup(cfg: Config, b: Collaborators, s: State): Run {
    var launched := Record(s, Launch(cfg.headless));
    if b.launch.Fail? then Run(launched, Some(b.launch.error)) else
    var context := Record(launched, NewContext(ContextUserAgent(cfg)));
    if b.newContext.Fail? then Run(context, Some(b.newContext.error)) else
    var cookies := if HasCookies(cfg) then Record(context, AddCookies(cfg.cookies.value)) else context;
    var paged := Record(cookies, NewPage);
    if b.newPage.Fail? then Run(paged, Some(b.newPage.error)) else
    var routed := if BlocksResources(cfg) then Record(paged, Route) else paged;
    if BlocksResources(cfg) && b.route.Fail? then Run(routed, Some(b.route.error)) else
    Run(Record(routed, SetHeaders), if b.headers.Fail? then Some(b.headers.error) else None)
  }

  /** The `try` block: navigate, check for a challenge, wait for the content,
      settle, extract the cards and write the valid offers. */
  function TryBlock(cfg: Config, b: Collaborators, s: State): Run {
    var navigated := Record(s, Goto(cfg.url));
    if b.goto.Fail? then Run(navigated, Some(b.goto.error)) else
    var checked := Record(navigated, Evaluate);
    if b.evaluate.Err? then Run(checked, Some(b.evaluate.error))
    else if ChallengeDetected(b.evaluate.value) then Run(checked, Some(ChallengeDetectedError(ChallengeMessage))) else
    var waited := Record(checked, WaitForContent);
    if b.waitForContent.Fail? then Run(waited, Some(b.waitForContent.error)) else
    var settled := Record(waited, Settle);
    if b.settle.Fail? then Run(settled, Some(b.settle.error)) else
    var extracted := Record(settled, Extract);
    if b.extract.Err? then Run(extracted, Some(b.extract.error)) else
    var writing := Record(extracted, WriteOutput);
    if b.persist.Fail? then Run(writing, Some(b.persist.error))
    else Run(writing.(output := Some(LiveOffers(b.extract.value))), None)
  }

  /** The `catch` block for `error`: on a timeout, capture the page into
      `debug.html` and, when enabled, write the fallback offers if there are
      any; a failure in there is logged and ends the handling. The error
      escapes unless the fallback offers were written. */
  function CatchBlock(cfg: Config, b: Collaborators, error: ScrapeError, s: State): Run {
    if !IsTimeout(error) then Run(s, Some(error)) else
    var captured := Record(s, Content);
    if b.content.Err? then Run(captured, Some(error)) else
    var html := b.content.value;
    var writing := Record(captured, WriteDebug);
    if b.writeDebug.Fail? then Run(writing, Some(error)) else
    var diagnosed := writing.(debug := Some(html));
    if !FallbackEnabled(cfg) then Run(diagnosed, Some(error)) else
    var parsed := Record(diagnosed, FallbackParse);
    var offers := FallbackOffers(b.select(html), cfg.brandPattern);
    if offers == [] then Run(parsed, Some(error)) else
    var saving := Record(parsed, WriteOutput);
    if b.persistFallback.Fail? then Run(saving, Some(error))
    else Run(saving.(output := Some(offers)), None)
  }

  /** One `scrape` run from state `s`: set-up, then `try`, `catch` when the
      `try` threw, and `finally` closing the browser. */
  function ScrapeRun(cfg: Config, b: Collaborators, s: State): Run {
    var setup := Setup(cfg, b, s);
    if setup.error.Some? then setup else
    var t := TryBlock(cfg, b, setup.state);
    var handled := if t.error.Some? then CatchBlock(cfg, b, t.error.value, t.state) else t;
    Run(Shut(handled.state), handled.error)
  }

  /** The set-up succeeds exactly when each of its steps does, whatever
      happens to the cookies. */
  predicate SetupPasses(cfg: Config, b: Collaborators) {
    && b.launch.Pass? && b.newContext.Pass? && b.newPage.Pass?
    && (BlocksResources(cfg) ==> b.route.Pass?) && b.headers.Pass?
  }

  /** The error the `try` block throws: that of its first failing step, or the
      challenge error when the page shows a challenge. */
  function TryFailure(cfg: Config, b: Collaborators): Option<ScrapeError> {
    match (b.goto, b.evaluate)
    case (Fail(e), _) => Some(e)
    case (_, Err(e)) => Some(e)
    case (_, Ok(d)) =>
      if ChallengeDetected(d) then Some(ChallengeDetectedError(ChallengeMessage))
      else if b.waitForContent.Fail? then Some(b.waitForContent.error)
      else if b.settle.Fail? then Some(b.settle.error)
      else if b.extract.Err? then Some(b.extract.error)
      else if b.persist.Fail? then Some(b.persist.error)
      else None
  }

  /** The fallback rescues a timed-out run: the page content is captured, the
      debug file written, the fallback enabled, finds offers, and they are
      written. */
  predicate FallbackRescues(cfg: Config, b: Collaborators) {
    && b.content.Ok? && b.writeDebug.Pass? && FallbackEnabled(cfg)
    && FallbackOffers(b.select(b.content.value), cfg.brandPattern) != []
    && b.persistFallback.Pass?
  }

  /** Set-up fails exactly when one of its steps other than cookie injection
      fails; it writes no file and does not close the browser. */
  lemma SetupSpec(cfg: Config, b: Collaborators, s: State)
    ensures Setup(cfg, b, s).error.None? <==> SetupPasses(cfg, b)
    ensures Setup(cfg, b, s).state.output == s.output && Setup(cfg, b, s).state.debug == s.debug
    ensures Setup(cfg, b, s).state.closes == s.closes
  {
  }

  /** The `try` block throws `TryFailure`; when it throws, the output file is
      untouched; it never writes `debug.html` or closes the browser. */
  lemma TryBlockSpec(cfg: Config, b: Collaborators, s: State)
    ensures TryBlock(cfg, b, s).error == TryFailure(cfg, b)
    ensures TryFailure(cfg, b).Some? ==> TryBlock(cfg, b, s).state.output == s.output
    ensures TryBlock(cfg, b, s).state.debug == s.debug && TryBlock(cfg, b, s).state.closes == s.closes
  {
  }

  /** When nothing in the `try` block fails, the output file holds the
      valid offers of the extracted cards, in card order. */
  lemma TryBlockWrites(cfg: Config, b: Collaborators, s: State)
    requires TryFailure(cfg, b).None?
    ensures b.extract.Ok?
    ensures TryBlock(cfg, b, s).state.output == Some(LiveOffers(b.extract.value))
  {
  }

  /** The `catch` block rethrows `error` unchanged unless the error is a
      timeout and the fallback rescues the run; the output file changes only
      in that case, and then holds the fallback offers. */
  lemma CatchBlockSpec(cfg: Config, b: Collaborators, error: ScrapeError, s: State)
    ensures CatchBlock(cfg, b, error, s).error.None? <==> IsTimeout(error) && FallbackRescues(cfg, b)
    ensures CatchBlock(cfg, b, error, s).error.Some? ==>
      CatchBlock(cfg, b, error, s).error == Some(error) && CatchBlock(cfg, b, error, s).state.output == s.output
    ensures CatchBlock(cfg, b, error, s).error.None? ==>
      CatchBlock(cfg, b, error, s).state.output == Some(FallbackOffers(b.select(b.content.value), cfg.brandPattern))
    ensures CatchBlock(cfg, b, error, s).state.closes == s.closes
  {
  }

  /** `debug.html` is written exactly when the error is a timeout, the content
      is captured and the write succeeds, and then holds the content. */
  lemma CatchBlockDiagnostics(cfg: Config, b: Collaborators, error: ScrapeError, s: State)
    ensures CatchBlock(cfg, b, error, s).state.debug ==
      if IsTimeout(error) && b.content.Ok? && b.writeDebug.Pass? then Some(b.content.value) else s.debug
  {
  }

  /** A non-timeout error, among them the challenge error, skips the whole
      handler: no content capture, no debug file, no fallback. */
  lemma CatchBlockIgnoresOtherErrors(cfg: Config, b: Collaborators, error: ScrapeError, s: State)
    requires !IsTimeout(error)
    ensures CatchBlock(cfg, b, error, s) == Run(s, Some(error))
  {
  }

  /** A set-up failure escapes before the `try`: no file is written and the
      browser, launched or not, is never closed. */
  lemma ScrapeSetupFailure(cfg: Config, b: Collaborators, s: State)
    requires !SetupPasses(cfg, b)
    ensures ScrapeRun(cfg, b, s).error.Some?
    ensures ScrapeRun(cfg, b, s).state.output == s.output && ScrapeRun(cfg, b, s).state.debug == s.debug
    ensures ScrapeRun(cfg, b, s).state.closes == s.closes
  {
    SetupSpec(cfg, b, s);
  }

  /** Once set-up has succeeded, the browser is closed exactly once, as the
      last call of the run, whatever happens in `try` and `catch`. */
  lemma ScrapeClosesOnce(cfg: Config, b: Collaborators, s: State)
    requires SetupPasses(cfg, b)
    ensures ScrapeRun(cfg, b, s).state.closes == s.closes + 1
    ensures ScrapeRun(cfg, b, s).state.calls[|ScrapeRun(cfg, b, s).state.calls| - 1] == Close
  {
    SetupSpec(cfg, b, s);
    var setup := Setup(cfg, b, s);
    TryBlockSpec(cfg, b, setup.state);
    var t := TryBlock(cfg, b, setup.state);
    if t.error.Some? {
      CatchBlockSpec(cfg, b, t.error.value, t.state);
    }
  }

  /** When every step succeeds, the run throws nothing, the output file holds
      exactly the valid offers of the cards (possibly none), and `debug.html`
      is untouched. */
  lemma ScrapeSuccess(cfg: Config, b: Collaborators, s: State)
    requires SetupPasses(cfg, b) && TryFailure(cfg, b).None?
    ensures b.extract.Ok?
    ensures ScrapeRun(cfg, b, s).error.None?
    ensures ScrapeRun(cfg, b, s).state.output == Some(LiveOffers(b.extract.value))
    ensures ScrapeRun(cfg, b, s).state.debug == s.debug
  {
    SetupSpec(cfg, b, s);
    TryBlockSpec(cfg, b, Setup(cfg, b, s).state);
    TryBlockWrites(cfg, b, Setup(cfg, b, s).state);
  }

  /** When the `try` block throws `e`, the run succeeds exactly when `e` is a
      timeout and the fallback rescues it, and then the output file holds the
      fallback offers; otherwise `e` itself escapes and the output file is
      untouched. `debug.html` holds the page exactly when a timeout's content
      was captured and written. */
  lemma ScrapeFailure(cfg: Config, b: Collaborators, s: State, e: ScrapeError)
    requires SetupPasses(cfg, b) && TryFailure(cfg, b) == Some(e)
    ensures ScrapeRun(cfg, b, s).error.None? <==> IsTimeout(e) && FallbackRescues(cfg, b)
    ensures ScrapeRun(cfg, b, s).error.Some? ==>
      ScrapeRun(cfg, b, s).error == Some(e) && ScrapeRun(cfg, b, s).state.output == s.output
    ensures ScrapeRun(cfg, b, s).error.None? ==>
      ScrapeRun(cfg, b, s).state.output == Some(FallbackOffers(b.select(b.content.value), cfg.brandPattern))
    ensures ScrapeRun(cfg, b, s).state.debug ==
      if IsTimeout(e) && b.content.Ok? && b.writeDebug.Pass? then Some(b.content.value) else s.debug
  {
    SetupSpec(cfg, b, s);
    var setup := Setup(cfg, b, s);
    TryBlockSpec(cfg, b, setup.state);
    var t := TryBlock(cfg, b, setup.state);
    CatchBlockSpec(cfg, b, e, t.state);
    CatchBlockDiagnostics(cfg, b, e, t.state);
  }

  /** A detected challenge aborts right after the check: the challenge error
      escapes, no content wait, extraction, capture or fallback happens, no
      file is written, and the browser is closed. */
  lemma ScrapeChallenge(cfg: Config, b: Collaborators, s: State)
    requires SetupPasses(cfg, b) && b.goto.Pass? && b.evaluate.Ok? && ChallengeDetected(b.evaluate.value)
    ensures ScrapeRun(cfg, b, s).error == Some(ChallengeDetectedError(ChallengeMessage))
    ensures ScrapeRun(cfg, b, s).state.calls == Setup(cfg, b, s).state.calls + [Goto(cfg.url), Evaluate, Close]
    ensures ScrapeRun(cfg, b, s).state.output == s.output && ScrapeRun(cfg, b, s).state.debug == s.debug
  {
    SetupSpec(cfg, b, s);
    OwnErrorsAreNotTimeouts(ChallengeDetectedError(ChallengeMessage));
  }

  /** The output file changes exactly on the runs that throw nothing. A run
      throws nothing exactly when set-up passes and either the live path
      passes, writing the valid offers of the extracted cards, or it times
      out and the fallback rescues it, writing the fallback offers. */
  lemma ScrapeWritesIffSucceeds(cfg: Config, b: Collaborators, s: State)
    ensures ScrapeRun(cfg, b, s).error.None? <==>
      && SetupPasses(cfg, b)
      && (TryFailure(cfg, b).None? || (IsTimeout(TryFailure(cfg, b).value) && FallbackRescues(cfg, b)))
    ensures ScrapeRun(cfg, b, s).error.None? ==> ScrapeRun(cfg, b, s).state.output.Some?
    ensures ScrapeRun(cfg, b, s).error.None? && TryFailure(cfg, b).None? ==>
      b.extract.Ok? && ScrapeRun(cfg, b, s).state.output == Some(LiveOffers(b.extract.value))
    ensures ScrapeRun(cfg, b, s).error.None? && TryFailure(cfg, b).Some? ==>
      && b.content.Ok?
      && ScrapeRun(cfg, b, s).state.output == Some(FallbackOffers(b.select(b.content.value), cfg.brandPattern))
    ensures ScrapeRun(cfg, b, s).error.Some? ==> ScrapeRun(cfg, b, s).state.output == s.output
  {
    SetupSpec(cfg, b, s);
    if SetupPasses(cfg, b) {
      match TryFailure(cfg, b)
      case None => ScrapeSuccess(cfg, b, s);
      case Some(e) => ScrapeFailure(cfg, b, s, e);
    }
  }

  /** A `Partial<ScrapingConfig>`: for each key, whether the object has it
      and with what value; a present optional key may hold `undefined`. */
  datatype Override = Override(
    url: Option<string>,
    headless: Option<bool>,
    timeout: Option<int>,
    outputPath: Option<string>,
    brandPattern: Option<string -> bool>,
    cookies: Option<Option<seq<Cookie>>>,
    userAgent: Option<Option<string>>,
    bypassCloudflare: Option<Option<bool>>,
    fallbackParse: Option<Option<bool>>)

  const NoOverride := Override(None, None, None, None, None, None, None, None, None)

  /** The value of one key after a spread: the later object's, when it has the key. */
  function Pick<T>(earlier: T, later: Option<T>): T {
    if later.Some? then later.value else earlier
  }

  /** `{ ...base, ...o }`. */
  function Merge(base: Config, o: Override): Config {
    Config(
      Pick(base.url, o.url),
      Pick(base.headless, o.headless),
      Pick(base.timeout, o.timeout),
      Pick(base.outputPath, o.outputPath),
      Pick(base.brandPattern, o.brandPattern),
      Pick(base.cookies, o.cookies),
      Pick(base.userAgent, o.userAgent),
      Pick(base.bypassCloudflare, o.bypassCloudflare),
      Pick(base.fallbackParse, o.fallbackParse))
  }

  /** An override that has every key, with the values of `c`. */
  function Full(c: Config): Override {
    Override(Some(c.url), Some(c.headless), Some(c.timeout), Some(c.outputPath), Some(c.brandPattern),
             Some(c.cookies), Some(c.userAgent), Some(c.bypassCloudflare), Some(c.fallbackParse))
  }

  /** One key of `{ ...earlier, ...later }` for two overrides. */
  function Over<T>(earlier: Option<T>, later: Option<T>): Option<T> {
    if later.Some? then later else earlier
  }

  /** `{ ...earlier, ...later }` for two overrides. */
  function Layer(earlier: Override, later: Override): Override {
    Override(
      Over(earlier.url, later.url),
      Over(earlier.headless, later.headless),
      Over(earlier.timeout, later.timeout),
      Over(earlier.outputPath, later.outputPath),
      Over(earlier.brandPattern, later.brandPattern),
      Over(earlier.cookies, later.cookies),
      Over(earlier.userAgent, later.userAgent),
      Over(earlier.bypassCloudflare, later.bypassCloudflare),
      Over(earlier.fallbackParse, later.fallbackParse))
  }

  /** The configuration `runScraper` uses: the defaults, overridden key by key
      by the caller's object when there is one. */
  function FinalConfig(custom: Option<Override>): Config {
    Merge(DefaultConfig, if custom.Some? then custom.value else NoOverride)
  }

  /** An override without keys keeps every default. */
  lemma MergeNothing(base: Config)
    ensures Merge(base, NoOverride) == base
  {
  }

  /** An override with every key replaces every default. */
  lemma MergeEverything(base: Config, c: Config)
    ensures Merge(base, Full(c)) == c
  {
  }

  /** Applying the same override twice is applying it once. */
  lemma MergeIdempotent(base: Config, o: Override)
    ensures Merge(Merge(base, o), o) == Merge(base, o)
  {
  }

  /** Spreading two overrides one after the other is spreading their merge. */
  lemma MergeLayers(base: Config, earlier: Override, later: Override)
    ensures Merge(Merge(base, earlier), later) == Merge(base, Layer(earlier, later))
  {
  }

  /** The state a run changes: the offers in the output file (its JSON is read
      back as written), the text of `debug.html`, and the calls made so far. */
  class World {
    var outputFile: Option<seq<Offer>>
    var debugFile: Option<string>
    var calls: seq<Call>
    var closes: nat

    constructor (output: Option<seq<Offer>>, debug: Option<string>)
      ensures Snapshot() == State([], output, debug, 0)
    {
      outputFile := output;
      debugFile := debug;
      calls := [];
      closes := 0;
    }

    function Snapshot(): State
      reads this
    {
      State(calls, outputFile, debugFile, closes)
    }

    /** Make a collaborator call. */
    method Perform(c: Call)
      modifies this
      ensures Snapshot() == Record(old(Snapshot()), c)
    {
      calls := calls + [c];
    }

    /** `browser.close()`. */
    method CloseBrowser()
      modifies this
      ensures Snapshot() == Shut(old(Snapshot()))
    {
      calls := calls + [Close];
      closes := closes + 1;
    }

    /** `fs.writeFileSync(outputPath, JSON.stringify(offers, null, 2))`: the
        whole file is replaced. */
    method WriteOutput(offers: seq<Offer>)
      modifies this
      ensures Snapshot() == old(Snapshot()).(output := Some(offers))
    {
      outputFile := Some(offers);
    }

    /** `fs.writeFileSync(diagPath, html)`. */
    method WriteDebug(html: string)
      modifies this
      ensures Snapshot() == old(Snapshot()).(debug := Some(html))
    {
      debugFile := Some(html);
    }
  }

  /** The set-up before the `try`. */
  method SetUp(cfg: Config, b: Collaborators, w: World) returns (error: Option<ScrapeError>)
    modifies w
    ensures w.Snapshot() == Setup(cfg, b, old(w.Snapshot())).state
    ensures error == Setup(cfg, b, old(w.Snapshot())).error
  {
    w.Perform(Launch(cfg.headless));
    if b.launch.Fail? { return Some(b.launch.error); }
    w.Perform(NewContext(ContextUserAgent(cfg)));
    if b.newContext.Fail? { return Some(b.newContext.error); }
    if HasCookies(cfg) {
      w.Perform(AddCookies(cfg.cookies.value));  // a failure is only logged
    }
    w.Perform(NewPage);
    if b.newPage.Fail? { return Some(b.newPage.error); }
    if BlocksResources(cfg) {
      w.Perform(Route);
      if b.route.Fail? { return Some(b.route.error); }
    }
    w.Perform(SetHeaders);
    error := if b.headers.Fail? then Some(b.headers.error) else None;
  }

  /** The `try` block: returns what it throws. */
  method Attempt(cfg: Config, b: Collaborators, w: World) returns (thrown: Option<ScrapeError>)
    modifies w
    ensures w.Snapshot() == TryBlock(cfg, b, old(w.Snapshot())).state
    ensures thrown == TryBlock(cfg, b, old(w.Snapshot())).error
  {
    w.Perform(Goto(cfg.url));
    if b.goto.Fail? { return Some(b.goto.error); }
    w.Perform(Evaluate);
    if b.evaluate.Err? { return Some(b.evaluate.error); }
    if ChallengeDetected(b.evaluate.value) { return Some(ChallengeDetectedError(ChallengeMessage)); }
    w.Perform(WaitForContent);
    if b.waitForContent.Fail? { return Some(b.waitForContent.error); }
    w.Perform(Settle);
    if b.settle.Fail? { return Some(b.settle.error); }
    w.Perform(Extract);
    if b.extract.Err? { return Some(b.extract.error); }
    var validOffers := LiveOffers(b.extract.value);
    w.Perform(WriteOutput);
    if b.persist.Fail? { return Some(b.persist.error); }
    w.WriteOutput(validOffers);
    thrown := None;
  }

  /** The `catch` block for `error`: returns the error that escapes it. */
  method Recover(cfg: Config, b: Collaborators, w: World, error: ScrapeError) returns (rethrown: Option<ScrapeError>)
    modifies w
    ensures w.Snapshot() == CatchBlock(cfg, b, error, old(w.Snapshot())).state
    ensures rethrown == CatchBlock(cfg, b, error, old(w.Snapshot())).error
  {
    var attemptedFallback := false;
    if IsTimeout(error) {
      w.Perform(Content);
      if b.content.Ok? {
        var html := b.content.value;
        w.Perform(WriteDebug);
        if b.writeDebug.Pass? {
          w.WriteDebug(html);
          if FallbackEnabled(cfg) {
            w.Perform(FallbackParse);
            var offers := ParseOffersFromHtml(html, b.select, cfg);
            if |offers| > 0 {
              w.Perform(WriteOutput);
              if b.persistFallback.Pass? {
                w.WriteOutput(offers);
                attemptedFallback := true;
              }
            }
          }
        }
      }
    }
    rethrown := if attemptedFallback then None else Some(error);
  }

  /** `scrape(cfg)`: returns the error that escapes, if any. */
  method Scrape(cfg: Config, b: Collaborators, w: World) returns (error: Option<ScrapeError>)
    modifies w
    ensures w.Snapshot() == ScrapeRun(cfg, b, old(w.Snapshot())).state
    ensures error == ScrapeRun(cfg, b, old(w.Snapshot())).error
  {
    error := SetUp(cfg, b, w);
    if error.Some? { return; }
    error := Attempt(cfg, b, w);
    if error.Some? {
      error := Recover(cfg, b, w, error.value);
    }
    w.CloseBrowser();  // finally
  }

  /** `runScraper(customConfig)`: the offers read back from the output file,
      or the error `scrape` threw. */
  method RunScraper(custom: Option<Override>, b: Collaborators, w: World) returns (r: Result<seq<Offer>>)
    modifies w
    ensures w.Snapshot() == ScrapeRun(FinalConfig(custom), b, old(w.Snapshot())).state
    ensures r.Err? <==> ScrapeRun(FinalConfig(custom), b, old(w.Snapshot())).error.Some?
    ensures r.Err? ==> ScrapeRun(FinalConfig(custom), b, old(w.Snapshot())).error == Some(r.error)
    ensures r.Ok? ==> w.outputFile == Some(r.value)
  {
    var cfg := FinalConfig(custom);
    var error := Scrape(cfg, b, w);
    if error.Some? {
      return Err(error.value);
    }
    ScrapeWritesIffSucceeds(cfg, b, old(w.Snapshot()));
    r := Ok(w.outputFile.value);
  }
}
