# price_alert_scraper in Dafny

A model of the decision logic of price_alert_scraper. The scraper opens a
mydealz.de group page in a headless browser, extracts the energy-drink offers
(Red Bull, Monster) and writes them as JSON to an output file. When the page
does not load in time, it saves the page as `debug.html` and falls back to a
static parse of that markup.

The model has four modules:

- `JsString` (jsstring.dfy): the JavaScript string behaviour the code relies on.
  - the white-space set of `trim` and of the regular-expression class `\s`;
  - `trim` and `replace(/\n/g, " ")`;
  - `includes`;
  - the character comparison of a regular expression with the `i` flag.
- `Collections` (collections.dfy): `Option`, and a generic filter-and-map over
  a sequence with its order and membership lemmas. Both filtering paths are
  built on it.
- `Utils` (utils.dfy, src/utils.ts): the parts listed below.
  - the offer records and the configuration with its defaults;
  - the brand pattern `/Red\s?Bull|Monster/i`, hand-coded as a search;
  - `isValidOffer` and `cleanText`;
  - the error classes;
  - the retailer pattern `/Verfügbar bei\s+(.*)/i`;
  - the static fallback extractor `parseOffersFromHtml`, as a loop proved
    against a specification function.
- `Page` (page.dfy, src/scraper.ts): the code that runs inside the page.
  - the anti-bot challenge check;
  - the normalisation of offer cards;
  - the `isValidOffer` filter over the normalised cards.
- `Scraper` (scraper.dfy, src/scraper.ts): `scrape` and `runScraper`.
  - Each browser, parser and file-system call is an input: whether it
    returns, and with what, or throws.
  - A `World` object holds what a run changes: the call log, the output
    file, `debug.html` and the number of times the browser was closed.
  - Each part of `scrape` is a method proved against a function from the
    state before it to the state after it:
    - the set-up before the `try`;
    - the `try` block;
    - the timeout handler in the `catch` block;
    - the `finally` block.
  - Lemmas over the run function cover the following:
    - what the output file holds;
    - when `debug.html` is written;
    - which error escapes;
    - how many times the browser is closed.

Two behaviours of the code are easy to miss, and the model states both:

- **Closing the browser.** The `finally` that closes the browser belongs to
  the `try` at src/scraper.ts:62-180 and covers only that block. Creating the
  context or the page, installing request routing and setting the headers
  (src/scraper.ts:30-60) run after the launch and before the `try`. When one
  of them throws, the error escapes and the launched browser is never closed.
  `ScrapeSetupFailure` states this. `ScrapeClosesOnce` states that every run
  that gets past the set-up closes the browser exactly once, as its last call.
- **Brand pattern in `isValidOffer`.** `isValidOffer` matches titles against
  `DEFAULT_CONFIG.brandPattern` (src/utils.ts:135), whatever the run's
  configuration says. The fallback extractor matches against the configured
  `brandPattern` (src/utils.ts:118). So a custom pattern filters the fallback
  offers but not the live ones. `FallbackAgreesWithValidator` and
  `FallbackDivergesFromValidator` state both sides.

## Model

| member | source | states |
|---|---|---|
| JsString.Trim | src/utils.ts:141 | `trim` gives a slice of the text with only white space before and after it, neither starting nor ending with white space; "" exactly for white-space-only text |
| JsString.TrimUnique | src/utils.ts:141 | those properties fix the result: any string that has them is the trimmed text |
| JsString.TrimIdempotent | src/scraper.ts:105 | trimming trimmed text changes nothing |
| JsString.ReplaceNewlines | src/utils.ts:141 | `replace(/\n/g, " ")` keeps the length and turns each line feed into one space, leaving every other character in place |
| Utils.BrandAt | src/utils.ts:42 | one match of `/Red\s?Bull|Monster/i` starting at a given index (helper of DefaultBrand; no contract of its own) |
| Utils.DefaultBrand | src/utils.ts:42 | the default pattern matches somewhere in the text; MonsterInTitle, RedBullInTitle and ShortTitleOffBrand state which texts it accepts and rejects |
| Utils.MonsterInTitle | src/utils.ts:42 | a title holding "Monster" in any letter case anywhere passes the default pattern |
| Utils.RedBullInTitle | src/utils.ts:42 | a title holding "Red", at most one white-space character and "Bull", in any letter case, anywhere passes the default pattern |
| Utils.IsValidOffer | src/utils.ts:131-137 | `isValidOffer` as written: title present, non-empty, non-blank once trimmed, and matched by the default pattern; IsValidOfferIff and BlankTitleInvalid state what it accepts |
| Utils.IsValidOfferIff | src/utils.ts:131-137 | isValidOffer holds exactly when the title is present and contains a match of the default brand pattern; the emptiness tests are implied by the match |
| Utils.ShortTitleOffBrand | src/utils.ts:42 | every match of the default brand pattern ("Monster", "Red Bull" with or without the space) has at least seven characters, so a shorter title never matches |
| Utils.BlankTitleInvalid | src/utils.ts:133-134 | a missing, empty or white-space-only title is rejected |
| Utils.AsOffer | src/utils.ts:131 | a valid raw record read as an offer loses nothing: reading it back gives the raw record |
| Utils.CleanText | src/utils.ts:139-142 | `null` exactly for a missing or empty text; otherwise the trimmed text with each line feed replaced by a space, character by character, so "" for white space only and no white space at the ends |
| Utils.IsTimeout | src/scraper.ts:144 | `error?.name === 'TimeoutError'`; OwnErrorsAreNotTimeouts states that only a foreign error can pass it |
| Utils.OwnErrorsAreNotTimeouts | src/utils.ts:144-163 | ScrapingError, ChallengeDetectedError and ValidationError never have the name "TimeoutError" |
| Utils.FirstMarker | src/utils.ts:111 | the leftmost index where "Verfügbar bei" (any case) followed by white space matches, or none when there is no such index |
| Utils.SkipSpaces | src/utils.ts:111 | `\s+` consumes the whole run of white space after the marker |
| Utils.LineEnd | src/utils.ts:111 | `(.*)` stops at the first line terminator |
| Utils.RetailerOf | src/utils.ts:110-112 | a retailer is found exactly when the marker and white space occur somewhere; it is trimmed and holds no line break |
| Utils.RetailerAfterMarker | src/utils.ts:110-112 | with no earlier match, the marker in any case, a run of white space and a line that starts with a visible character name that line, trimmed, as retailer, whatever follows the line break |
| Utils.ContainerOffer | src/utils.ts:105-126 | a container yields an offer exactly when its trimmed title is non-empty and matches the configured pattern; price trimmed or `null` when blank; link is the `href` or `null`; retailer from the span |
| Utils.FallbackOffers | src/utils.ts:105-127 | the offers the `each` loop pushes, as a filter-and-map over the containers; the lemmas below state its properties |
| Utils.FallbackOffersAppend | src/utils.ts:105-127 | the extractor keeps container order and emits at most one offer per container |
| Utils.FallbackOffersMembers | src/utils.ts:105-127 | an offer is emitted exactly when some container yields it |
| Utils.FallbackTitles | src/utils.ts:113-118 | every emitted title is non-empty, trimmed and matches the configured pattern |
| Utils.FallbackSkipsOffBrand | src/utils.ts:118-126 | a container with an empty or off-brand title contributes nothing |
| Utils.FallbackAgreesWithValidator | src/utils.ts:131-137 | with the default pattern every fallback offer passes isValidOffer |
| Utils.FallbackDivergesFromValidator | src/utils.ts:135 | with another pattern the fallback can emit an offer that isValidOffer rejects |
| Utils.ExamineContainer | src/utils.ts:105-126 | the `each` callback computes, for one container, exactly the offer the extractor specifies, or none |
| Utils.ParseOffersFromHtml | src/utils.ts:99-130 | the loop over the containers returns exactly the extractor's offers |
| Page.ChallengeDetected | src/scraper.ts:69-80 | the in-page challenge check as written; BodyPhraseDetected, TitlePhraseDetected and TitleIndicatorIgnored state what it detects |
| Page.BodyPhraseDetected | src/scraper.ts:72-79 | any of the four indicator phrases anywhere in the body text reveals a challenge |
| Page.TitlePhraseDetected | src/scraper.ts:71-79 | "Nur einen Moment" anywhere in the title reveals a challenge |
| Page.TitleIndicatorIgnored | src/scraper.ts:69-80 | the indicators are searched only in the body: a title "Cloudflare" alone is not a challenge |
| Page.TrimmedText | src/scraper.ts:105 | the title is missing exactly when its element or text is, and otherwise it is the trimmed text |
| Page.Collapse | src/scraper.ts:107-111 | price and retailer are `null` when missing or blank, otherwise the trimmed text with each line feed replaced by a space, character by character: non-empty and without white space at the ends |
| Page.CollapseVersusCleanText | src/scraper.ts:110-111 | the live normalisation equals cleanText except on white-space-only text, where it gives `null` and cleanText "" |
| Page.CardLink | src/scraper.ts:106 | the link is the `href` attribute if non-empty, else the resolved `href`, else `null`; never "" |
| Page.NormaliseCard | src/scraper.ts:100-130 | the record built for one card and copied into RawOfferData; the contracts of TrimmedText, Collapse and CardLink state its fields |
| Page.LiveOffers | src/scraper.ts:123-131 | `.filter(isValidOffer)` over the normalised cards; the lemmas below state its properties |
| Page.LiveOffersAppend | src/scraper.ts:123-131 | the live filter keeps card order and keeps at most one offer per card |
| Page.LiveStepYields | src/scraper.ts:123-131 | a card that yields an offer has a valid normalised record, and the offer is that record |
| Page.LiveStepKeeps | src/scraper.ts:123-131 | a card whose normalised record is valid yields that record |
| Page.LiveOffersSound | src/scraper.ts:123-131 | every kept offer is the record of a valid card, passes isValidOffer itself and has a trimmed title |
| Page.LiveOffersComplete | src/scraper.ts:123-131 | every card whose record is valid is kept |
| Page.LiveDropsInvalid | src/scraper.ts:131 | a card whose record is invalid contributes nothing |
| Page.PriceNewlinesDiffer | src/utils.ts:114-115 | the fallback keeps inner line feeds of a price, the live path replaces them by spaces |
| Scraper.Setup | src/scraper.ts:21-60 | the set-up before the `try`, from the state before it to the state after it; SetupSpec states its outcome |
| Scraper.TryBlock | src/scraper.ts:62-140 | the `try` block as a state function; TryBlockSpec and TryBlockWrites state its outcome |
| Scraper.CatchBlock | src/scraper.ts:142-177 | the `catch` block as a state function; CatchBlockSpec, CatchBlockDiagnostics and CatchBlockIgnoresOtherErrors state its outcome |
| Scraper.ScrapeRun | src/scraper.ts:19-181 | a whole `scrape` run: set-up, `try`, `catch` on a throw, then the close of the `finally`; the lemmas below state its outcome |
| Scraper.SetupSpec | src/scraper.ts:21-60 | set-up fails exactly when launch, context, page, routing (when enabled) or headers fail; a cookie failure is swallowed; no file is written, the browser is not closed |
| Scraper.TryBlockSpec | src/scraper.ts:62-140 | the `try` block throws the error of its first failing step or the challenge error; when it throws, the output file is untouched |
| Scraper.TryBlockWrites | src/scraper.ts:123-138 | when nothing fails, the output file holds exactly the valid offers of the cards |
| Scraper.CatchBlockSpec | src/scraper.ts:142-177 | the handler suppresses the error exactly for a timeout rescued by a non-empty, written fallback; otherwise it rethrows the original error and leaves the output file alone |
| Scraper.CatchBlockDiagnostics | src/scraper.ts:144-150 | `debug.html` is written exactly for a timeout whose content was captured and written, and holds that content |
| Scraper.CatchBlockIgnoresOtherErrors | src/scraper.ts:144-177 | a non-timeout error skips capture and fallback entirely and is rethrown |
| Scraper.ScrapeSetupFailure | src/scraper.ts:21-60 | a set-up failure escapes with no file written and no close of the browser |
| Scraper.ScrapeClosesOnce | src/scraper.ts:178-180 | after a successful set-up the browser is closed exactly once, as the last call, on every path |
| Scraper.ScrapeSuccess | src/scraper.ts:62-140 | when every step succeeds the run throws nothing and the output file holds exactly the valid offers, even none; `debug.html` is untouched |
| Scraper.ScrapeFailure | src/scraper.ts:142-180 | when the `try` throws, the run succeeds exactly when the fallback rescues a timeout, and then holds the fallback offers; otherwise the original error escapes and the output file is untouched |
| Scraper.ScrapeChallenge | src/scraper.ts:82-84 | a detected challenge throws ChallengeDetectedError before any wait or extraction; no capture or fallback, no file written, then the close |
| Scraper.ScrapeWritesIffSucceeds | src/scraper.ts:138-177 | a run throws nothing exactly when set-up passes and the live path passes or a timeout is rescued; then the output file holds the valid offers of the cards, or the fallback offers after a timeout; a run that throws leaves the output file untouched |
| Scraper.Merge | src/scraper.ts:185 | `{ ...base, ...o }` key by key; MergeNothing, MergeEverything, MergeIdempotent and MergeLayers state its properties |
| Scraper.FinalConfig | src/scraper.ts:184-185 | the configuration `runScraper` uses: the defaults, overridden by the keys the caller passes, if any |
| Scraper.MergeNothing | src/scraper.ts:185 | an override without keys keeps every default |
| Scraper.MergeEverything | src/scraper.ts:185 | an override with every key replaces every default |
| Scraper.MergeIdempotent | src/scraper.ts:185 | applying the same override twice is applying it once |
| Scraper.MergeLayers | src/scraper.ts:185 | two overrides spread in turn equal their own spread, the later key winning |
| Scraper.World.Perform | src/scraper.ts:21-67 | a collaborator call is appended to the call log, nothing else changes |
| Scraper.World.WriteOutput | src/scraper.ts:138 | writing the output file replaces its whole contents, nothing else changes |
| Scraper.World.WriteDebug | src/scraper.ts:149 | writing `debug.html` replaces its contents, nothing else changes |
| Scraper.World.CloseBrowser | src/scraper.ts:179 | `browser.close()` is logged and counted |
| Scraper.SetUp | src/scraper.ts:21-60 | the set-up steps change the world and return the error as the set-up function says |
| Scraper.Attempt | src/scraper.ts:62-140 | the `try` block changes the world and throws as the `try` function says |
| Scraper.Recover | src/scraper.ts:142-177 | the handler, with its `attemptedFallback` flag, changes the world and rethrows as the `catch` function says |
| Scraper.Scrape | src/scraper.ts:19-181 | `scrape` changes the world and lets an error escape exactly as the run function says |
| Scraper.RunScraper | src/scraper.ts:184-196 | `runScraper` merges the configuration, rethrows the error of `scrape`, and otherwise returns exactly the offers in the output file |

## Left out

- Playwright and cheerio are not modelled. Their calls are inputs: whether each returns, and with what, or throws. The markup parser is a function from markup to the `article.thread` containers, already read out.
- The file system is not modelled. `path.dirname`, `path.join`, `existsSync` and `mkdirSync` are left out, as is an output path that names `debug.html` itself. There is one slot for the output file and one for `debug.html`. For the output file, directory creation and the write fail together as one outcome.
- `JSON.stringify` and `JSON.parse` are left out: reading the output file back gives the offers written.
- `new Date().toISOString()` is an input: each container or card carries its clock reading.
- The navigation and wait timeouts (`timeout * 1.5`, `timeout`) and the 750 ms settle delay are not modelled, because they are timing. A timeout is an error named "TimeoutError" that a call may throw.
- Console logging, the `require.main` entry point and `process.exit` are not modelled, because they are output only. The same holds for the `instanceof ChallengeDetectedError` branch, which only logs.
- The request-routing callback that aborts images, fonts and media is not modelled, because it is browser behaviour. Only whether routing is installed is recorded.
- `browser.close()` throwing is not modelled, and neither is `readFileSync` failing after a successful run.
- Utils.ParseOffersFromHtml: `cheerio.load` and the selector queries never throw in the model: the parse is a total function from markup to containers. A throwing parse inside the fallback (src/scraper.ts:152) would be swallowed by the inner `catch` and the timeout rethrown; that path is not represented.
- Scraper.CatchBlockSpec: writing `debug.html` (src/scraper.ts:148-149) creates no directory first, so when the output directory is missing that write throws and the fallback never runs; the model takes that write's outcome as an independent input and does not tie it to the directory.
- Scraper.World.WriteOutput: a `writeFileSync` that fails part way may leave a truncated file; the model treats a failed write as leaving the previous contents in place.
- Characters are Unicode scalar values, not UTF-16 code units. Every character the code compares against lies in the Basic Multilingual Plane.
- No general regular-expression engine is modelled, only the two fixed patterns. Case folding under the `i` flag covers the pattern letters only: ASCII and `ü`.
- In a configuration override, a key present with the value `undefined` can be expressed only for the optional fields, not for the required ones.
- dist/scraper.js, dist/utils.js and dist/utils.d.ts are not part of this model. They are the compiled form of the two source files.
