/** Offer records, run configuration, the offer validator, `cleanText`, the
    error kinds and the static fallback extractor of src/utils.ts. */
module Utils {
  import opened JsString
  import opened Collections

  /** OfferData: a kept offer. `price`, `retailer` and `link` are `null` when
      there is no value, never missing. */
  datatype Offer = Offer(
    title: string,
    price: Option<string>,
    retailer: Option<string>,
    link: Option<string>,
    scrapedAt: string)

  /** RawOfferData (and PageOfferData, which has the same shape): an extracted
      record whose title may be `undefined`. */
  datatype RawOffer = RawOffer(
    title: Option<string>,
    price: Option<string>,
    retailer: Option<string>,
    link: Option<string>,
    scrapedAt: string)

  datatype Cookie = Cookie(name: string, value: string, domain: string, path: Option<string>)

  /** ScrapingConfig. The brand pattern is a regular expression in the source;
      here it is the predicate "the expression matches somewhere in the text".
      The timeout is in milliseconds. Optional fields are `None` when absent. */
  datatype Config = Config(
    url: string,
    headless: bool,
    timeout: int,
    outputPath: string,
    brandPattern: string -> bool,
    cookies: Option<seq<Cookie>>,
    userAgent: Option<string>,
    bypassCloudflare: Option<bool>,
    fallbackParse: Option<bool>)

  /** One match of `/Red\s?Bull|Monster/i` that starts at index `i`. */
  predicate BrandAt(s: string, i: int) {
    || MatchesAt(s, i, "monster")
    || (&& MatchesAt(s, i, "red")
        && (|| MatchesAt(s, i + 3, "bull")
            || (i + 3 < |s| && IsSpace(s[i + 3]) && MatchesAt(s, i + 4, "bull"))))
  }

  /** `s.match(/Red\s?Bull|Monster/i)` is not null: the default brand pattern. */
  predicate DefaultBrand(s: string) {
    exists i | 0 <= i < |s| :: BrandAt(s, i)
  }

  /** A title holding any case form of "Monster" passes the default pattern. */
  lemma MonsterInTitle(before: string, word: string, after: string)
    requires |word| == 7 && MatchesAt(word, 0, "monster")
    ensures DefaultBrand(before + word + after)
  {
    var s := before + word + after;
    assert s[|before|..|before| + |word|] == word;
    MatchesInside(s, |before|, word, "monster");
    assert BrandAt(s, |before|);
  }

  /** A title holding any case form of "Red", at most one white-space
      character and "Bull" passes the default pattern. */
  lemma RedBullInTitle(before: string, red: string, gap: string, bull: string, after: string)
    requires |red| == 3 && MatchesAt(red, 0, "red")
    requires |gap| <= 1 && AllSpace(gap)
    requires |bull| == 4 && MatchesAt(bull, 0, "bull")
    ensures DefaultBrand(before + red + gap + bull + after)
  {
    var s := before + red + gap + bull + after;
    var i, j := |before|, |before| + 3 + |gap|;
    assert s[i..i + 3] == red && s[j..j + 4] == bull;
    MatchesInside(s, i, red, "red");
    MatchesInside(s, j, bull, "bull");
    assert |gap| == 1 ==> s[i + 3] == gap[0];
    assert BrandAt(s, i);
  }

  const DefaultCookies: seq<Cookie> := [
    Cookie("__eoi", "ID=c732aabef2c61ea8:T=1762855520:RT=1762855520:S=AA-AfjZM6j3Ng9P8ple2Bk4AjeMR", ".mydealz.de", Some("/")),
    Cookie("cookie_policy_agreement", "3", ".mydealz.de", Some("/")),
    Cookie("dont-track", "1", ".mydealz.de", Some("/")),
    Cookie("f_c", "0", ".mydealz.de", Some("/")),
    Cookie("f_v", "%22eb7cdb48-bee5-11f0-9279-0242ac110002%22", ".mydealz.de", Some("/")),
    Cookie("g_p", "0", ".mydealz.de", Some("/")),
    Cookie("pepper_session", "%22QbEid4p9cpIWWKuz6sHJzx8wXkKBem1HnSZcwAIK%22", ".mydealz.de", Some("/")),
    Cookie("u_l", "0", ".mydealz.de", Some("/"))
  ]

  /** DEFAULT_CONFIG. */
  const DefaultConfig: Config := Config(
    "https://www.mydealz.de/gruppe/energy-drinks?retailers=78%2C122%2C27%2C2977%2C49%2C2561&hide_expired=1&sortBy=new&temperatureFrom=any",
    true,
    5000,
    "data/offers.json",
    DefaultBrand,
    Some(DefaultCookies),
    Some("Chrome/118.0.0.0"),
    Some(true),
    Some(true))

  /** isValidOffer. The title is matched against the DEFAULT brand pattern,
      whatever configuration the run uses. */
  predicate IsValidOffer(offer: RawOffer) {
    && offer.title.Some?
    && offer.title.value != ""
    && |Trim(offer.title.value)| > 0
    && DefaultBrand(offer.title.value)
  }

  /** The brand match alone decides validity: a match contains a letter, so a
      matching title is never empty nor white space only. */
  lemma IsValidOfferIff(offer: RawOffer)
    ensures IsValidOffer(offer) <==> offer.title.Some? && DefaultBrand(offer.title.value)
  {
    if offer.title.Some? && DefaultBrand(offer.title.value) {
      var t := offer.title.value;
      var i :| 0 <= i < |t| && BrandAt(t, i);
      if MatchesAt(t, i, "monster") {
        assert FoldsTo(t[i + 0], "monster"[0]);
      } else {
        assert FoldsTo(t[i + 0], "red"[0]);
      }
    }
  }

  /** A missing, empty or white-space-only title is rejected. */
  lemma BlankTitleInvalid(offer: RawOffer)
    requires offer.title.None? || AllSpace(offer.title.value)
    ensures !IsValidOffer(offer)
  {
  }

  /** The narrowing `offer is OfferData`: a valid raw record read as an offer. */
  function AsOffer(raw: RawOffer): (o: Offer)
    requires IsValidOffer(raw)
    ensures AsRaw(o) == raw
  {
    Offer(raw.title.value, raw.price, raw.retailer, raw.link, raw.scrapedAt)
  }

  /** An offer seen as a raw record (every OfferData is a RawOfferData). */
  function AsRaw(o: Offer): RawOffer {
    RawOffer(Some(o.title), o.price, o.retailer, o.link, o.scrapedAt)
  }

  /** cleanText: `null` for a missing or empty text, otherwise the trimmed text
      with each line feed replaced by a space. */
  function CleanText(text: Option<string>): (r: Option<string>)
    ensures r.None? <==> text.None? || text.value == ""
    ensures r.Some? ==> |r.value| == |Trim(text.value)|
    ensures r.Some? ==> forall k | 0 <= k < |r.value| :: r.value[k] != '\n'
    ensures r.Some? && r.value != [] ==> !IsSpace(r.value[0]) && !IsSpace(r.value[|r.value| - 1])
    ensures r.Some? && AllSpace(text.value) ==> r.value == ""
    ensures r.Some? ==> forall k | 0 <= k < |r.value| ::
      r.value[k] == if Trim(text.value)[k] == '\n' then ' ' else Trim(text.value)[k]
  {
    if text.None? || text.value == "" then None else Some(ReplaceNewlines(Trim(text.value)))
  }

  /** `x || null` for a text value: `null` when missing or empty. */
  function OrNull(text: Option<string>): (r: Option<string>)
    ensures r.None? <==> text.None? || text.value == ""
    ensures r.Some? ==> r == text
  {
    if text.None? || text.value == "" then None else text
  }

  /** The error classes: ScrapingError (with its optional cause),
      ChallengeDetectedError, ValidationError, and any other error a
      collaborator throws, known by its `name` (Playwright's timeouts are
      named "TimeoutError"). */
  datatype ScrapeError =
    | ScrapingError(message: string, cause: Option<ScrapeError>)
    | ChallengeDetectedError(message: string)
    | ValidationError(message: string)
    | Thrown(name: string, message: string)

  const ChallengeMessage := "Cloudflare/Turnstile challenge detected instead of target content"

  /** The `name` property of an error. */
  function Name(e: ScrapeError): string {
    match e
    case ScrapingError(_, _) => "ScrapingError"
    case ChallengeDetectedError(_) => "ChallengeDetectedError"
    case ValidationError(_) => "ValidationError"
    case Thrown(name, _) => name
  }

  /** `error?.name === 'TimeoutError'`. */
  predicate IsTimeout(e: ScrapeError) {
    Name(e) == "TimeoutError"
  }

  /** The error classes of this file are never taken for a timeout. */
  lemma OwnErrorsAreNotTimeouts(e: ScrapeError)
    requires !e.Thrown?
    ensures !IsTimeout(e)
  {
  }

  /** What the fallback extractor reads from one `article.thread` element: the
      text of its first title link ("" when there is none) and that link's
      `href` attribute, the text of its first price element ("" when none),
      the text of its first span containing "Verfügbar bei" ("" when none), and
      the clock reading taken when the element is handled. */
  datatype Container = Container(
    titleText: string,
    titleHref: Option<string>,
    priceText: string,
    retailerSpanText: string,
    stamp: string)

  /** The literal part of `/Verfügbar bei\s+(.*)/i`, in lower case. */
  const Marker := "verf\U{FC}gbar bei"

  /** `/Verfügbar bei\s+/i` matches at index `i`. */
  predicate MarkerAt(s: string, i: int) {
    MatchesAt(s, i, Marker) && i + |Marker| < |s| && IsSpace(s[i + |Marker|])
  }

  /** The leftmost index at or after `from` where the marker matches. */
  function FirstMarker(s: string, from: nat): (r: Option<nat>)
    decreases |s| - from
    ensures r.Some? ==> from <= r.value < |s| && MarkerAt(s, r.value)
    ensures r.Some? ==> forall k | from <= k < r.value :: !MarkerAt(s, k)
    ensures r.None? ==> forall k | from <= k < |s| :: !MarkerAt(s, k)
  {
    if from >= |s| then None
    else if MarkerAt(s, from) then Some(from)
    else FirstMarker(s, from + 1)
  }

  /** The end of the longest run of white space starting at `j` (greedy `\s+`). */
  function SkipSpaces(s: string, j: nat): (r: nat)
    requires j <= |s|
    decreases |s| - j
    ensures j <= r <= |s| && AllSpace(s[j..r])
    ensures r == |s| || !IsSpace(s[r])
  {
    if j < |s| && IsSpace(s[j]) then SkipSpaces(s, j + 1) else j
  }

  /** The first line terminator at or after `j`, or the end (greedy `.*`). */
  function LineEnd(s: string, j: nat): (r: nat)
    requires j <= |s|
    decreases |s| - j
    ensures j <= r <= |s|
    ensures forall k | j <= k < r :: !IsLineTerminator(s[k])
    ensures r == |s| || IsLineTerminator(s[r])
  {
    if j < |s| && !IsLineTerminator(s[j]) then LineEnd(s, j + 1) else j
  }

  /** `text.match(/Verfügbar bei\s+(.*)/i)`: group 1 of the leftmost match,
      trimmed, or `null` when nothing matches. A retailer is found exactly
      when the marker followed by white space occurs; it is trimmed and holds
      no line break. */
  function RetailerOf(text: string): (r: Option<string>)
    ensures r.Some? <==> exists i | 0 <= i < |text| :: MarkerAt(text, i)
    ensures r.Some? ==> Trim(r.value) == r.value
    ensures r.Some? ==> forall k | 0 <= k < |r.value| :: !IsLineTerminator(r.value[k])
  {
    match FirstMarker(text, 0)
    case None => None
    case Some(i) =>
      var j := SkipSpaces(text, i + |Marker|);
      var e := LineEnd(text, j);
      var line := text[j..e];
      assert forall k | 0 <= k < |line| :: line[k] == text[j + k];
      TrimmedLine(line);
      TrimIdempotent(line);
      Some(Trim(line))
  }

  /** A line without line terminators, trimmed, is trimmed and still has none. */
  lemma TrimIsInfix(s: string, k: nat)
    requires k < |Trim(s)|
    ensures Trim(s)[k] in s
  {
  }

  lemma TrimmedLine(line: string)
    requires forall k | 0 <= k < |line| :: !IsLineTerminator(line[k])
    ensures forall k | 0 <= k < |Trim(line)| :: !IsLineTerminator(Trim(line)[k])
  {
    forall k | 0 <= k < |Trim(line)|
      ensures !IsLineTerminator(Trim(line)[k])
    {
      TrimIsInfix(line, k);
    }
  }

  /** The first marker is the one with no marker before it. */
  lemma FirstMarkerAt(s: string, p: nat)
    requires MarkerAt(s, p) && forall k | 0 <= k < p :: !MarkerAt(s, k)
    ensures FirstMarker(s, 0) == Some(p)
  {
  }

  /** The white-space run starting at `j` ends at `e`. */
  lemma {:induction false} SkipSpacesTo(s: string, j: nat, e: nat)
    requires j <= e <= |s| && AllSpace(s[j..e]) && (e == |s| || !IsSpace(s[e]))
    ensures SkipSpaces(s, j) == e
    decreases e - j
  {
    if j < e {
      assert s[j] == s[j..e][0];
      assert s[j + 1..e] == s[j..e][1..];
      SkipSpacesTo(s, j + 1, e);
    }
  }

  /** The line starting at `j` ends at `e`. */
  lemma {:induction false} LineEndAt(s: string, j: nat, e: nat)
    requires j <= e <= |s| && (e == |s| || IsLineTerminator(s[e]))
    requires forall k | j <= k < e :: !IsLineTerminator(s[k])
    ensures LineEnd(s, j) == e
    decreases e - j
  {
    if j < e {
      LineEndAt(s, j + 1, e);
    }
  }

  /** Where the text holds no earlier match, the marker `m`, white space `ws`
      and a line `line` that starts with a visible character name the trimmed
      line as retailer, whatever comes after the line break that ends it
      ("Verfügbar bei Rewe" names "Rewe"). The white space may span line
      breaks: `\s+` consumes them and the retailer is read from the next line. */
  lemma RetailerAfterMarker(pre: string, m: string, ws: string, line: string, rest: string)
    requires forall i | 0 <= i < |pre| :: !MarkerAt(pre + m + ws + line + rest, i)
    requires |m| == |Marker| && MatchesAt(m, 0, Marker)
    requires ws != [] && AllSpace(ws)
    requires line != [] && !IsSpace(line[0])
    requires forall k | 0 <= k < |line| :: !IsLineTerminator(line[k])
    requires rest == [] || IsLineTerminator(rest[0])
    ensures RetailerOf(pre + m + ws + line + rest) == Some(Trim(line))
  {
    var s := pre + m + ws + line + rest;
    var i, j, e, f := |pre|, |pre| + |m|, |pre| + |m| + |ws|, |pre| + |m| + |ws| + |line|;
    assert s[i..j] == m && s[j..e] == ws && s[e..f] == line;
    MatchesInside(s, i, m, Marker);
    assert s[j] == ws[0] && s[e] == line[0];
    assert f < |s| ==> s[f] == rest[0];
    forall k | e <= k < f
      ensures !IsLineTerminator(s[k])
    {
      assert s[k] == line[k - e];
    }
    RetailerAt(s, i, e, f);
  }

  /** The retailer read after a marker at `i`, white space up to `e` and a line up to `f`. */
  lemma RetailerAt(s: string, i: nat, e: nat, f: nat)
    requires MarkerAt(s, i) && forall k | 0 <= k < i :: !MarkerAt(s, k)
    requires i + |Marker| <= e <= f <= |s|
    requires AllSpace(s[i + |Marker|..e]) && (e == |s| || !IsSpace(s[e]))
    requires forall k | e <= k < f :: !IsLineTerminator(s[k])
    requires f == |s| || IsLineTerminator(s[f])
    ensures RetailerOf(s) == Some(Trim(s[e..f]))
  {
    FirstMarkerAt(s, i);
    SkipSpacesTo(s, i + |Marker|, e);
    LineEndAt(s, e, f);
  }

  /** The offer one container yields, if any: the trimmed title must be
      non-empty and match the configured brand pattern. The price is the
      trimmed text, `null` when that is empty; the link is the `href`
      attribute, `null` when missing or empty. */
  function ContainerOffer(c: Container, brand: string -> bool): (r: Option<Offer>)
    ensures r.Some? <==> Trim(c.titleText) != "" && brand(Trim(c.titleText))
    ensures r.Some? ==> r.value.title == Trim(c.titleText) && r.value.scrapedAt == c.stamp
    ensures r.Some? ==> (r.value.price.None? <==> AllSpace(c.priceText))
    ensures r.Some? && r.value.price.Some? ==> r.value.price.value == Trim(c.priceText)
    ensures r.Some? ==> (r.value.link.None? <==> c.titleHref.None? || c.titleHref.value == "")
    ensures r.Some? && r.value.link.Some? ==> r.value.link == c.titleHref
    ensures r.Some? ==> r.value.retailer == RetailerOf(c.retailerSpanText)
  {
    var title := Trim(c.titleText);
    if title != "" && brand(title) then
      Some(Offer(title, OrNull(Some(Trim(c.priceText))), RetailerOf(c.retailerSpanText), OrNull(c.titleHref), c.stamp))
    else None
  }

  /** The per-container step of the extractor as a function value. */
  function ContainerStep(brand: string -> bool): Container -> Option<Offer> {
    c => ContainerOffer(c, brand)
  }

  /** The offers of a run of containers, in container order. */
  function FallbackOffers(cs: seq<Container>, brand: string -> bool): seq<Offer> {
    FilterMap(ContainerStep(brand), cs)
  }

  /** One more container adds its offer, if any, at the end. */
  lemma FallbackOffersStep(cs: seq<Container>, i: nat, brand: string -> bool)
    requires i < |cs|
    ensures FallbackOffers(cs[..i + 1], brand) ==
      FallbackOffers(cs[..i], brand) + (if ContainerOffer(cs[i], brand).Some? then [ContainerOffer(cs[i], brand).value] else [])
  {
    assert cs[..i + 1][..i] == cs[..i];
  }

  /** Extraction distributes over concatenation: container order is kept, and
      there is at most one offer per container. */
  lemma FallbackOffersAppend(a: seq<Container>, b: seq<Container>, brand: string -> bool)
    ensures FallbackOffers(a + b, brand) == FallbackOffers(a, brand) + FallbackOffers(b, brand)
    ensures |FallbackOffers(a, brand)| <= |a|
  {
    FilterMapAppend(ContainerStep(brand), a, b);
  }

  /** An offer is emitted exactly when some container yields it. */
  lemma FallbackOffersMembers(cs: seq<Container>, brand: string -> bool, o: Offer)
    ensures o in FallbackOffers(cs, brand) <==> exists k | 0 <= k < |cs| :: ContainerOffer(cs[k], brand) == Some(o)
  {
    FilterMapMembers(ContainerStep(brand), cs, o);
  }

  /** Every emitted offer has a non-empty, already trimmed title that matches
      the configured brand pattern. */
  lemma FallbackTitles(cs: seq<Container>, brand: string -> bool, o: Offer)
    requires o in FallbackOffers(cs, brand)
    ensures o.title != "" && Trim(o.title) == o.title && brand(o.title)
  {
    FallbackOffersMembers(cs, brand, o);
    var k :| 0 <= k < |cs| && ContainerOffer(cs[k], brand) == Some(o);
    TrimIdempotent(cs[k].titleText);
  }

  /** A container whose trimmed title is empty or off-brand contributes
      nothing, and raises no error. */
  lemma FallbackSkipsOffBrand(cs: seq<Container>, k: nat, brand: string -> bool)
    requires k < |cs|
    requires Trim(cs[k].titleText) == "" || !brand(Trim(cs[k].titleText))
    ensures FallbackOffers(cs, brand) == FallbackOffers(cs[..k] + cs[k + 1..], brand)
  {
    FilterMapSkip(ContainerStep(brand), cs, k);
  }

  /** With the default brand pattern every fallback offer also passes isValidOffer. */
  lemma FallbackAgreesWithValidator(cs: seq<Container>, o: Offer)
    requires o in FallbackOffers(cs, DefaultBrand)
    ensures IsValidOffer(AsRaw(o))
  {
    FallbackTitles(cs, DefaultBrand, o);
    IsValidOfferIff(AsRaw(o));
  }

  /** Every match of the default brand pattern is at least seven characters
      long ("Monster", "RedBull"), so a shorter title never matches. */
  lemma ShortTitleOffBrand(s: string)
    requires |s| < 7
    ensures !DefaultBrand(s)
  {
  }

  /** With another brand pattern the two filters part: a pattern that accepts
      every title lets the fallback emit an offer that isValidOffer rejects. */
  lemma FallbackDivergesFromValidator()
    ensures var c := Container("Cola", None, "", "", "t");
      && ContainerOffer(c, _ => true).Some?
      && !IsValidOffer(AsRaw(ContainerOffer(c, _ => true).value))
  {
    assert !IsSpace("Cola"[0]);
    ShortTitleOffBrand(Trim("Cola"));
  }

  /** The `each` callback of parseOffersFromHtml for one container: the
      offer it pushes, if any. */
  method ExamineContainer(c: Container, brand: string -> bool) returns (offer: Option<Offer>)
    ensures offer == ContainerOffer(c, brand)
  {
    var retailer := RetailerOf(c.retailerSpanText);
    var title := Trim(c.titleText);
    var price := OrNull(Some(Trim(c.priceText)));
    var link := OrNull(c.titleHref);
    if title != "" && brand(title) {
      offer := Some(Offer(title, price, retailer, link, c.stamp));
    } else {
      offer := None;
    }
  }

  /** parseOffersFromHtml: the markup parser `select` yields the `article.thread`
      containers of `html`; each is examined in order and its offer, if any,
      pushed onto the result. */
  method ParseOffersFromHtml(html: string, select: string -> seq<Container>, config: Config)
    returns (offers: seq<Offer>)
    ensures offers == FallbackOffers(select(html), config.brandPattern)
  {
    var containers := select(html);
    offers := [];
    for i := 0 to |containers|
      invariant offers == FallbackOffers(containers[..i], config.brandPattern)
    {
      var offer := ExamineContainer(containers[i], config.brandPattern);
      FallbackOffersStep(containers, i, config.brandPattern);
      if offer.Some? {
        offers := offers + [offer.value];
      }
    }
    assert containers[..|containers|] == containers;
  }
}
