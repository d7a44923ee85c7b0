/** The code of src/scraper.ts that runs inside the page — the anti-bot
    challenge check and the normalisation of offer cards — and the validity
    filter the scraper applies to the normalised cards. */
module Page {
  import opened JsString
  import opened Collections
  import opened Utils

  /** What the challenge check reads: `document.title` and the body's
      `textContent`, `None` where the document, its body or the text is missing. */
  datatype Document = Document(title: Option<string>, bodyText: Option<string>)

  const ChallengeTitle := "Nur einen Moment"

  /** The four phrases searched for in the body text. */
  const ChallengeIndicators: seq<string> := [
    "Best\U{E4}tigen Sie, dass Sie ein Mensch sind",
    "Cloudflare",
    "Turnstile",
    "muss die Sicherheit Ihrer Verbindung \U{FC}berpr\U{FC}fen"
  ]

  /** `text || ''`. */
  function OrEmpty(text: Option<string>): string {
    if text.Some? then text.value else ""
  }

  /** `phrases.some(t => text.includes(t))`. */
  predicate IncludesSome(text: string, phrases: seq<string>) {
    exists k | 0 <= k < |phrases| :: Includes(text, phrases[k])
  }

  /** The in-page challenge check: the title mentions "Nur einen Moment" or the
      body text contains one of the indicator phrases. */
  predicate ChallengeDetected(d: Document) {
    || Includes(OrEmpty(d.title), ChallengeTitle)
    || IncludesSome(OrEmpty(d.bodyText), ChallengeIndicators)
  }

  /** An indicator phrase anywhere in the body text reveals a challenge. */
  lemma BodyPhraseDetected(d: Document, before: string, k: nat, after: string)
    requires k < |ChallengeIndicators|
    requires d.bodyText == Some(before + ChallengeIndicators[k] + after)
    ensures ChallengeDetected(d)
  {
    var body := before + ChallengeIndicators[k] + after;
    assert OccursAt(body, ChallengeIndicators[k], |before|) by {
      assert body[|before|..|before| + |ChallengeIndicators[k]|] == ChallengeIndicators[k];
    }
  }

  /** "Nur einen Moment" anywhere in the title reveals a challenge. */
  lemma TitlePhraseDetected(d: Document, before: string, after: string)
    requires d.title == Some(before + ChallengeTitle + after)
    ensures ChallengeDetected(d)
  {
    var title := before + ChallengeTitle + after;
    assert OccursAt(title, ChallengeTitle, |before|) by {
      assert title[|before|..|before| + |ChallengeTitle|] == ChallengeTitle;
    }
  }

  /** Only the body is searched for the indicators: a page whose title alone
      says "Cloudflare" passes the check. */
  lemma TitleIndicatorIgnored(d: Document)
    requires d.title == Some("Cloudflare") && d.bodyText.None?
    ensures !ChallengeDetected(d)
  {
    assert |ChallengeTitle| > |"Cloudflare"|;
    forall k | 0 <= k < |ChallengeIndicators| ensures !Includes("", ChallengeIndicators[k]) {
      assert |ChallengeIndicators[k]| > 0;
    }
  }

  /** The card's first `a` element: its `href` attribute, and its `href`
      property (the resolved address, "" when there is no attribute). */
  datatype Anchor = Anchor(hrefAttribute: Option<string>, hrefProperty: string)

  /** One `[data-t]` element as the in-page code sees it: the text content of
      its title, price and merchant children (`None` when the child is
      missing), its first anchor, and the clock reading taken for it. */
  datatype Card = Card(
    title: Option<string>,
    anchor: Option<Anchor>,
    price: Option<string>,
    merchant: Option<string>,
    stamp: string)

  /** `el?.textContent?.trim()`. */
  function TrimmedText(text: Option<string>): (r: Option<string>)
    ensures r.None? <==> text.None?
    ensures r.Some? ==> IsTrimOf(r.value, text.value)
    ensures r.Some? ==> Trim(r.value) == r.value
  {
    if text.None? then None else TrimIdempotent(text.value); Some(Trim(text.value))
  }

  /** `raw ? raw.replace(/\n/g, " ") : null` where `raw` is the trimmed text:
      `null` when missing or blank, otherwise trimmed, without line feeds and
      as long as the trimmed text. */
  function Collapse(text: Option<string>): (r: Option<string>)
    ensures r.None? <==> text.None? || AllSpace(text.value)
    ensures r.Some? ==> r.value != [] && |r.value| == |Trim(text.value)|
    ensures r.Some? ==> forall k | 0 <= k < |r.value| :: r.value[k] != '\n'
    ensures r.Some? ==> !IsSpace(r.value[0]) && !IsSpace(r.value[|r.value| - 1])
    ensures r.Some? ==> forall k | 0 <= k < |r.value| ::
      r.value[k] == if Trim(text.value)[k] == '\n' then ' ' else Trim(text.value)[k]
  {
    if text.None? || Trim(text.value) == "" then None else Some(ReplaceNewlines(Trim(text.value)))
  }

  /** The live path agrees with cleanText except on white-space-only text,
      where cleanText gives "" and the live path `null`. */
  lemma CollapseVersusCleanText(text: Option<string>)
    ensures Collapse(text) == if text.Some? && AllSpace(text.value) then None else CleanText(text)
  {
  }

  /** `(a?.getAttribute('href') || a?.href) || null`. */
  function CardLink(anchor: Option<Anchor>): (r: Option<string>)
    ensures r.Some? ==> r.value != ""
    ensures anchor.None? ==> r.None?
    ensures anchor.Some? ==>
      r == if OrNull(anchor.value.hrefAttribute).Some? then anchor.value.hrefAttribute
           else OrNull(Some(anchor.value.hrefProperty))
  {
    if anchor.None? then None
    else OrNull(if OrNull(anchor.value.hrefAttribute).Some? then anchor.value.hrefAttribute
                else Some(anchor.value.hrefProperty))
  }

  /** The record the in-page `map` builds for one card (PageOfferData, copied
      field by field into RawOfferData). */
  function NormaliseCard(c: Card): RawOffer {
    RawOffer(TrimmedText(c.title), Collapse(c.price), Collapse(c.merchant), CardLink(c.anchor), c.stamp)
  }

  /** One card through `.filter(isValidOffer)`. */
  function LiveStep(): Card -> Option<Offer> {
    c => if IsValidOffer(NormaliseCard(c)) then Some(AsOffer(NormaliseCard(c))) else None
  }

  /** The valid offers of the extracted cards, in card order. */
  function LiveOffers(cards: seq<Card>): seq<Offer> {
    FilterMap(LiveStep(), cards)
  }

  /** The live filter keeps card order and keeps at most one offer per card. */
  lemma LiveOffersAppend(a: seq<Card>, b: seq<Card>)
    ensures LiveOffers(a + b) == LiveOffers(a) + LiveOffers(b)
    ensures |LiveOffers(a)| <= |a|
  {
    FilterMapAppend(LiveStep(), a, b);
  }

  /** What one card yields through the filter: its record, when valid. */
  lemma LiveStepYields(c: Card, o: Offer)
    requires LiveStep()(c) == Some(o)
    ensures IsValidOffer(NormaliseCard(c)) && o == AsOffer(NormaliseCard(c))
  {
  }

  /** A card with a valid record yields that record. */
  lemma LiveStepKeeps(c: Card)
    requires IsValidOffer(NormaliseCard(c))
    ensures LiveStep()(c) == Some(AsOffer(NormaliseCard(c)))
  {
  }

  /** Every kept offer is the record of a card that passes isValidOffer, and
      so passes it itself and has a trimmed title. */
  lemma LiveOffersSound(cards: seq<Card>, o: Offer)
    requires o in LiveOffers(cards)
    ensures exists k | 0 <= k < |cards| :: IsValidOffer(NormaliseCard(cards[k])) && o == AsOffer(NormaliseCard(cards[k]))
    ensures IsValidOffer(AsRaw(o)) && Trim(o.title) == o.title
  {
    FilterMapMembers(LiveStep(), cards, o);
    var k :| 0 <= k < |cards| && LiveStep()(cards[k]) == Some(o);
    LiveStepYields(cards[k], o);
  }

  /** Every card whose record passes isValidOffer is kept. */
  lemma LiveOffersComplete(cards: seq<Card>, k: nat)
    requires k < |cards| && IsValidOffer(NormaliseCard(cards[k]))
    ensures AsOffer(NormaliseCard(cards[k])) in LiveOffers(cards)
  {
    LiveStepKeeps(cards[k]);
    FilterMapHas(LiveStep(), cards, k, AsOffer(NormaliseCard(cards[k])));
  }

  /** A card that fails isValidOffer contributes nothing. */
  lemma LiveDropsInvalid(cards: seq<Card>, k: nat)
    requires k < |cards| && !IsValidOffer(NormaliseCard(cards[k]))
    ensures LiveOffers(cards) == LiveOffers(cards[..k] + cards[k + 1..])
  {
    FilterMapSkip(LiveStep(), cards, k);
  }

  /** The two paths treat a price with an inner line feed differently: the
      fallback keeps the trimmed text as it is, the live path replaces each
      line feed by a space. */
  lemma PriceNewlinesDiffer(c: Container, brand: string -> bool)
    requires ContainerOffer(c, brand).Some?
    requires c.priceText != [] && !IsSpace(c.priceText[0]) && !IsSpace(c.priceText[|c.priceText| - 1])
    ensures ContainerOffer(c, brand).value.price == Some(c.priceText)
    ensures Collapse(Some(c.priceText)) == Some(ReplaceNewlines(c.priceText))
  {
    assert TrimStart(c.priceText) == c.priceText;
    assert TrimEnd(c.priceText) == c.priceText;
  }
}
