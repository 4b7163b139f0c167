/**
 * The two listing scrapers of `ParserService` (services/parser_service.py)
 * and the site dispatch in front of them.  The HTML is not modelled: a page
 * is the list of cards the selectors find, each reduced to the facts the
 * accept/skip rules look at.  Both scrapers feed a stream of "offered" hrefs
 * (one per card, `None` for a skipped card) into the same first-occurrence
 * de-duplication, `Collect`.
 */
module Listings {
  import opened Wrappers
  import opened Text
  import opened Format

  // -----------------------------------------------------------------------
  // First-occurrence de-duplication
  // -----------------------------------------------------------------------

  /** `if href not in hrefs: hrefs.append(href)` over the offered hrefs: every
      offered href once, none twice, nothing that was not offered. */
  function Collect(offers: seq<Option<string>>): (r: seq<string>)
    ensures NoDuplicates(r)
    ensures forall h :: h in r <==> Some(h) in offers
  {
    if offers == [] then []
    else
      var init := offers[..|offers| - 1];
      var o := offers[|offers| - 1];
      assert offers == init + [o];
      var prev := Collect(init);
      if o.Some? && o.value !in prev then prev + [o.value] else prev
  }

  /** The position where `h` is first offered (`|offers|` when never). */
  function FirstOffer(offers: seq<Option<string>>, h: string): (k: nat)
    ensures k <= |offers|
    ensures k < |offers| ==> offers[k] == Some(h)
    ensures forall i :: 0 <= i < k ==> offers[i] != Some(h)
  {
    if offers == [] || offers[0] == Some(h) then 0 else 1 + FirstOffer(offers[1..], h)
  }

  /** Offering one more href does not move an earlier first offer, and a
      href offered for the first time is first offered at the end. */
  lemma FirstOfferExtend(init: seq<Option<string>>, o: Option<string>, h: string)
    ensures Some(h) in init ==> FirstOffer(init + [o], h) == FirstOffer(init, h)
    ensures Some(h) !in init && o == Some(h) ==> FirstOffer(init + [o], h) == |init|
  {
    var s := init + [o];
    var k, k0 := FirstOffer(s, h), FirstOffer(init, h);
    assert forall i :: 0 <= i < |init| ==> s[i] == init[i];
    if Some(h) in init {
      assert s[k0] == Some(h);
    } else if o == Some(h) {
      assert s[|init|] == Some(h);
    }
  }

  /** `r` lists hrefs in the order they are first offered in `offers`. */
  predicate InFirstSeenOrder(offers: seq<Option<string>>, r: seq<string>) {
    forall i, j :: 0 <= i < j < |r| ==> FirstOffer(offers, r[i]) < FirstOffer(offers, r[j])
  }

  /** The collected hrefs appear in the order they were first offered. */
  lemma {:induction false} CollectKeepsFirstSeenOrder(offers: seq<Option<string>>)
    ensures InFirstSeenOrder(offers, Collect(offers))
  {
    if offers != [] {
      var init := offers[..|offers| - 1];
      var o := offers[|offers| - 1];
      assert offers == init + [o];
      var prev := Collect(init);
      CollectKeepsFirstSeenOrder(init);
      var r := Collect(offers);
      forall i, j | 0 <= i < j < |r|
        ensures FirstOffer(offers, r[i]) < FirstOffer(offers, r[j])
      {
        OrderStep(init, o, i, j);
      }
    }
  }

  /** One step of `CollectKeepsFirstSeenOrder`: the order among the hrefs
      collected from `init` survives one more offer, and a newly collected
      href comes after all of them. */
  lemma OrderStep(init: seq<Option<string>>, o: Option<string>, i: nat, j: nat)
    requires InFirstSeenOrder(init, Collect(init))
    requires i < j < |Collect(init + [o])|
    ensures var r := Collect(init + [o]);
      FirstOffer(init + [o], r[i]) < FirstOffer(init + [o], r[j])
  {
    var s := init + [o];
    assert s[..|s| - 1] == init;
    var prev := Collect(init);
    var r := Collect(s);
    assert r[i] == prev[i];
    FirstOfferExtend(init, o, r[i]);
    FirstOfferExtend(init, o, r[j]);
    assert prev[i] in prev;
    if j < |prev| {
      assert r[j] == prev[j] && prev[j] in prev;
      assert FirstOffer(init, prev[i]) < FirstOffer(init, prev[j]);
    } else {
      assert r[j] == o.value;
    }
  }

  /** Offering more hrefs only adds to what was collected. */
  lemma {:induction false} CollectGrows(offers: seq<Option<string>>, o: Option<string>)
    ensures var prev := Collect(offers); var r := Collect(offers + [o]);
      |prev| <= |r| && r[..|prev|] == prev
  {
    assert (offers + [o])[..|offers|] == offers;
  }

  /** The loop step: a new offered href is appended, anything else ignored. */
  lemma CollectSnoc(offers: seq<Option<string>>, o: Option<string>)
    ensures Collect(offers + [o]) ==
      if o.Some? && o.value !in Collect(offers) then Collect(offers) + [o.value] else Collect(offers)
  {
    assert (offers + [o])[..|offers|] == offers;
  }

  // -----------------------------------------------------------------------
  // Fetching
  // -----------------------------------------------------------------------

  /** What `session.get(url)` produced: an exception anywhere in the request
      (connection, timeout, decoding), or a status and the parsed page. */
  datatype Fetch<P> = Failed | Fetched(status: int, page: P)

  // -----------------------------------------------------------------------
  // OLX
  // -----------------------------------------------------------------------

  /** One `div[data-cy=l-card]` of the document, in document order:
      whether it lies inside the listing grid, whether it comes after the
      `div-gpt-liting-after-promoted` marker, whether some text in it matches
      ТОП/TOP (case-insensitively), and the `href` of its first link. */
  datatype OlxCard = OlxCard(insideGrid: bool, afterMarker: bool, promoted: bool, link: Option<string>)

  /** Whether the page has the listing grid and the promoted-block marker,
      and its cards. */
  datatype OlxPage = OlxPage(hasGrid: bool, hasMarker: bool, cards: seq<OlxCard>)

  /** A link to an OLX ad page. */
  predicate IsOlxAdLink(href: string) {
    StartsWith(href, "/d/obyavlenie/") || Contains(href, "/ID")
  }

  /** The cards the scraper walks: those of the grid, and when the marker is
      present only those after it. */
  predicate OlxScanned(page: OlxPage, card: OlxCard) {
    card.insideGrid && (!page.hasMarker || card.afterMarker)
  }

  /** The href a card contributes, if any. */
  function OlxOffer(page: OlxPage, card: OlxCard): (o: Option<string>)
    ensures o.Some? <==> OlxScanned(page, card) && !card.promoted && card.link.Some? && IsOlxAdLink(card.link.value)
    ensures o.Some? ==> o == card.link
  {
    if OlxScanned(page, card) && !card.promoted && card.link.Some? && IsOlxAdLink(card.link.value)
    then card.link
    else None
  }

  function OlxOffers(page: OlxPage, cards: seq<OlxCard>): (r: seq<Option<string>>)
    ensures |r| == |cards|
    ensures forall i :: 0 <= i < |cards| ==> r[i] == OlxOffer(page, cards[i])
  {
    seq(|cards|, i requires 0 <= i < |cards| => OlxOffer(page, cards[i]))
  }

  /** `_get_olx_listings` */
  function OlxListings(fetch: Fetch<OlxPage>): seq<string> {
    match fetch
    case Failed => []
    case Fetched(status, page) =>
      if status != 200 || !page.hasGrid then [] else Collect(OlxOffers(page, page.cards))
  }

  /** `_get_olx_listings`: the card loop with its membership check. */
  method GetOlxListings(fetch: Fetch<OlxPage>) returns (hrefs: seq<string>)
    ensures hrefs == OlxListings(fetch)
  {
    if fetch.Failed? || fetch.status != 200 || !fetch.page.hasGrid {
      return [];
    }
    var page := fetch.page;
    hrefs := [];
    for i := 0 to |page.cards|
      invariant hrefs == Collect(OlxOffers(page, page.cards[..i]))
    {
      var card := page.cards[i];
      assert OlxOffers(page, page.cards[..i + 1]) == OlxOffers(page, page.cards[..i]) + [OlxOffer(page, card)];
      CollectSnoc(OlxOffers(page, page.cards[..i]), OlxOffer(page, card));
      if OlxScanned(page, card) && !card.promoted && card.link.Some? {
        var href := card.link.value;
        if StartsWith(href, "/d/obyavlenie/") || Contains(href, "/ID") {
          if href !in hrefs {
            hrefs := hrefs + [href];
          }
        }
      }
    }
    assert page.cards[..|page.cards|] == page.cards;
  }

  /** An href is listed exactly when the page was served, has the grid, and
      some walked, unpromoted card links to it as an OLX ad. */
  lemma OlxListingsAccepted(fetch: Fetch<OlxPage>, h: string)
    ensures h in OlxListings(fetch) <==>
      fetch.Fetched? && fetch.status == 200 && fetch.page.hasGrid &&
      exists c :: c in fetch.page.cards && OlxScanned(fetch.page, c) && !c.promoted && c.link == Some(h) && IsOlxAdLink(h)
  {
    if fetch.Fetched? && fetch.status == 200 && fetch.page.hasGrid {
      var page := fetch.page;
      var offers := OlxOffers(page, page.cards);
      if h in OlxListings(fetch) {
        var i :| 0 <= i < |offers| && offers[i] == Some(h);
        assert page.cards[i] in page.cards;
      }
      if exists c :: c in page.cards && OlxScanned(page, c) && !c.promoted && c.link == Some(h) && IsOlxAdLink(h) {
        var c :| c in page.cards && OlxScanned(page, c) && !c.promoted && c.link == Some(h) && IsOlxAdLink(h);
        var i :| 0 <= i < |page.cards| && page.cards[i] == c;
        assert offers[i] == Some(h);
      }
    }
  }

  // -----------------------------------------------------------------------
  // Avtoelon
  // -----------------------------------------------------------------------

  /** The `a.js__advert-link` title link: its text (`get_text(strip=True)`)
      and its `href` attribute, if it has one. */
  datatype TitleLink = TitleLink(text: string, href: Option<string>)

  /** One `div.row.list-item.a-elem` of the result block: whether it has the
      advert button, the classes of the payment-corner badge inside that
      button (`None` when there is no corner or no badge), and its title
      link. */
  datatype AvtoelonItem = AvtoelonItem(hasButton: bool, badgeClasses: Option<seq<string>>, title: Option<TitleLink>)

  /** Whether the page has the result block, and its items. */
  datatype AvtoelonPage = AvtoelonPage(hasResultBlock: bool, items: seq<AvtoelonItem>)

  const PromoBadges: seq<string> := [
    "payment-package-corner__badge--vip-sale",
    "payment-package-corner__badge--zor-sale",
    "payment-package-corner__badge--alo-sale"]

  /** A paid "sale" placement. */
  predicate IsPromoted(item: AvtoelonItem) {
    item.badgeClasses.Some? && exists b :: b in PromoBadges && b in item.badgeClasses.value
  }

  /** `filter_text and filter_text.lower() in title_text`: an empty filter
      is falsy and filters nothing.  `lower` stands for `str.lower`. */
  predicate FilteredOut(filterText: Option<string>, title: string, lower: string -> string) {
    filterText.Some? && filterText.value != "" && Contains(lower(title), lower(filterText.value))
  }

  /** The href an item contributes, if any.  A title link without `href`
      raises `KeyError`, which the per-item `except` turns into a skip. */
  function AvtoelonOffer(item: AvtoelonItem, filterText: Option<string>, lower: string -> string): (o: Option<string>)
    ensures o.Some? <==>
      item.hasButton && !IsPromoted(item) && item.title.Some? &&
      !FilteredOut(filterText, item.title.value.text, lower) &&
      item.title.value.href.Some? && StartsWith(item.title.value.href.value, "/a/show/")
    ensures o.Some? ==> o == item.title.value.href
  {
    if !item.hasButton || IsPromoted(item) || item.title.None? then None
    else if FilteredOut(filterText, item.title.value.text, lower) then None
    else if item.title.value.href.None? then None
    else if StartsWith(item.title.value.href.value, "/a/show/") then item.title.value.href
    else None
  }

  function AvtoelonOffers(items: seq<AvtoelonItem>, filterText: Option<string>, lower: string -> string): (r: seq<Option<string>>)
    ensures |r| == |items|
    ensures forall i :: 0 <= i < |items| ==> r[i] == AvtoelonOffer(items[i], filterText, lower)
  {
    seq(|items|, i requires 0 <= i < |items| => AvtoelonOffer(items[i], filterText, lower))
  }

  /** `_get_avtoelon_listings` */
  function AvtoelonListings(fetch: Fetch<AvtoelonPage>, filterText: Option<string>, lower: string -> string): seq<string> {
    match fetch
    case Failed => []
    case Fetched(status, page) =>
      if status != 200 || !page.hasResultBlock then []
      else Collect(AvtoelonOffers(page.items, filterText, lower))
  }

  /** `_get_avtoelon_listings`: the item loop with its skips and membership
      check. */
  method GetAvtoelonListings(fetch: Fetch<AvtoelonPage>, filterText: Option<string>, lower: string -> string)
    returns (hrefs: seq<string>)
    ensures hrefs == AvtoelonListings(fetch, filterText, lower)
  {
    if fetch.Failed? || fetch.status != 200 || !fetch.page.hasResultBlock {
      return [];
    }
    var items := fetch.page.items;
    hrefs := [];
    for i := 0 to |items|
      invariant hrefs == Collect(AvtoelonOffers(items[..i], filterText, lower))
    {
      var item := items[i];
      assert AvtoelonOffers(items[..i + 1], filterText, lower)
        == AvtoelonOffers(items[..i], filterText, lower) + [AvtoelonOffer(item, filterText, lower)];
      CollectSnoc(AvtoelonOffers(items[..i], filterText, lower), AvtoelonOffer(item, filterText, lower));
      if !item.hasButton {
        continue;
      }
      if item.badgeClasses.Some? {
        var classes := item.badgeClasses.value;
        if exists b :: b in PromoBadges && b in classes {
          continue;
        }
      }
      if item.title.Some? {
        var title := item.title.value;
        if filterText.Some? && filterText.value != "" && Contains(lower(title.text), lower(filterText.value)) {
          continue;
        }
        if title.href.None? {
          continue;
        }
        var href := title.href.value;
        if StartsWith(href, "/a/show/") && href !in hrefs {
          hrefs := hrefs + [href];
        }
      }
    }
    assert items[..|items|] == items;
  }

  /** An href is listed exactly when the page was served, has the result
      block, and some item with the advert button, no sale badge and a title
      the filter does not match links to it as an `/a/show/` page. */
  lemma AvtoelonListingsAccepted(fetch: Fetch<AvtoelonPage>, filterText: Option<string>, lower: string -> string, h: string)
    ensures h in AvtoelonListings(fetch, filterText, lower) <==>
      fetch.Fetched? && fetch.status == 200 && fetch.page.hasResultBlock &&
      exists item :: item in fetch.page.items && item.hasButton && !IsPromoted(item) &&
        item.title.Some? && !FilteredOut(filterText, item.title.value.text, lower) &&
        item.title.value.href == Some(h) && StartsWith(h, "/a/show/")
  {
    if fetch.Fetched? && fetch.status == 200 && fetch.page.hasResultBlock {
      var items := fetch.page.items;
      var offers := AvtoelonOffers(items, filterText, lower);
      if h in AvtoelonListings(fetch, filterText, lower) {
        var i :| 0 <= i < |offers| && offers[i] == Some(h);
        assert items[i] in items;
      }
      if exists item :: (item in items && item.hasButton && !IsPromoted(item) &&
        item.title.Some? && !FilteredOut(filterText, item.title.value.text, lower) &&
        item.title.value.href == Some(h) && StartsWith(h, "/a/show/"))
      {
        var item :| item in items && item.hasButton && !IsPromoted(item) &&
          item.title.Some? && !FilteredOut(filterText, item.title.value.text, lower) &&
          item.title.value.href == Some(h) && StartsWith(h, "/a/show/");
        var i :| 0 <= i < |items| && items[i] == item;
        assert offers[i] == Some(h);
      }
    }
  }

  /** Without a filter (or with an empty one) the title plays no part. */
  lemma NoFilterKeepsAll(fetch: Fetch<AvtoelonPage>, lower: string -> string, other: string -> string)
    ensures AvtoelonListings(fetch, None, lower) == AvtoelonListings(fetch, Some(""), other)
  {
    if fetch.Fetched? {
      var items := fetch.page.items;
      assert AvtoelonOffers(items, None, lower) == AvtoelonOffers(items, Some(""), other);
    }
  }

  // -----------------------------------------------------------------------
  // Site dispatch
  // -----------------------------------------------------------------------

  /** `get_listings`: what the scraper for `site_type` finds; `olx` and
      `avtoelon` are what the two scrapers would find at the parser's url. */
  method GetListings(siteType: string, filterText: Option<string>, olx: Fetch<OlxPage>,
                     avtoelon: Fetch<AvtoelonPage>, lower: string -> string)
    returns (hrefs: seq<string>)
    ensures siteType == "olx" ==> hrefs == OlxListings(olx)
    ensures siteType == "avtoelon" ==> hrefs == AvtoelonListings(avtoelon, filterText, lower)
    ensures siteType != "olx" && siteType != "avtoelon" ==> hrefs == []
    ensures NoDuplicates(hrefs)
  {
    if siteType == "olx" {
      hrefs := GetOlxListings(olx);
    } else if siteType == "avtoelon" {
      hrefs := GetAvtoelonListings(avtoelon, filterText, lower);
    } else {
      hrefs := [];
    }
  }

  /** `get_ad_details`: the record the detail scraper for `site_type`
      returns (`None` on any error); an unknown site type has none. */
  function AdDetails(siteType: string, olx: Option<Details>, avtoelon: Option<Details>): (r: Option<Details>)
    ensures r.Some? ==> siteType == "olx" || siteType == "avtoelon"
    ensures siteType == "olx" ==> r == olx
    ensures siteType == "avtoelon" ==> r == avtoelon
  {
    if siteType == "olx" then olx
    else if siteType == "avtoelon" then avtoelon
    else None
  }
}
