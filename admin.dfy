/**
 * The admin handlers of handlers/admin_handler.py that change something:
 * the "add parser" wizard (`add_parser_start`, `select_site`, `process_url`,
 * `process_channel`, `process_filter`, `cancel_handler`) and
 * `delete_parser`.
 *
 * aiogram keeps one FSM context (a state and a data dictionary) per user;
 * `AdminSession` is that context for one user together with the database the
 * handlers write to.  A handler method runs when the router would call the
 * handler: callback handlers on their callback data in any state, message
 * handlers only in their own state.  A handler that raises (a message
 * without text) changes nothing.  Replies and keyboards sent back are not
 * modelled.
 */
module Admin {
  import opened Wrappers
  import opened Text
  import opened Store
  import opened Keyboards

  /** `AddParserStates`, with `Idle` for no state. */
  datatype WizardState = Idle | WaitingForSite | WaitingForUrl | WaitingForChannel | WaitingForFilter

  const OlxUrlPrefix: string := "https://www.olx.uz"
  const AvtoelonUrlPrefix: string := "https://avtoelon.uz"
  const ChannelPrefix: string := "-100"

  /** The site-specific url check of `process_url`; other site types are
      not checked. */
  predicate UrlAccepted(siteType: string, url: string) {
    (siteType == "olx" ==> StartsWith(url, OlxUrlPrefix)) &&
    (siteType == "avtoelon" ==> StartsWith(url, AvtoelonUrlPrefix))
  }

  /** `'olx' if callback.data == 'site_olx' else 'avtoelon'` */
  function SiteOf(callbackData: string): (r: string)
    ensures r == "olx" <==> callbackData == "site_olx"
    ensures r == "olx" || r == "avtoelon"
  {
    if callbackData == "site_olx" then "olx" else "avtoelon"
  }

  /** A channel id message `process_channel` accepts: it has text, and the
      stripped text starts with -100. */
  predicate ChannelAccepted(text: Option<string>) {
    text.Some? && StartsWith(Strip(text.value), ChannelPrefix)
  }

  /** `message.text.strip() or None`: a blank filter is no filter; any other
      is kept without surrounding whitespace. */
  function FilterValue(text: string): (r: Option<string>)
    ensures r.None? <==> forall i :: 0 <= i < |text| ==> IsSpace(text[i])
    ensures r.Some? ==> |r.value| > 0 && !IsSpace(r.value[0]) && !IsSpace(r.value[|r.value| - 1])
    ensures r.Some? ==> r.value == Strip(text)
  {
    var f := Strip(text);
    if f == "" then None else Some(f)
  }

  /** `int(callback.data.split('_')[1])`: `None` where the index or `int`
      raises. */
  function DeleteTarget(callbackData: string): (r: Option<int>)
    ensures '_' !in callbackData ==> r.None?
  {
    var parts := Split(callbackData, '_');
    CountPositive(callbackData, '_');
    if |parts| < 2 then None else ParseInt(parts[1])
  }

  /** The "delete" button of a parser's row leads back to that parser. */
  lemma DeleteCallbackRoundTrip(id: int)
    ensures DeleteTarget(DeleteCallback(id)) == Some(id)
  {
    var digits := IntToString(id);
    assert '_' !in digits by {
      if id < 0 {
        assert digits == "-" + NatToString(-id);
        assert forall i :: 1 <= i < |digits| ==> IsDigit(digits[i]);
      } else {
        assert forall i :: 0 <= i < |digits| ==> IsDigit(digits[i]);
      }
    }
    assert DeleteCallback(id) == "delete" + ['_'] + digits;
    SplitAfterHead("delete", '_', digits);
    SplitAbsent(digits, '_');
    IntRoundTrip(id);
  }

  /** Different parsers get different "delete" buttons. */
  lemma DeleteCallbacksDistinct(id1: int, id2: int)
    requires id1 != id2
    ensures DeleteCallback(id1) != DeleteCallback(id2)
  {
    DeleteCallbackRoundTrip(id1);
    DeleteCallbackRoundTrip(id2);
  }

  /** A row the wizard can add: the url passed its site's check, the channel
      id starts with -100, and a filter is non-blank and only for avtoelon. */
  predicate WizardRow(row: ParserRow) {
    UrlAccepted(row.siteType, row.url) && StartsWith(row.channelId, ChannelPrefix) &&
    (row.filterText.Some? ==>
       row.siteType == "avtoelon" && |row.filterText.value| > 0 &&
       !IsSpace(row.filterText.value[0]) && !IsSpace(row.filterText.value[|row.filterText.value| - 1]))
  }

  class AdminSession {
    /** `message.from_user.id` / `callback.from_user.id` */
    const userId: int
    /** `Config.ADMIN_IDS` */
    const adminIds: set<int>
    const db: Database
    var state: WizardState
    /** The FSM data: `site_type`, `url` and `channel_id` when set. */
    var siteType: Option<string>
    var url: Option<string>
    var channelId: Option<string>

    /** What each waiting state has already collected, and checked. */
    predicate Collected()
      reads this
    {
      && (state == WaitingForUrl ==> siteType.Some?)
      && (state == WaitingForChannel ==> siteType.Some? && url.Some? && UrlAccepted(siteType.value, url.value))
      && (state == WaitingForFilter ==>
            siteType == Some("avtoelon") && url.Some? && UrlAccepted("avtoelon", url.value) &&
            channelId.Some? && StartsWith(channelId.value, ChannelPrefix))
    }

    ghost predicate Valid()
      reads this, db
    {
      db.Valid() && Collected()
    }

    /** `state.clear()` has happened: no state, no data. */
    predicate Cleared()
      reads this
    {
      state == Idle && siteType.None? && url.None? && channelId.None?
    }

    predicate IsAdmin() {
      userId in adminIds
    }

    constructor(userId: int, adminIds: set<int>, db: Database)
      requires db.Valid()
      ensures Valid() && Cleared()
      ensures this.userId == userId && this.adminIds == adminIds && this.db == db
    {
      this.userId := userId;
      this.adminIds := adminIds;
      this.db := db;
      state := Idle;
      siteType, url, channelId := None, None, None;
    }

    /** `state.clear()` */
    method Clear()
      modifies this
      ensures Cleared()
    {
      state := Idle;
      siteType, url, channelId := None, None, None;
    }

    /** The end of the wizard: `db.add_parser` with the collected data, then
        `state.clear()`. */
    method Save(site: string, u: string, ch: string, filterText: Option<string>) returns (id: int)
      requires Valid()
      requires WizardRow(NewRow(db.lastId + 1, userId, u, ch, site, filterText))
      modifies this, db
      ensures Valid() && Cleared()
      ensures id == old(db.lastId) + 1 && id in db.parsers && WizardRow(db.parsers[id])
      ensures db.parsers == old(db.parsers)[id := NewRow(id, userId, u, ch, site, filterText)]
      ensures db.parsedAds == old(db.parsedAds)
    {
      id := db.AddParser(userId, u, ch, site, filterText);
      Clear();
    }

    /** `add_parser_start` (callback 'add_parser'): the admin is asked for a
        site; the data collected so far is kept. */
    method AddParserStart()
      requires Valid()
      modifies this
      ensures Valid()
      ensures IsAdmin() ==> state == WaitingForSite
      ensures !IsAdmin() ==> state == old(state)
      ensures siteType == old(siteType) && url == old(url) && channelId == old(channelId)
    {
      if !IsAdmin() {
        return;
      }
      state := WaitingForSite;
    }

    /** `select_site` (callback 'site_olx' or 'site_avtoelon', in any state). */
    method SelectSite(callbackData: string)
      requires Valid()
      modifies this
      ensures Valid()
      ensures IsAdmin() && callbackData in ["site_olx", "site_avtoelon"] ==>
        state == WaitingForUrl && siteType == Some(SiteOf(callbackData))
      ensures !IsAdmin() || callbackData !in ["site_olx", "site_avtoelon"] ==>
        state == old(state) && siteType == old(siteType)
      ensures url == old(url) && channelId == old(channelId)
    {
      if callbackData !in ["site_olx", "site_avtoelon"] || !IsAdmin() {
        return;
      }
      var site := if callbackData == "site_olx" then "olx" else "avtoelon";
      siteType := Some(site);
      state := WaitingForUrl;
    }

    /** `process_url` (a message while waiting for the url): the stripped
        text must start with the chosen site's address; a rejected url
        changes nothing. */
    method ProcessUrl(text: Option<string>)
      requires Valid()
      modifies this
      ensures Valid()
      ensures old(state) != WaitingForUrl ==>
        state == old(state) && siteType == old(siteType) && url == old(url) && channelId == old(channelId)
      ensures old(state) == WaitingForUrl && !IsAdmin() ==> Cleared()
      ensures old(state) == WaitingForUrl && IsAdmin() ==>
        siteType == old(siteType) && channelId == old(channelId) &&
        if text.Some? && UrlAccepted(old(siteType).value, Strip(text.value))
        then state == WaitingForChannel && url == Some(Strip(text.value))
        else state == old(state) && url == old(url)
    {
      if state != WaitingForUrl {
        return;
      }
      if !IsAdmin() {
        Clear();
        return;
      }
      if text.None? {
        return;
      }
      var u := Strip(text.value);
      var site := siteType.value;
      if site == "olx" && !StartsWith(u, OlxUrlPrefix) {
        return;
      } else if site == "avtoelon" && !StartsWith(u, AvtoelonUrlPrefix) {
        return;
      }
      url := Some(u);
      state := WaitingForChannel;
    }

    /** `process_channel` (a message while waiting for the channel): the
        stripped text must start with -100.  An avtoelon parser then waits
        for its filter; any other is saved without a filter and the wizard
        ends. */
    method ProcessChannel(text: Option<string>) returns (added: Option<int>)
      requires Valid()
      modifies this, db
      ensures Valid()
      ensures added.Some? ==> added.value in db.parsers && WizardRow(db.parsers[added.value])
      ensures old(state) != WaitingForChannel || (IsAdmin() && !ChannelAccepted(text)) ==>
        added.None? && db.parsers == old(db.parsers) && db.lastId == old(db.lastId) &&
        state == old(state) && siteType == old(siteType) && url == old(url) && channelId == old(channelId)
      ensures old(state) == WaitingForChannel && !IsAdmin() ==>
        Cleared() && added.None? && db.parsers == old(db.parsers) && db.lastId == old(db.lastId)
      ensures old(state) == WaitingForChannel && IsAdmin() && ChannelAccepted(text) && old(siteType) == Some("avtoelon") ==>
        state == WaitingForFilter && channelId == Some(Strip(text.value)) && added.None? &&
        siteType == old(siteType) && url == old(url) && db.parsers == old(db.parsers) && db.lastId == old(db.lastId)
      ensures old(state) == WaitingForChannel && IsAdmin() && ChannelAccepted(text) && old(siteType) != Some("avtoelon") ==>
        added == Some(old(db.lastId) + 1) && Cleared() &&
        db.parsers == old(db.parsers)[added.value :=
          NewRow(added.value, userId, old(url).value, Strip(text.value), old(siteType).value, None)]
      ensures db.parsedAds == old(db.parsedAds)
    {
      added := None;
      if state != WaitingForChannel {
        return;
      }
      if !IsAdmin() {
        Clear();
        return;
      }
      if text.None? {
        return;
      }
      var ch := Strip(text.value);
      if !StartsWith(ch, ChannelPrefix) {
        return;
      }
      added := StoreChannel(ch);
    }

    /** Lines 154-173: the accepted channel id is stored; an avtoelon parser
        then waits for its filter, any other is saved without one. */
    method StoreChannel(ch: string) returns (added: Option<int>)
      requires Valid() && state == WaitingForChannel && StartsWith(ch, ChannelPrefix)
      modifies this, db
      ensures Valid() && db.parsedAds == old(db.parsedAds)
      ensures old(siteType) == Some("avtoelon") ==>
        state == WaitingForFilter && channelId == Some(ch) && added.None? &&
        siteType == old(siteType) && url == old(url) && db.parsers == old(db.parsers) && db.lastId == old(db.lastId)
      ensures old(siteType) != Some("avtoelon") ==>
        added == Some(old(db.lastId) + 1) && Cleared() && added.value in db.parsers &&
        WizardRow(db.parsers[added.value]) &&
        db.parsers == old(db.parsers)[added.value := NewRow(added.value, userId, old(url).value, ch, old(siteType).value, None)]
    {
      channelId := Some(ch);
      var u := url.value;
      var site := siteType.value;
      if site == "avtoelon" {
        state := WaitingForFilter;
        added := None;
      } else {
        var parserId := Save(site, u, ch, None);
        added := Some(parserId);
      }
    }

    /** `process_filter` (a message while waiting for the filter): the
        avtoelon parser is saved with the stripped filter, or none when it
        is blank, and the wizard ends. */
    method ProcessFilter(text: Option<string>) returns (added: Option<int>)
      requires Valid()
      modifies this, db
      ensures Valid()
      ensures added.Some? ==> added.value in db.parsers && WizardRow(db.parsers[added.value])
      ensures old(state) != WaitingForFilter || !IsAdmin() || text.None? ==>
        added.None? && db.parsers == old(db.parsers) && db.lastId == old(db.lastId)
      ensures old(state) != WaitingForFilter || (IsAdmin() && text.None?) ==>
        state == old(state) && siteType == old(siteType) && url == old(url) && channelId == old(channelId)
      ensures old(state) == WaitingForFilter && !IsAdmin() ==> Cleared()
      ensures old(state) == WaitingForFilter && IsAdmin() && text.Some? ==>
        added == Some(old(db.lastId) + 1) && Cleared() &&
        db.parsers == old(db.parsers)[added.value :=
          NewRow(added.value, userId, old(url).value, old(channelId).value, "avtoelon", FilterValue(text.value))]
      ensures db.parsedAds == old(db.parsedAds)
    {
      added := None;
      if state != WaitingForFilter {
        return;
      }
      if !IsAdmin() {
        Clear();
        return;
      }
      if text.None? {
        return;
      }
      var filterText := FilterValue(text.value);
      var parserId := Save(siteType.value, url.value, channelId.value, filterText);
      added := Some(parserId);
    }

    /** `cancel_handler` (callback 'cancel'): the wizard is abandoned. */
    method CancelHandler()
      requires Valid()
      modifies this
      ensures Valid()
      ensures IsAdmin() ==> Cleared()
      ensures !IsAdmin() ==>
        state == old(state) && siteType == old(siteType) && url == old(url) && channelId == old(channelId)
    {
      if !IsAdmin() {
        return;
      }
      Clear();
    }

    /** `delete_parser` (callback data starting with 'delete_'): the parser
        named by the data is soft-deleted; data that names no number raises
        and deletes nothing. */
    method DeleteParser(callbackData: string)
      requires Valid()
      modifies db
      ensures Valid()
      ensures StartsWith(callbackData, "delete_") && IsAdmin() && DeleteTarget(callbackData).Some? ==>
        db.parsers == SoftDelete(old(db.parsers), DeleteTarget(callbackData).value)
      ensures !StartsWith(callbackData, "delete_") || !IsAdmin() || DeleteTarget(callbackData).None? ==>
        db.parsers == old(db.parsers)
      ensures db.parsedAds == old(db.parsedAds) && db.lastId == old(db.lastId)
    {
      if !StartsWith(callbackData, "delete_") || !IsAdmin() {
        return;
      }
      var parts := Split(callbackData, '_');
      if |parts| < 2 {
        return;
      }
      var parserId := ParseInt(parts[1]);
      if parserId.None? {
        return;
      }
      var ok := db.DeleteParser(parserId.value);
    }
  }

  /** The whole wizard for an OLX parser, from an idle session: the admin
      picks OLX, sends an OLX url and a channel id, and exactly one parser is
      added with them. */
  method AddOlxParserScenario(session: AdminSession, u: string, ch: string)
    returns (added: Option<int>)
    requires session.Valid() && session.Cleared() && session.IsAdmin()
    requires StartsWith(Strip(u), OlxUrlPrefix) && StartsWith(Strip(ch), ChannelPrefix)
    modifies session, session.db
    ensures session.Valid() && session.Cleared()
    ensures added.Some? && added.value in session.db.parsers && session.db.parsers[added.value] ==
      NewRow(added.value, session.userId, Strip(u), Strip(ch), "olx", None)
  {
    session.AddParserStart();
    assert session.state == WaitingForSite;
    session.SelectSite("site_olx");
    assert session.state == WaitingForUrl && session.siteType == Some("olx");
    session.ProcessUrl(Some(u));
    assert session.state == WaitingForChannel && session.url == Some(Strip(u));
    added := session.ProcessChannel(Some(ch));
  }
}
