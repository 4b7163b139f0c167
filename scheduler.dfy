/**
 * `SchedulerService` (services/scheduler_service.py): the polling loop that
 * decides, for every active parser, which listing hrefs are new, posts each
 * of them to the parser's channel, records it in `parsed_ads` and moves the
 * parser's bookmark.
 *
 * The decision is a pure function of the listing, the bookmark and the
 * `parsed_ads` table (`Selection`); one check of one parser is the state
 * transition `CheckParserSpec` on a `World` (the two tables and the log of
 * posts); the class `SchedulerService` performs it step by step with the
 * `Database` methods and is proved to produce exactly that transition.
 *
 * What a parser's scraper returns in a cycle (the listing, and the detail
 * record for each href) is an input, `Poll`; posts to Telegram are recorded
 * as `Outgoing` values in the order they are attempted.
 */
module Scheduler {
  import opened Wrappers
  import opened Text
  import opened Store
  import opened Format

  /** The scan for the bookmark stops once this many hrefs are collected. */
  const ScanCap: nat := 50
  /** `find_last_seen_ad` looks at this many of the newest hrefs. */
  const CheckLimit: int := 10
  /** With no bookmark and nothing known near the top, only this many are sent. */
  const MaxSafeCount: nat := 3
  /** Telegram albums hold at most this many photos. */
  const AlbumCap: nat := 10

  // -----------------------------------------------------------------------
  // Which hrefs are new
  // -----------------------------------------------------------------------

  /** The first position of `x` in `hrefs` (`|hrefs|` when absent). */
  function IndexOf(hrefs: seq<string>, x: string): (k: nat)
    ensures k <= |hrefs|
    ensures k < |hrefs| ==> hrefs[k] == x
    ensures forall i :: 0 <= i < k ==> hrefs[i] != x
  {
    if hrefs == [] || hrefs[0] == x then 0 else 1 + IndexOf(hrefs[1..], x)
  }

  /** Where the scan of lines 104-117 meets the bookmark: only within the
      first 50 hrefs, since the scan gives up after collecting 50. */
  function BookmarkIndex(hrefs: seq<string>, bookmark: string): (r: Option<nat>)
    ensures r.Some? ==> r.value < |hrefs| && r.value < ScanCap && hrefs[r.value] == bookmark
    ensures r.Some? ==> bookmark !in hrefs[..r.value]
    ensures r.None? ==> bookmark !in Take(hrefs, ScanCap)
  {
    var k := IndexOf(hrefs, bookmark);
    if k < |hrefs| && k < ScanCap then Some(k) else None
  }

  /** The first href of `s` already recorded for the parser. */
  function FirstParsed(s: seq<string>, ads: seq<ParsedAd>, parserId: int): (r: Option<nat>)
    ensures r.Some? ==> r.value < |s| && IsParsed(ads, parserId, s[r.value])
    ensures r.Some? ==> forall i :: 0 <= i < r.value ==> !IsParsed(ads, parserId, s[i])
    ensures r.None? ==> forall i :: 0 <= i < |s| ==> !IsParsed(ads, parserId, s[i])
  {
    if s == [] then None
    else if IsParsed(ads, parserId, s[0]) then Some(0)
    else
      match FirstParsed(s[1..], ads, parserId)
      case None => None
      case Some(j) => Some(j + 1)
  }

  /** The hrefs `find_last_seen_ad` inspects: `hrefs[:min(check_limit, len(hrefs))]`. */
  function CheckedHrefs(hrefs: seq<string>, checkLimit: int): seq<string> {
    PrefixTo(hrefs, if checkLimit < |hrefs| then checkLimit else |hrefs|)
  }

  /** `find_last_seen_ad` */
  function FirstParsedIndex(hrefs: seq<string>, ads: seq<ParsedAd>, parserId: int, checkLimit: int): Option<nat> {
    FirstParsed(CheckedHrefs(hrefs, checkLimit), ads, parserId)
  }

  /** `new_hrefs` once a bookmark exists: the hrefs above the bookmark when
      the scan meets it; otherwise the hrefs above the first already-sent
      href among the newest ten; otherwise the newest three.  Always a
      prefix of the listing, of fewer than 50 hrefs, without the bookmark. */
  function Selection(hrefs: seq<string>, bookmark: string, ads: seq<ParsedAd>, parserId: int): (r: seq<string>)
    ensures |r| <= |hrefs| && r == hrefs[..|r|]
    ensures |r| < ScanCap
    ensures bookmark !in r
  {
    match BookmarkIndex(hrefs, bookmark)
    case Some(i) => hrefs[..i]
    case None =>
      var checked := CheckedHrefs(hrefs, CheckLimit);
      assert bookmark !in checked by {
        assert checked == Take(hrefs, ScanCap)[..|checked|];
      }
      match FirstParsedIndex(hrefs, ads, parserId, CheckLimit)
      case Some(j) =>
        assert hrefs[..j] == checked[..j];
        hrefs[..j]
      case None =>
        var r := Take(hrefs, MaxSafeCount);
        assert r == checked[..|r|];
        r
  }

  /** The three ways the selection can go, each with what it guarantees. */
  lemma SelectionCases(hrefs: seq<string>, bookmark: string, ads: seq<ParsedAd>, parserId: int)
    ensures var r := Selection(hrefs, bookmark, ads, parserId);
      match BookmarkIndex(hrefs, bookmark)
      case Some(i) => r == hrefs[..i]
      case None =>
        match FirstParsedIndex(hrefs, ads, parserId, CheckLimit)
        case Some(j) =>
          r == hrefs[..j] && |r| < 10 && IsParsed(ads, parserId, hrefs[j]) &&
          forall h :: h in r ==> !IsParsed(ads, parserId, h)
        case None =>
          r == Take(hrefs, MaxSafeCount) &&
          forall h :: h in Take(hrefs, 10) ==> !IsParsed(ads, parserId, h)
  {
    var checked := CheckedHrefs(hrefs, CheckLimit);
    if BookmarkIndex(hrefs, bookmark).None? {
      match FirstParsedIndex(hrefs, ads, parserId, CheckLimit)
      case Some(j) =>
        assert forall i :: 0 <= i < j ==> hrefs[i] == checked[i];
      case None =>
        assert Take(hrefs, 10) == checked;
    }
  }

  /** The hrefs a check attempts: none for an empty listing, only the
      newest on a parser's first run, `Selection` afterwards. */
  function Attempted(hrefs: seq<string>, bookmark: Option<string>, ads: seq<ParsedAd>, parserId: int): (r: seq<string>)
    ensures |r| <= |hrefs| && r == hrefs[..|r|]
    ensures |r| < ScanCap
    ensures hrefs == [] ==> r == []
    ensures hrefs != [] && bookmark.None? ==> r == [hrefs[0]]
  {
    if hrefs == [] then []
    else if bookmark.None? then [hrefs[0]]
    else Selection(hrefs, bookmark.value, ads, parserId)
  }

  // -----------------------------------------------------------------------
  // What is posted
  // -----------------------------------------------------------------------

  /** `InputMediaPhoto(media=..., caption=...)` */
  datatype MediaPhoto = MediaPhoto(media: string, caption: Option<string>)

  /** One attempted post: `send_message`, `send_photo` or `send_media_group`. */
  datatype Outgoing =
    | SendMessage(chatId: string, text: string)
    | SendPhoto(chatId: string, photo: string, caption: string)
    | SendMediaGroup(chatId: string, media: seq<MediaPhoto>)

  /** The album built from `images` (already cut to ten): one photo per image
      whose `InputMediaPhoto` could be built (those in `rejected` raise and
      are skipped), the message as caption on the photo of image 0 only. */
  function Album(images: seq<string>, message: string, rejected: set<string>): seq<MediaPhoto> {
    if images == [] then []
    else
      var n := |images| - 1;
      Album(images[..n], message, rejected)
        + (if images[n] in rejected then [] else [MediaPhoto(images[n], if n == 0 then Some(message) else None)])
  }

  /** The images whose `InputMediaPhoto` can be built, in their order. */
  function Kept(images: seq<string>, rejected: set<string>): (r: seq<string>)
    ensures |r| <= |images|
    ensures forall x :: x in r <==> x in images && x !in rejected
  {
    if images == [] then []
    else (if images[0] in rejected then [] else [images[0]]) + Kept(images[1..], rejected)
  }

  /** `Kept` of one more image: the image comes last unless rejected. */
  lemma {:induction false} KeptSnoc(images: seq<string>, x: string, rejected: set<string>)
    ensures Kept(images + [x], rejected) == Kept(images, rejected) + (if x in rejected then [] else [x])
  {
    if images != [] {
      assert (images + [x])[1..] == images[1..] + [x];
      KeptSnoc(images[1..], x, rejected);
    } else {
      assert [x][1..] == [];
    }
  }

  /** The album keeps the images' order, skips exactly the rejected ones, and
      carries the caption only on the first image, when it was kept. */
  lemma AlbumShape(images: seq<string>, message: string, rejected: set<string>)
    ensures var album := Album(images, message, rejected);
      |album| == |Kept(images, rejected)| &&
      (forall k :: 0 <= k < |album| ==> album[k].media == Kept(images, rejected)[k]) &&
      |album| <= |images| &&
      (forall k :: 0 <= k < |album| ==> album[k].media in images && album[k].media !in rejected) &&
      (forall k :: 0 <= k < |album| ==>
        album[k].caption == if k == 0 && images[0] !in rejected then Some(message) else None) &&
      (rejected == {} ==> |album| == |images| && forall k :: 0 <= k < |album| ==> album[k].media == images[k])
  {
    AlbumOrder(images, message, rejected);
    AlbumMedia(images, message, rejected);
    AlbumCaptions(images, message, rejected);
    if rejected == {} {
      AlbumKeepsAll(images, message);
    }
  }

  /** The album's photos are the kept images, one each, in order. */
  lemma {:induction false} AlbumOrder(images: seq<string>, message: string, rejected: set<string>)
    ensures var album := Album(images, message, rejected);
      |album| == |Kept(images, rejected)| &&
      forall k :: 0 <= k < |album| ==> album[k].media == Kept(images, rejected)[k]
  {
    if images != [] {
      var n := |images| - 1;
      var init := images[..n];
      assert images == init + [images[n]];
      AlbumOrder(init, message, rejected);
      KeptSnoc(init, images[n], rejected);
    }
  }

  /** Album photos are images that were not rejected, at most one per image. */
  lemma {:induction false} AlbumMedia(images: seq<string>, message: string, rejected: set<string>)
    ensures var album := Album(images, message, rejected);
      |album| <= |images| &&
      forall k :: 0 <= k < |album| ==> album[k].media in images && album[k].media !in rejected
  {
    if images != [] {
      var n := |images| - 1;
      var init := images[..n];
      AlbumMedia(init, message, rejected);
      var prev := Album(init, message, rejected);
      var album := Album(images, message, rejected);
      assert forall k :: 0 <= k < |prev| ==> album[k] == prev[k];
      assert forall x :: x in init ==> x in images;
    }
  }

  /** Only the photo of image 0 carries the caption, and only when kept. */
  lemma {:induction false} AlbumCaptions(images: seq<string>, message: string, rejected: set<string>)
    ensures var album := Album(images, message, rejected);
      forall k :: 0 <= k < |album| ==>
        album[k].caption == if k == 0 && images[0] !in rejected then Some(message) else None
  {
    if images != [] {
      var n := |images| - 1;
      var init := images[..n];
      AlbumCaptions(init, message, rejected);
      var prev := Album(init, message, rejected);
      var album := Album(images, message, rejected);
      assert forall k :: 0 <= k < |prev| ==> album[k] == prev[k];
      if n > 0 {
        assert init[0] == images[0];
        AlbumEmpty(init, message, rejected);
        if images[0] !in rejected {
          assert prev != [];
        }
      }
    }
  }

  /** With nothing rejected, every image becomes a photo, in order. */
  lemma {:induction false} AlbumKeepsAll(images: seq<string>, message: string)
    ensures var album := Album(images, message, {});
      |album| == |images| && forall k :: 0 <= k < |album| ==> album[k].media == images[k]
  {
    if images != [] {
      var n := |images| - 1;
      AlbumKeepsAll(images[..n], message);
    }
  }

  /** Every image of the album was rejected exactly when the album is empty. */
  lemma {:induction false} AlbumEmpty(images: seq<string>, message: string, rejected: set<string>)
    ensures Album(images, message, rejected) == [] <==> forall x :: x in images ==> x in rejected
  {
    if images != [] {
      var n := |images| - 1;
      AlbumEmpty(images[..n], message, rejected);
      assert images == images[..n] + [images[n]];
    }
  }

  /** `send_to_channel`: text without images, a captioned photo for one
      image, an album of the first ten for more, and text again when no
      photo of the album could be built. */
  function Dispatch(chatId: string, message: string, images: seq<string>, rejected: set<string>): Outgoing {
    if |images| == 0 then SendMessage(chatId, message)
    else if |images| == 1 then SendPhoto(chatId, images[0], message)
    else
      var album := Album(Take(images, AlbumCap), message, rejected);
      if album == [] then SendMessage(chatId, message) else SendMediaGroup(chatId, album)
  }

  /** Every post goes to the channel and carries the message once: as the
      text, as the photo caption, or as the caption of the album's first
      photo, which is the listing's first image.  An album has two to ten
      photos taken from the first ten images, in order. */
  lemma DispatchShape(chatId: string, message: string, images: seq<string>, rejected: set<string>)
    ensures var o := Dispatch(chatId, message, images, rejected);
      o.chatId == chatId &&
      (o.SendMessage? ==> (o.text == message &&
        (|images| == 0 || (|images| >= 2 && forall x :: x in Take(images, AlbumCap) ==> x in rejected)))) &&
      (o.SendPhoto? ==> |images| == 1 && o.photo == images[0] && o.caption == message) &&
      (o.SendMediaGroup? ==> (|images| >= 2 && 1 <= |o.media| <= AlbumCap &&
        (forall k :: 0 <= k < |o.media| ==> o.media[k].media in Take(images, AlbumCap)) &&
        (o.media[0].caption.Some? <==> images[0] !in rejected) &&
        (forall k :: 0 <= k < |o.media| && o.media[k].caption.Some? ==> k == 0 && o.media[k].caption == Some(message))))
    ensures rejected == {} && |images| >= 2 ==>
      Dispatch(chatId, message, images, rejected) ==
        SendMediaGroup(chatId, Album(Take(images, AlbumCap), message, rejected))
  {
    if |images| >= 2 {
      var first := Take(images, AlbumCap);
      AlbumShape(first, message, rejected);
      AlbumEmpty(first, message, rejected);
      assert first[0] == images[0];
    }
  }

  // -----------------------------------------------------------------------
  // One check of one parser, on values
  // -----------------------------------------------------------------------

  /** The parsers table, the parsed_ads table and the posts made so far. */
  datatype World = World(parsers: map<int, ParserRow>, ads: seq<ParsedAd>, log: seq<Outgoing>)

  /** What a parser's scraper produced this cycle: the listing
      (`get_listings`) and the detail record `get_ad_details` returns for
      each href (absent: `None`); or an exception that escaped the check
      before it changed anything. */
  datatype Poll = Crashed | Polled(hrefs: seq<string>, details: map<string, Details>)

  /** The post of one href: the `Dispatch` of its formatted message to the
      parser's channel, or nothing when it has no details. */
  function PostOf(row: ParserRow, h: string, details: map<string, Details>, rejected: set<string>): seq<Outgoing> {
    if h in details then [Dispatch(row.channelId, Message(details[h], row.siteType), details[h].images, rejected)] else []
  }

  /** What delivering `todo` posts: the posts of its hrefs, in order, every
      one to the parser's channel and at most one per href. */
  function Posts(row: ParserRow, todo: seq<string>, details: map<string, Details>, rejected: set<string>): (r: seq<Outgoing>)
    ensures |r| <= |todo|
    ensures forall k :: 0 <= k < |r| ==> r[k].chatId == row.channelId
  {
    if todo == [] then [] else PostOf(row, todo[0], details, rejected) + Posts(row, todo[1..], details, rejected)
  }

  /** `Posts` of one more href: its post, if any, comes last. */
  lemma {:induction false} PostsSnoc(row: ParserRow, todo: seq<string>, h: string, details: map<string, Details>, rejected: set<string>)
    ensures Posts(row, todo + [h], details, rejected) == Posts(row, todo, details, rejected) + PostOf(row, h, details, rejected)
  {
    if todo != [] {
      assert (todo + [h])[1..] == todo[1..] + [h];
      PostsSnoc(row, todo[1..], h, details, rejected);
    } else {
      assert [h][1..] == [];
    }
  }

  /** The delivery loop: each href with details is posted and then recorded
      (recording happens whether or not the post went through, since
      `send_to_channel` swallows its errors); an href without details is
      skipped. */
  function Deliver(w: World, row: ParserRow, todo: seq<string>, details: map<string, Details>, rejected: set<string>): (r: World)
    ensures r.parsers == w.parsers
    ensures forall a :: a in r.ads <==> a in w.ads || (a.parserId == row.id && a.href in todo && a.href in details)
    ensures r.log == w.log + Posts(row, todo, details, rejected)
  {
    if todo == [] then w
    else
      var n := |todo| - 1;
      var w0 := Deliver(w, row, todo[..n], details, rejected);
      var href := todo[n];
      assert todo == todo[..n] + [href];
      PostsSnoc(row, todo[..n], href, details, rejected);
      assert forall h :: h in todo <==> h in todo[..n] || h == href;
      if href in details then
        World(w0.parsers, AddAd(w0.ads, ParsedAd(row.id, href)).0, w0.log + PostOf(row, href, details, rejected))
      else w0
  }

  /** `check_parser` for the parser `row` (as `get_all_active_parsers`
      returned it) on the listing `hrefs`. */
  function CheckParserSpec(w: World, row: ParserRow, hrefs: seq<string>, details: map<string, Details>,
                           rejected: set<string>): (r: World)
    ensures r.parsers.Keys == w.parsers.Keys
    ensures IdsKeyed(w.parsers) ==> IdsKeyed(r.parsers)
  {
    if hrefs == [] then w
    else
      match Bookmark(w.parsers, row.id)
      case None =>
        var w1 := w.(parsers := WithBookmark(w.parsers, row.id, hrefs[0]));
        Deliver(w1, row, [hrefs[0]], details, rejected)
      case Some(bookmark) =>
        var todo := Selection(hrefs, bookmark, w.ads, row.id);
        if todo == [] then w
        else
          var w1 := Deliver(w, row, todo, details, rejected);
          w1.(parsers := WithBookmark(w1.parsers, row.id, hrefs[0]))
  }

  /** Whatever the path, a check attempts exactly `Attempted`: it records
      the attempted hrefs that had details and nothing else, posts exactly
      their `Posts`, in order, moves the parser's bookmark to the
      newest href exactly when something was attempted, and leaves every
      other bookmark alone. */
  lemma CheckParserEffect(w: World, row: ParserRow, hrefs: seq<string>, details: map<string, Details>,
                          rejected: set<string>)
    ensures var r := CheckParserSpec(w, row, hrefs, details, rejected);
      var todo := Attempted(hrefs, Bookmark(w.parsers, row.id), w.ads, row.id);
      (forall a :: a in r.ads <==> a in w.ads || (a.parserId == row.id && a.href in todo && a.href in details)) &&
      r.log == w.log + Posts(row, todo, details, rejected) &&
      Bookmark(r.parsers, row.id) == (if todo == [] || row.id !in w.parsers then Bookmark(w.parsers, row.id) else Some(hrefs[0])) &&
      (forall q :: q != row.id ==> Bookmark(r.parsers, q) == Bookmark(w.parsers, q))
  {
    var r := CheckParserSpec(w, row, hrefs, details, rejected);
    if hrefs != [] && Bookmark(w.parsers, row.id).None? {
      var w1 := w.(parsers := WithBookmark(w.parsers, row.id, hrefs[0]));
      assert r == Deliver(w1, row, [hrefs[0]], details, rejected);
    }
  }

  /** An empty listing changes nothing. */
  lemma EmptyListingNoEffect(w: World, row: ParserRow, details: map<string, Details>, rejected: set<string>)
    ensures CheckParserSpec(w, row, [], details, rejected) == w
  {
  }

  /** First run: whatever the listing's length, only the newest href is
      posted (when it has details), and the bookmark becomes that href. */
  lemma FirstRunSendsNewestOnly(w: World, row: ParserRow, hrefs: seq<string>, details: map<string, Details>,
                                rejected: set<string>)
    requires row.id in w.parsers && Bookmark(w.parsers, row.id).None? && hrefs != []
    ensures var r := CheckParserSpec(w, row, hrefs, details, rejected);
      r.log == w.log + (if hrefs[0] in details then
        [Dispatch(row.channelId, Message(details[hrefs[0]], row.siteType), details[hrefs[0]].images, rejected)] else []) &&
      Bookmark(r.parsers, row.id) == Some(hrefs[0]) &&
      (forall a :: a in r.ads <==> a in w.ads || (a == ParsedAd(row.id, hrefs[0]) && hrefs[0] in details))
  {
    CheckParserEffect(w, row, hrefs, details, rejected);
    assert [hrefs[0]][1..] == [];
  }

  /** The bookmark path does not consult `parsed_ads`: an href already sent
      that climbs above the bookmark is sent again. */
  lemma ResendsParsedAd(w: World, row: ParserRow, d: Details, rejected: set<string>)
    requires row.id in w.parsers && Bookmark(w.parsers, row.id) == Some("b")
    requires IsParsed(w.ads, row.id, "a")
    ensures var r := CheckParserSpec(w, row, ["a", "b"], map["a" := d], rejected);
      r.log == w.log + [Dispatch(row.channelId, Message(d, row.siteType), d.images, rejected)] &&
      r.ads == w.ads
  {
    var hrefs := ["a", "b"];
    var details := map["a" := d];
    assert IndexOf(hrefs, "b") == 1;
    assert Selection(hrefs, "b", w.ads, row.id) == ["a"];
    var todo := ["a"];
    assert todo[..0] == [];
    var post := Dispatch(row.channelId, Message(d, row.siteType), d.images, rejected);
    var w1 := Deliver(w, row, todo, details, rejected);
    assert Deliver(w, row, todo[..0], details, rejected) == w;
    assert AddAd(w.ads, ParsedAd(row.id, "a")).0 == w.ads;
    assert w1 == World(w.parsers, w.ads, w.log + [post]);
    assert CheckParserSpec(w, row, hrefs, details, rejected) == w1.(parsers := WithBookmark(w1.parsers, row.id, "a"));
  }

  // -----------------------------------------------------------------------
  // Scenarios
  // -----------------------------------------------------------------------

  /** Listing [a, b, c, d, e], bookmark gone, b..e already sent: only a. */
  lemma ScenarioKnownTail(pid: int)
    ensures var ads := [ParsedAd(pid, "b"), ParsedAd(pid, "c"), ParsedAd(pid, "d"), ParsedAd(pid, "e")];
      Selection(["a", "b", "c", "d", "e"], "z", ads, pid) == ["a"]
  {
    var hrefs := ["a", "b", "c", "d", "e"];
    var ads := [ParsedAd(pid, "b"), ParsedAd(pid, "c"), ParsedAd(pid, "d"), ParsedAd(pid, "e")];
    assert IndexOf(hrefs, "z") == 5;
    assert CheckedHrefs(hrefs, CheckLimit) == hrefs;
    assert !IsParsed(ads, pid, "a");
    assert IsParsed(ads, pid, "b");
    assert FirstParsed(hrefs, ads, pid) == Some(1);
  }

  /** Listing [a .. g], bookmark gone, only f already sent: a .. e. */
  lemma ScenarioOneKnown(pid: int)
    ensures Selection(["a", "b", "c", "d", "e", "f", "g"], "z", [ParsedAd(pid, "f")], pid) == ["a", "b", "c", "d", "e"]
  {
    var hrefs := ["a", "b", "c", "d", "e", "f", "g"];
    var ads := [ParsedAd(pid, "f")];
    assert IndexOf(hrefs, "z") == 7;
    assert CheckedHrefs(hrefs, CheckLimit) == hrefs;
    assert FirstParsed(hrefs[5..], ads, pid) == Some(0);
    assert FirstParsed(hrefs, ads, pid) == Some(5);
  }

  /** A listing that no longer shows the bookmark, with nothing sent among
      its newest ten: the newest three, whatever its length. */
  lemma FullyRotatedSendsThree(hrefs: seq<string>, bookmark: string, ads: seq<ParsedAd>, pid: int)
    requires bookmark !in hrefs
    requires forall h :: h in hrefs ==> !IsParsed(ads, pid, h)
    ensures Selection(hrefs, bookmark, ads, pid) == Take(hrefs, MaxSafeCount)
  {
    SelectionCases(hrefs, bookmark, ads, pid);
  }

  // -----------------------------------------------------------------------
  // All parsers, and the loop
  // -----------------------------------------------------------------------

  /** `check_all_parsers` over the active rows, in order; a parser whose check
      raised is skipped and the next one is checked. */
  function CheckAll(w: World, rows: seq<ParserRow>, poll: int -> Poll, rejected: set<string>): (r: World)
    ensures r.parsers.Keys == w.parsers.Keys
    ensures IdsKeyed(w.parsers) ==> IdsKeyed(r.parsers)
  {
    if rows == [] then w
    else
      var n := |rows| - 1;
      var w0 := CheckAll(w, rows[..n], poll, rejected);
      match poll(rows[n].id)
      case Crashed => w0
      case Polled(hrefs, details) => CheckParserSpec(w0, rows[n], hrefs, details, rejected)
  }

  /** One more row of a cycle: its check, or nothing when it raised. */
  lemma CheckAllStep(w: World, rows: seq<ParserRow>, i: nat, poll: int -> Poll, rejected: set<string>)
    requires i < |rows|
    ensures CheckAll(w, rows[..i + 1], poll, rejected) ==
      match poll(rows[i].id)
      case Crashed => CheckAll(w, rows[..i], poll, rejected)
      case Polled(hrefs, details) => CheckParserSpec(CheckAll(w, rows[..i], poll, rejected), rows[i], hrefs, details, rejected)
  {
    assert rows[..i + 1][..i] == rows[..i];
  }

  /** The rows whose check does not raise. */
  function Healthy(rows: seq<ParserRow>, poll: int -> Poll): (r: seq<ParserRow>)
    ensures forall x :: x in r <==> x in rows && poll(x.id).Polled?
  {
    if rows == [] then []
    else
      var n := |rows| - 1;
      assert rows == rows[..n] + [rows[n]];
      Healthy(rows[..n], poll) + (if poll(rows[n].id).Polled? then [rows[n]] else [])
  }

  /** Per-parser isolation: a cycle in which some parsers raise ends exactly
      as a cycle over the remaining parsers alone. */
  lemma {:induction false} CrashesAreIsolated(w: World, rows: seq<ParserRow>, poll: int -> Poll, rejected: set<string>)
    ensures CheckAll(w, rows, poll, rejected) == CheckAll(w, Healthy(rows, poll), poll, rejected)
  {
    if rows != [] {
      var n := |rows| - 1;
      CrashesAreIsolated(w, rows[..n], poll, rejected);
      var h := Healthy(rows[..n], poll);
      var w0 := CheckAll(w, rows[..n], poll, rejected);
      assert w0 == CheckAll(w, h, poll, rejected);
      match poll(rows[n].id)
      case Crashed =>
        assert Healthy(rows, poll) == h + [];
        assert h + [] == h;
      case Polled(hrefs, details) =>
        var h' := h + [rows[n]];
        assert Healthy(rows, poll) == h';
        assert h'[..|h|] == h && h'[|h|] == rows[n];
        assert CheckAll(w, h', poll, rejected) == CheckParserSpec(w0, rows[n], hrefs, details, rejected);
    }
  }

  /** What happens between two cycles: a full check of all active parsers,
      or `stop()` being called. */
  datatype Tick = Check(poll: int -> Poll) | StopRequested

  /** `start()`: cycles run until a stop is requested; each cycle re-reads
      the active parsers. */
  function Run(w: World, ticks: seq<Tick>, lastId: int, rejected: set<string>): World
    requires IdsKeyed(w.parsers)
    decreases |ticks|
  {
    if ticks == [] then w
    else
      match ticks[0]
      case StopRequested => w
      case Check(poll) => Run(CheckAll(w, ActiveUpTo(w.parsers, lastId), poll, rejected), ticks[1..], lastId, rejected)
  }

  /** Nothing after a stop has any effect. */
  lemma {:induction false} StopEndsRun(w: World, before: seq<Tick>, after: seq<Tick>, lastId: int, rejected: set<string>)
    requires IdsKeyed(w.parsers)
    decreases |before|
    ensures Run(w, before + [StopRequested] + after, lastId, rejected) == Run(w, before, lastId, rejected)
  {
    if before == [] {
      assert (before + [StopRequested] + after)[0] == StopRequested;
    } else {
      assert (before + [StopRequested] + after)[1..] == before[1..] + [StopRequested] + after;
      match before[0]
      case StopRequested =>
      case Check(poll) =>
        StopEndsRun(CheckAll(w, ActiveUpTo(w.parsers, lastId), poll, rejected), before[1..], after, lastId, rejected);
    }
  }

  // -----------------------------------------------------------------------
  // The steps of `check_parser` as code
  // -----------------------------------------------------------------------

  /** Lines 104-117: walk the listing until the bookmark, collecting the
      hrefs above it, and give up once 50 are collected. */
  method ScanForBookmark(hrefs: seq<string>, bookmark: string) returns (newHrefs: seq<string>, index: Option<nat>)
    ensures index == BookmarkIndex(hrefs, bookmark)
    ensures index.Some? ==> newHrefs == hrefs[..index.value]
    ensures index.None? ==> newHrefs == Take(hrefs, ScanCap)
  {
    newHrefs := [];
    index := None;
    var i := 0;
    while i < |hrefs|
      invariant 0 <= i <= |hrefs| && i < ScanCap
      invariant newHrefs == hrefs[..i]
      invariant bookmark !in newHrefs
    {
      if hrefs[i] == bookmark {
        index := Some(i);
        assert IndexOf(hrefs, bookmark) == i;
        return;
      }
      newHrefs := newHrefs + [hrefs[i]];
      if |newHrefs| >= ScanCap {
        assert hrefs[..i + 1] == Take(hrefs, ScanCap);
        return;
      }
      i := i + 1;
    }
    assert hrefs[..i] == hrefs;
  }

  class SchedulerService {
    const db: Database
    /** The image urls for which building an `InputMediaPhoto` raises. */
    const rejectedMedia: set<string>
    var isRunning: bool
    /** Every post attempted, oldest first. */
    var sent: seq<Outgoing>

    ghost predicate Valid()
      reads this, db
    {
      db.Valid()
    }

    /** The tables and the posts, as one value. */
    function State(): World
      reads this, db
    {
      World(db.parsers, db.parsedAds, sent)
    }

    constructor(db: Database, rejectedMedia: set<string>)
      requires db.Valid()
      ensures Valid()
      ensures this.db == db && this.rejectedMedia == rejectedMedia
      ensures !isRunning && sent == []
    {
      this.db := db;
      this.rejectedMedia := rejectedMedia;
      isRunning := false;
      sent := [];
    }

    /** `find_last_seen_ad`: the first of the newest `check_limit` hrefs the
        parser has already sent. */
    method FindLastSeenAd(parserId: int, hrefs: seq<string>, checkLimit: int := 10) returns (index: Option<nat>)
      ensures index == FirstParsedIndex(hrefs, db.parsedAds, parserId, checkLimit)
    {
      var checkHrefs := PrefixTo(hrefs, if checkLimit < |hrefs| then checkLimit else |hrefs|);
      for i := 0 to |checkHrefs|
        invariant forall k :: 0 <= k < i ==> !IsParsed(db.parsedAds, parserId, checkHrefs[k])
      {
        var isParsed := db.IsAdParsed(parserId, checkHrefs[i]);
        if isParsed {
          return Some(i);
        }
      }
      return None;
    }

    /** The media group of lines 187-198. */
    method BuildMediaGroup(images: seq<string>, message: string) returns (mediaGroup: seq<MediaPhoto>)
      ensures mediaGroup == Album(Take(images, AlbumCap), message, rejectedMedia)
    {
      var first := Take(images, AlbumCap);
      mediaGroup := [];
      for i := 0 to |first|
        invariant mediaGroup == Album(first[..i], message, rejectedMedia)
      {
        assert first[..i + 1][..i] == first[..i];
        if first[i] !in rejectedMedia {
          if i == 0 {
            mediaGroup := mediaGroup + [MediaPhoto(first[i], Some(message))];
          } else {
            mediaGroup := mediaGroup + [MediaPhoto(first[i], None)];
          }
        }
      }
      assert first[..|first|] == first;
    }

    /** `send_to_channel` */
    method SendToChannel(chatId: string, details: Details, siteType: string)
      modifies this
      ensures sent == old(sent) + [Dispatch(chatId, Message(details, siteType), details.images, rejectedMedia)]
      ensures isRunning == old(isRunning)
    {
      var message := FormatMessage(details, siteType);
      var images := details.images;
      if |images| == 0 {
        sent := sent + [SendMessage(chatId, message)];
      } else if |images| == 1 {
        sent := sent + [SendPhoto(chatId, images[0], message)];
      } else {
        var mediaGroup := BuildMediaGroup(images, message);
        if mediaGroup != [] {
          sent := sent + [SendMediaGroup(chatId, mediaGroup)];
        } else {
          sent := sent + [SendMessage(chatId, message)];
        }
      }
    }

    /** The delivery loops of lines 84-99 and 144-159. */
    method DeliverAll(row: ParserRow, todo: seq<string>, details: map<string, Details>)
      requires Valid()
      modifies this, db
      ensures Valid()
      ensures State() == Deliver(old(State()), row, todo, details, rejectedMedia)
      ensures db.lastId == old(db.lastId) && isRunning == old(isRunning)
    {
      ghost var w := State();
      for i := 0 to |todo|
        invariant Valid()
        invariant State() == Deliver(w, row, todo[..i], details, rejectedMedia)
        invariant db.lastId == old(db.lastId) && isRunning == old(isRunning)
      {
        assert todo[..i + 1][..i] == todo[..i];
        var href := todo[i];
        if href in details {
          SendToChannel(row.channelId, details[href], row.siteType);
          var inserted := db.AddParsedAd(row.id, href);
        }
      }
      assert todo[..|todo|] == todo;
    }

    /** `check_parser` on the listing `hrefs` and the details of its hrefs. */
    method CheckParser(row: ParserRow, hrefs: seq<string>, details: map<string, Details>)
      requires Valid()
      modifies this, db
      ensures Valid()
      ensures State() == CheckParserSpec(old(State()), row, hrefs, details, rejectedMedia)
      ensures db.lastId == old(db.lastId) && isRunning == old(isRunning)
    {
      if hrefs == [] {
        return;
      }
      var lastKnownHref := db.GetLastKnownHref(row.id);
      if lastKnownHref.None? {
        db.SetLastKnownHref(row.id, hrefs[0]);
        DeliverAll(row, [hrefs[0]], details);
        return;
      }
      var newHrefs, bookmarkIndex := ScanForBookmark(hrefs, lastKnownHref.value);
      if bookmarkIndex.None? {
        var lastSeenIndex := FindLastSeenAd(row.id, hrefs, CheckLimit);
        if lastSeenIndex.Some? {
          newHrefs := hrefs[..lastSeenIndex.value];
        } else {
          newHrefs := Take(hrefs, MaxSafeCount);
        }
      }
      if newHrefs == [] {
        return;
      }
      DeliverAll(row, newHrefs, details);
      db.SetLastKnownHref(row.id, hrefs[0]);
    }

    /** `check_all_parsers`: every active parser in turn; a check that raises
        is logged and the loop goes on. */
    method CheckAllParsers(poll: int -> Poll)
      requires Valid()
      modifies this, db
      ensures Valid()
      ensures State() == CheckAll(old(State()), ActiveUpTo(old(db.parsers), old(db.lastId)), poll, rejectedMedia)
      ensures db.lastId == old(db.lastId) && isRunning == old(isRunning)
    {
      var parsers := db.GetAllActiveParsers();
      ghost var w := State();
      for i := 0 to |parsers|
        invariant Valid()
        invariant State() == CheckAll(w, parsers[..i], poll, rejectedMedia)
        invariant db.lastId == old(db.lastId) && isRunning == old(isRunning)
      {
        CheckAllStep(w, parsers, i, poll, rejectedMedia);
        match poll(parsers[i].id)
        case Crashed =>
        case Polled(hrefs, details) =>
          CheckParser(parsers[i], hrefs, details);
      }
      assert parsers[..|parsers|] == parsers;
    }

    /** `start()`: run cycles while `is_running`; a stop requested between
        two cycles ends the loop. */
    method Start(ticks: seq<Tick>)
      requires Valid()
      modifies this, db
      ensures Valid()
      ensures State() == Run(old(State()), ticks, old(db.lastId), rejectedMedia)
      ensures isRunning <==> forall k :: 0 <= k < |ticks| ==> ticks[k].Check?
    {
      isRunning := true;
      ghost var w0 := State();
      var i := 0;
      while isRunning && i < |ticks|
        invariant Valid() && 0 <= i <= |ticks|
        invariant db.lastId == old(db.lastId)
        invariant isRunning <==> forall k :: 0 <= k < i ==> ticks[k].Check?
        invariant Run(w0, ticks, db.lastId, rejectedMedia) ==
          if isRunning then Run(State(), ticks[i..], db.lastId, rejectedMedia) else State()
      {
        assert ticks[i..][1..] == ticks[i + 1..];
        match ticks[i] {
          case StopRequested =>
            Stop();
          case Check(poll) =>
            CheckAllParsers(poll);
        }
        i := i + 1;
      }
      if isRunning {
        assert ticks[i..] == [];
      }
    }

    /** `stop()` */
    method Stop()
      modifies this
      ensures !isRunning && sent == old(sent)
    {
      isRunning := false;
    }
  }
}
