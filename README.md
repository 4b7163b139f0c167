# parser_olx_avtoelon, modelled in Dafny

The bot watches OLX.uz and Avtoelon.uz search pages ("parsers") and
re-posts each new ad to a Telegram channel. This project models its core
and proves properties of it:

- **`Scheduler`** (services/scheduler_service.py) is the polling step.
  - Each parser keeps a single bookmark, the newest href seen last time.
    For every active parser the step decides which prefix of the
    newest-first listing is new (`Selection`, `Attempted`).
  - It posts each new ad and records it in `parsed_ads`. Then it moves the
    bookmark to the listing's newest href.
  - `CheckParserSpec` states one parser check as a transition on a `World`:
    both tables plus the log of posts. `CheckAll` is a whole cycle and
    `Run` is the `start`/`stop` loop.
  - The class `SchedulerService` performs these steps through the
    `Database` methods. It is proved to produce exactly those transitions.
  - `Dispatch` is the media rule of `send_to_channel`.
- **`Store`** (database/db.py) is the two SQLite tables as an in-memory
  store.
  - `parsers` uses an AUTOINCREMENT id, soft delete and the bookmark
    column.
  - `parsed_ads` holds unique `(parser_id, href)` pairs.
  - The class `Database` has one method per query, each proved against a
    function on the table values.
- **`Format`** (`ParserService.format_message`) builds the HTML post.
  `FormatMessage` builds it with `+=` as the source does and is proved
  equal to the block-by-block specification `Message`.
- **`Listings`** covers the accept/skip/de-duplicate rules of the two
  listing scrapers. Pages are modelled as abstract cards, not HTML. The
  module also holds the `get_listings` / `get_ad_details` site dispatch.
- **`Admin`** (handlers/admin_handler.py) is the add-parser wizard. It is a
  per-user state machine with the admin gate and input checks, plus
  `delete_parser`'s callback parsing.
- **`Keyboards`** (keyboards/inline_keyboards.py) is the parser-list
  keyboard. Its "delete" callback is proved to parse back to the same id.
- **`Text`** and **`Wrappers`** hold the Python string operations the
  code relies on (`strip`, `split`, slicing, `int`/`str` of integers) and
  `Option`.

What the code does, where a design reading might expect otherwise:

- Each parser keeps one bookmark href. There is no recency window and no
  "N consecutive known ads" threshold.
- The bookmark scan stops after collecting 50 hrefs, so a bookmark found
  at index 50 or later counts as not found. At most 49 ads are posted
  through the bookmark path (`Scheduler.Selection`).
- The bookmark path never consults `parsed_ads`. An ad that was already
  sent but now sits above the bookmark is sent again
  (`Scheduler.ResendsParsedAd`).
- After a non-empty delivery the bookmark becomes the listing's newest
  href, whether or not any post went through. After an empty selection it
  stays where it was. On a parser's first run the bookmark is set before
  anything is sent, and only the newest ad is sent.
- An href is recorded as sent even when the Telegram call failed, because
  `send_to_channel` swallows its errors.

## Model

| member | source | states |
|---|---|---|
| Scheduler.BookmarkIndex | services/scheduler_service.py:104-117 | The scan meets the bookmark only at its first occurrence and only below index 50; when it does not, the bookmark is absent from the first 50 hrefs |
| Scheduler.ScanForBookmark | services/scheduler_service.py:104-117 | The scan loop returns exactly `BookmarkIndex` and, with it, the hrefs above the bookmark, or the first 50 when it gives up |
| Scheduler.FirstParsed | services/scheduler_service.py:49-55 | The result is the first position whose href is already in `parsed_ads` for the parser, and nothing before it is; `None` means no href of the list is |
| Scheduler.SchedulerService.FindLastSeenAd | services/scheduler_service.py:42-55 | The loop over `hrefs[:min(check_limit, len)]` returns the first already-sent index among them, as `FirstParsedIndex` |
| Scheduler.Selection | services/scheduler_service.py:104-134 | What a parser with a bookmark delivers is a prefix of the listing, shorter than 50, never containing the bookmark |
| Scheduler.SelectionCases | services/scheduler_service.py:119-134 | The three cases: the hrefs above the bookmark; else the hrefs above the first already-sent one among the newest ten, none of them already sent; else the newest three, when none of the newest ten was sent |
| Scheduler.Attempted | services/scheduler_service.py:64-101 | An empty listing attempts nothing, a first run only `hrefs[0]`, and every attempt is a prefix of the listing shorter than 50 |
| Scheduler.AlbumShape | services/scheduler_service.py:187-198 | The album's photos are exactly the `Kept` images, one each and in image order; none is rejected; only the photo of image 0 is captioned, and only when image 0 was kept |
| Scheduler.Kept | services/scheduler_service.py:188-198 | The images whose `InputMediaPhoto` can be built: an image is kept exactly when it is not rejected, and never more images than given |
| Scheduler.AlbumOrder | services/scheduler_service.py:188-198 | The album has one photo per kept image, and photo k shows the k-th kept image |
| Scheduler.AlbumMedia | services/scheduler_service.py:188-198 | Every album photo is one of the images and none was rejected; the album is never longer than the images |
| Scheduler.AlbumCaptions | services/scheduler_service.py:190-195 | The caption sits on the photo of image 0 when that image was kept, and on no other photo |
| Scheduler.AlbumKeepsAll | services/scheduler_service.py:188-195 | When no image is rejected, the album has one photo per image, in image order |
| Scheduler.AlbumEmpty | services/scheduler_service.py:187-200 | The album is empty exactly when every image was rejected |
| Scheduler.DispatchShape | services/scheduler_service.py:167-212 | Every post goes to the parser's channel: text when there are no images, a captioned photo for one, an album of 1..10 photos from `images[:10]` with the message as caption only on the first, text again when the album is empty |
| Scheduler.SchedulerService.BuildMediaGroup | services/scheduler_service.py:187-198 | The album loop builds exactly `Album` of the first ten images |
| Scheduler.SchedulerService.SendToChannel | services/scheduler_service.py:167-215 | One post is appended to the log, the `Dispatch` of the formatted message, and nothing else changes |
| Scheduler.Posts | services/scheduler_service.py:143-159 | The posts of a delivery: for each href with details, in order, the `Dispatch` of its formatted message. At most one post per href, and every post goes to the parser's channel |
| Scheduler.Deliver | services/scheduler_service.py:143-159 | Delivery records exactly the todo hrefs that had details, leaves `parsers` alone, and extends the log by exactly `Posts` of the todo list |
| Scheduler.SchedulerService.DeliverAll | services/scheduler_service.py:84-99 | The delivery loop changes the tables and the log exactly as `Deliver` |
| Scheduler.CheckParserSpec | services/scheduler_service.py:57-165 | One check keeps the set of parser ids and every row under its own id |
| Scheduler.CheckParserEffect | services/scheduler_service.py:57-165 | One check records exactly the attempted hrefs that had details, appends exactly `Posts` of the attempted hrefs to the log, moves this parser's bookmark to `hrefs[0]` exactly when something was attempted, and leaves every other bookmark alone |
| Scheduler.SchedulerService.CheckParser | services/scheduler_service.py:57-165 | The step-by-step check changes the tables and the log exactly as `CheckParserSpec` |
| Scheduler.EmptyListingNoEffect | services/scheduler_service.py:64-68 | An empty listing changes nothing |
| Scheduler.FirstRunSendsNewestOnly | services/scheduler_service.py:76-101 | A first run posts exactly the `Dispatch` of `hrefs[0]`'s message when it has details and nothing otherwise, records only `hrefs[0]`, and sets the bookmark to it |
| Scheduler.ResendsParsedAd | services/scheduler_service.py:104-159 | With bookmark "b" and "a" already sent, the listing [a, b] posts "a" again and leaves `parsed_ads` unchanged |
| Scheduler.ScenarioKnownTail | services/scheduler_service.py:120-128 | Bookmark gone, [a..e] with b..e already sent: only a is selected |
| Scheduler.ScenarioOneKnown | services/scheduler_service.py:120-128 | Bookmark gone, [a..g] with only f already sent: a..e are selected |
| Scheduler.FullyRotatedSendsThree | services/scheduler_service.py:130-133 | A listing without the bookmark and without any sent href selects the newest three, whatever its length |
| Scheduler.CheckAll | services/scheduler_service.py:32-40 | A cycle keeps the set of parser ids and every row under its own id |
| Scheduler.Healthy | services/scheduler_service.py:35-40 | The parsers whose check does not raise are exactly those polled without error |
| Scheduler.CrashesAreIsolated | services/scheduler_service.py:35-40 | A cycle in which some parsers raise ends exactly as a cycle over the other parsers alone |
| Scheduler.SchedulerService.CheckAllParsers | services/scheduler_service.py:32-40 | The loop over the active parsers, in id order, changes the state exactly as `CheckAll` |
| Scheduler.StopEndsRun | services/scheduler_service.py:20-30 | Nothing after a stop request has any effect on the run |
| Scheduler.SchedulerService.Start | services/scheduler_service.py:20-30 | The loop runs cycles until a stop and ends in the state `Run` gives; `is_running` stays set exactly when no stop was requested |
| Scheduler.SchedulerService.Stop | services/scheduler_service.py:217-218 | `is_running` becomes false and nothing is posted |
| Scheduler.SchedulerService.constructor | services/scheduler_service.py:14-18 | A new service is not running and has posted nothing |
| Scheduler.IndexOf | services/scheduler_service.py:107-111 | The first position of an href in the listing |
| Store.Database.constructor | database/db.py:17-42 | Both tables start empty and the id counter at 0 |
| Store.Database.AddParser | database/db.py:19-31 | The new row gets an id above every earlier one, status active and no bookmark, and that id is returned; `parsed_ads` is unchanged |
| Store.SoftDelete | database/db.py:75-82 | Only that row's status becomes deleted, no row disappears, and an unknown id changes nothing |
| Store.Database.DeleteParser | database/db.py:75-82 | The delete is `SoftDelete` and always reports success |
| Store.ActiveUpTo | database/db.py:66-73 | Exactly the active rows, each as stored, in ascending id order |
| Store.Database.GetAllActiveParsers | database/db.py:66-73 | Every row is returned exactly when its status is active |
| Store.OwnedBy | database/db.py:56-64 | Exactly the given rows with a matching `admin_id`, order kept |
| Store.Database.GetUserParsers | database/db.py:56-64 | The active rows of that admin |
| Store.AddAd | database/db.py:84-94 | A new pair is appended and reported inserted; a repeated pair violates UNIQUE, is reported not inserted, and leaves the table as it was; the table never holds a pair twice |
| Store.Database.AddParsedAd | database/db.py:84-94 | The insert behaves as `AddAd` and touches nothing else |
| Store.AddAdIdempotent | database/db.py:84-94 | Inserting the same pair twice: the second insert fails and changes nothing |
| Store.Database.IsAdParsed | database/db.py:105-112 | True exactly when the pair is in `parsed_ads` |
| Store.HrefsNewestFirst | database/db.py:96-103 | Exactly the hrefs recorded for the parser, each with its row in the table |
| Store.HrefsNewestFirstOrder | database/db.py:96-103 | `ORDER BY parsed_at DESC`: with UNIQUE rows, of two listed hrefs the one listed first sits in a later row of the table |
| Store.RecentHrefs | database/db.py:96-103 | A prefix of `HrefsNewestFirst` of length `min(limit, count)` for a non-negative limit, and all of it for a negative one |
| Store.Database.GetParsedAds | database/db.py:96-103 | The query returns `RecentHrefs` |
| Store.Database.GetLastKnownHref | database/db.py:114-121 | The bookmark, or `None` for an unknown id or a NULL column |
| Store.WithBookmark | database/db.py:123-128 | Afterwards that parser's bookmark reads back as the new href, every other bookmark and column is unchanged, and an unknown id changes nothing |
| Store.Database.SetLastKnownHref | database/db.py:123-128 | The update is `WithBookmark` and touches nothing else |
| Store.FreshParserHasNoBookmark | database/db.py:27 | A freshly added parser has no bookmark, and a soft delete keeps the bookmark readable |
| Format.NormalizeValue | services/parser_service.py:511 | A normalised attribute value holds no line break and has no whitespace at either end |
| Format.PriceBlock | services/parser_service.py:482-483 | A price line appears exactly when the details carry a price |
| Format.AvtoelonBlock | services/parser_service.py:487-517 | The avtoelon block always starts with the "Ma'lumotlar" heading |
| Format.OlxBlock | services/parser_service.py:519-553 | The OLX block is empty exactly when no allow-listed key is present, and otherwise starts with the heading |
| Format.Truncate | services/parser_service.py:556-559 | A description never exceeds 500 characters; a short one is kept, a long one becomes its first 497 characters and "..." |
| Format.AppendAttributeLines | services/parser_service.py:501-512 | The key loop appends exactly the attribute lines of the allow-listed keys present, in list order |
| Format.AppendAvtoelonBlock | services/parser_service.py:486-517 | The avtoelon branch appends exactly `AvtoelonBlock`: heading, year, attribute lines, location, blank line |
| Format.AppendOlxBlock | services/parser_service.py:519-551 | The OLX branch appends exactly `OlxBlock`: nothing when no allow-listed key is present, else heading, year and attribute lines |
| Format.FormatMessage | services/parser_service.py:476-562 | The text built with `+=` is exactly the specified `Message` |
| Format.AttributeLineIsOneLine | services/parser_service.py:511-512 | One attribute line holds exactly one line break |
| Format.OneLinePerAttribute | services/parser_service.py:539-550 | The attribute lines hold one line break per allow-listed key present |
| Format.MessageFrame | services/parser_service.py:477-480 | The message starts with the linked title, "Yangi e'lon" when there is none, and ends with the link to the same url |
| Listings.Collect | services/parser_service.py:59-60 | The collected hrefs hold no duplicate and are exactly the hrefs offered |
| Listings.FirstOffer | services/parser_service.py:59-60 | The position where an href is first offered |
| Listings.CollectKeepsFirstSeenOrder | services/parser_service.py:77-78 | The collected hrefs are in order of first occurrence |
| Listings.CollectGrows | services/parser_service.py:135-136 | A new offer adds its href at the end, or nothing when already collected |
| Listings.OlxOffer | services/parser_service.py:48-60 | A card contributes an href exactly when it is walked, not marked ТОП/TOP, and links to an ad page |
| Listings.OlxOffers | services/parser_service.py:65-80 | One offer per card, in document order |
| Listings.GetOlxListings | services/parser_service.py:22-85 | The card loop with its membership check returns `OlxListings` |
| Listings.OlxListingsAccepted | services/parser_service.py:30-82 | An href is listed exactly when the page was served with status 200 and has the grid, and some walked, unpromoted card links to it as an OLX ad |
| Listings.AvtoelonOffer | services/parser_service.py:109-138 | An item contributes an href exactly when it has the advert button, no vip/zor/alo sale badge, a title the filter does not match, and an `/a/show/` link |
| Listings.AvtoelonOffers | services/parser_service.py:107-109 | One offer per item, in order |
| Listings.GetAvtoelonListings | services/parser_service.py:87-141 | The item loop returns `AvtoelonListings` |
| Listings.AvtoelonListingsAccepted | services/parser_service.py:95-139 | An href is listed exactly when the page was served with the result block and some accepted item links to it |
| Listings.NoFilterKeepsAll | services/parser_service.py:131 | No filter and an empty filter give the same listing, whatever `lower` is |
| Listings.GetListings | services/parser_service.py:14-19 | The scraper of the parser's site answers; an unknown site yields []; the listing never holds an href twice |
| Listings.AdDetails | services/parser_service.py:144-149 | The detail scraper of the parser's site answers; an unknown site yields `None` |
| Admin.SiteOf | handlers/admin_handler.py:77 | 'olx' exactly for 'site_olx', 'avtoelon' otherwise |
| Admin.FilterValue | handlers/admin_handler.py:194 | A blank filter becomes `None`; any other is kept stripped, non-empty, without whitespace at either end |
| Admin.DeleteTarget | handlers/admin_handler.py:261 | Callback data without '_' names no parser |
| Admin.DeleteCallbackRoundTrip | handlers/admin_handler.py:261 | The `delete_{id}` callback of a parser row parses back to that id |
| Admin.DeleteCallbacksDistinct | keyboards/inline_keyboards.py:41-44 | Different parsers get different delete callbacks |
| Admin.AdminSession.constructor | handlers/admin_handler.py:15-19 | A session starts with no state and no data |
| Admin.AdminSession.Clear | handlers/admin_handler.py:173 | `state.clear()` leaves no state and no data |
| Admin.AdminSession.AddParserStart | handlers/admin_handler.py:53-67 | An admin is asked for a site with the collected data kept; a non-admin changes nothing |
| Admin.AdminSession.SelectSite | handlers/admin_handler.py:70-92 | An admin's site choice is stored and the url is asked for; a non-admin or other data changes nothing |
| Admin.AdminSession.ProcessUrl | handlers/admin_handler.py:95-132 | A non-admin's wizard is cleared; a stripped url with the site's prefix is stored and the channel is asked for; any other url changes nothing |
| Admin.AdminSession.ProcessChannel | handlers/admin_handler.py:135-183 | A channel id not starting with -100 changes nothing; an avtoelon parser then waits for its filter; any other is saved without a filter and the wizard is cleared; every saved row passed the wizard's checks |
| Admin.AdminSession.StoreChannel | handlers/admin_handler.py:154-173 | With an accepted channel id, an avtoelon wizard stores it and waits for the filter; any other site saves the parser under the next id and clears the wizard |
| Admin.AdminSession.ProcessFilter | handlers/admin_handler.py:186-216 | The avtoelon parser is saved with `FilterValue` of the text and the wizard is cleared; a non-admin's wizard is cleared without saving |
| Admin.AdminSession.Save | handlers/admin_handler.py:202-204 | `add_parser` then `state.clear()`: the row is stored under the next id with the collected url, channel, site and filter, `parsed_ads` untouched, the wizard cleared |
| Admin.AdminSession.CancelHandler | handlers/admin_handler.py:292-299 | An admin's wizard is cleared; a non-admin's is left alone |
| Admin.AdminSession.DeleteParser | handlers/admin_handler.py:254-263 | An admin's `delete_{n}` soft-deletes parser n; data naming no number, or a non-admin, changes nothing |
| Admin.AddOlxParserScenario | handlers/admin_handler.py:53-183 | Picking OLX, then a valid url and channel, adds exactly one parser with the stripped url and channel and no filter, and ends the wizard |
| Keyboards.ShortName | keyboards/inline_keyboards.py:30-33 | The short name never exceeds 30 characters and holds no '/'; a url without '/' gives "Parser {id}" |
| Keyboards.ShortNameIsParentSegment | keyboards/inline_keyboards.py:31 | For a url ending in `/seg/last`, the name is `seg` cut to 30 characters |
| Keyboards.SiteLabel | keyboards/inline_keyboards.py:35 | 'OLX' exactly for the 'olx' site type, else 'Avtoelon' |
| Keyboards.ParserRowButtons | keyboards/inline_keyboards.py:29-45 | The row built for one parser is `ParserButtons`: its short name and site label, then the delete button with its id |
| Keyboards.ParsersList | keyboards/inline_keyboards.py:25-52 | One two-button row per parser in input order, the placeholder row when there are none, the back row last: len+1 rows, or 2 when empty |
| Text.Strip | handlers/admin_handler.py:103 | `str.strip()`: nothing longer, no whitespace left at either end, empty exactly for an all-whitespace string |
| Text.StripIsCut | handlers/admin_handler.py:103 | `str.strip()` returns an infix of the string with only whitespace before and after it |
| Text.StripUnique | handlers/admin_handler.py:103 | Any infix of the string with only whitespace around it and none at its own ends is the result of `Strip`, so the result is pinned |
| Text.Split | keyboards/inline_keyboards.py:31 | `str.split(sep)`: one more part than separators, no part holds the separator, and joining the parts gives the string back |
| Text.PrefixTo | services/scheduler_service.py:47 | Python's `s[:stop]`, negative `stop` included: a prefix of the given length |
| Text.Take | services/scheduler_service.py:133 | `s[:n]`: the first `min(n, len(s))` elements |
| Text.IntRoundTrip | handlers/admin_handler.py:261 | `int(str(n)) == n` |

## Left out

- HTTP fetching and the HTML is not modelled. A listing page is the list of cards (or items) its selectors find, reduced to the facts the rules test, and a failed fetch is `Fetch.Failed`.
- `_get_olx_ad_details` and `_get_avtoelon_ad_details` (the detail scrapers, their CDN-size and phone regexes, `list(set(images))`) are not modelled. A detail record is an input, and only the `get_ad_details` dispatch is modelled. `list(set(images))` makes the image order unpredictable, so only the first-ten cap and the caption rule are stated.
- Telegram calls are not performed. Each post is an `Outgoing` value appended to a log in the order attempted. Replies, `edit_text` and `answer` of the handlers are not modelled.
- `InputMediaPhoto` construction failure has no cause in the model: the set `rejectedMedia` names the image urls for which it raises.
- `asyncio.sleep`, `Config.CHECK_INTERVAL` and the concurrency between the scheduler and the bot in main.py are not modelled. A run is a sequence of `Tick`s, where `stop()` arrives between two cycles.
- Scheduler.Poll: an exception escaping `check_parser` is modelled as happening before the check changed anything. In the in-memory store no database call raises, `get_listings`/`get_ad_details` swallow their own errors, and `send_to_channel` swallows its own. So exceptions in the delivery loop collapse into "no details".
- Store: `created_at`/`parsed_at` timestamps are not modelled. Insertion order stands for `ORDER BY parsed_at DESC`, which ignores SQLite's second-granularity ties. The SQLite connection and `create_tables` on an existing file are not modelled either.
- Listings.FilteredOut: Unicode `str.lower` is a function parameter (`lower`), not defined.
- Admin.DeleteTarget: Python's `int()` also accepts Unicode digits, underscores between digits and surrounding whitespace of every Unicode kind. The model parses an optional sign and ASCII digits inside `Text.Strip`'s whitespace.
- Admin: the router filters are modelled as each handler's first check. A message without text (`message.text` is None, so `.strip()` raises) changes nothing.
- `Config.ADMIN_IDS` is the set parameter `adminIds`. The admin menu, `show_parsers`, `back_to_admin` and handlers/start_handler.py only send fixed texts or fixed keyboards and are not modelled. The constant keyboards `admin_menu`, `site_selection`, `back_to_admin` and `cancel` are not modelled either.
- Logging is not modelled.
