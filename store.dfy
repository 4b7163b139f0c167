/**
 * The bot's persistence (database/db.py) as an in-memory store with the two
 * SQLite tables' behaviour:
 *  - `parsers`: rows keyed by an AUTOINCREMENT id, soft-deleted through a
 *    status column, each carrying the scheduler's bookmark `last_known_href`;
 *  - `parsed_ads`: `(parser_id, href)` pairs under a UNIQUE constraint, kept in
 *    insertion order (which stands for the `parsed_at` timestamp order).
 * The pure functions below describe each statement on table values; the
 * `Database` class holds the tables and its methods are proved against them.
 */
module Store {
  import opened Wrappers
  import opened Text

  datatype Status = Active | Deleted

  /** One row of `parsers` (created_at is not modelled). */
  datatype ParserRow = ParserRow(
    id: int,
    adminId: int,
    url: string,
    channelId: string,
    siteType: string,
    filterText: Option<string>,
    lastKnownHref: Option<string>,
    status: Status)

  /** One row of `parsed_ads` (its own id and parsed_at are not modelled). */
  datatype ParsedAd = ParsedAd(parserId: int, href: string)

  /** Every row is stored under its own id. */
  predicate IdsKeyed(ps: map<int, ParserRow>) {
    forall k :: k in ps ==> ps[k].id == k
  }

  // -----------------------------------------------------------------------
  // `parsers`
  // -----------------------------------------------------------------------

  /** The row `INSERT INTO parsers (...)` creates: the column defaults give
      status 'active' and a NULL bookmark. */
  function NewRow(id: int, adminId: int, url: string, channelId: string, siteType: string,
                  filterText: Option<string>): ParserRow
  {
    ParserRow(id, adminId, url, channelId, siteType, filterText, None, Active)
  }

  /** `UPDATE parsers SET status = 'deleted' WHERE id = ?`: no row disappears,
      only that row's status changes, and an unknown id changes nothing. */
  function SoftDelete(ps: map<int, ParserRow>, id: int): (r: map<int, ParserRow>)
    ensures r.Keys == ps.Keys
    ensures forall k :: k in r && k != id ==> r[k] == ps[k]
    ensures id in ps ==> r[id].status == Deleted && r[id] == ps[id].(status := Deleted)
  {
    if id in ps then ps[id := ps[id].(status := Deleted)] else ps
  }

  /** `SELECT last_known_href FROM parsers WHERE id = ?`: None for an unknown
      id as well as for a NULL column. */
  function Bookmark(ps: map<int, ParserRow>, id: int): Option<string> {
    if id in ps then ps[id].lastKnownHref else None
  }

  /** `UPDATE parsers SET last_known_href = ? WHERE id = ?`: afterwards that
      parser's bookmark reads back as `href`; every other bookmark, and every
      other column, is unchanged; an unknown id changes nothing. */
  function WithBookmark(ps: map<int, ParserRow>, id: int, href: string): (r: map<int, ParserRow>)
    ensures r.Keys == ps.Keys
    ensures forall q :: Bookmark(r, q) == if q == id && id in ps then Some(href) else Bookmark(ps, q)
    ensures forall k :: k in r && k != id ==> r[k] == ps[k]
    ensures id in ps ==> r[id] == ps[id].(lastKnownHref := Some(href))
  {
    if id in ps then ps[id := ps[id].(lastKnownHref := Some(href))] else ps
  }

  /** `SELECT * FROM parsers WHERE status = 'active'` over the ids 1..n, in
      rowid order. */
  function ActiveUpTo(ps: map<int, ParserRow>, n: int): (rows: seq<ParserRow>)
    requires IdsKeyed(ps)
    ensures forall r :: r in rows ==> r.id in ps && ps[r.id] == r && r.status == Active && 1 <= r.id <= n
    ensures forall k :: k in ps && 1 <= k <= n && ps[k].status == Active ==> ps[k] in rows
    ensures IdsAscending(rows)
    decreases n
  {
    if n <= 0 then []
    else
      var prefix := ActiveUpTo(ps, n - 1);
      if n in ps && ps[n].status == Active then prefix + [ps[n]] else prefix
  }

  /** Ids strictly increase along `rows`. */
  predicate IdsAscending(rows: seq<ParserRow>) {
    forall i, j :: 0 <= i < j < |rows| ==> rows[i].id < rows[j].id
  }

  /** `... AND admin_id = ?`: the rows of `rows` added by `adminId`, keeping
      their order. */
  function OwnedBy(rows: seq<ParserRow>, adminId: int): (r: seq<ParserRow>)
    ensures forall x :: x in r <==> x in rows && x.adminId == adminId
    ensures IdsAscending(rows) ==> IdsAscending(r)
  {
    if rows == [] then []
    else
      var rest := OwnedBy(rows[1..], adminId);
      assert forall x :: x in rows <==> x == rows[0] || x in rows[1..];
      if rows[0].adminId == adminId then
        assert IdsAscending(rows) ==> forall x :: x in rest ==> rows[0].id < x.id;
        [rows[0]] + rest
      else rest
  }

  // -----------------------------------------------------------------------
  // `parsed_ads`
  // -----------------------------------------------------------------------

  /** `SELECT 1 FROM parsed_ads WHERE parser_id = ? AND href = ?` */
  predicate IsParsed(ads: seq<ParsedAd>, parserId: int, href: string) {
    ParsedAd(parserId, href) in ads
  }

  /** `INSERT INTO parsed_ads (parser_id, href)`: a new pair is appended and
      reported as inserted; a pair already present violates UNIQUE, is
      reported as not inserted and leaves the table as it was. */
  function AddAd(ads: seq<ParsedAd>, ad: ParsedAd): (r: (seq<ParsedAd>, bool))
    ensures r.1 <==> ad !in ads
    ensures r.1 ==> r.0 == ads + [ad]
    ensures !r.1 ==> r.0 == ads
    ensures forall a :: a in r.0 <==> a in ads || a == ad
    ensures NoDuplicates(ads) ==> NoDuplicates(r.0)
  {
    if ad in ads then (ads, false) else (ads + [ad], true)
  }

  /** The hrefs recorded for `parserId`, newest first. */
  function HrefsNewestFirst(ads: seq<ParsedAd>, parserId: int): (r: seq<string>)
    ensures forall h :: h in r <==> IsParsed(ads, parserId, h)
    ensures forall k :: 0 <= k < |r| ==> ParsedAd(parserId, r[k]) in ads
    ensures |r| <= |ads|
  {
    if ads == [] then []
    else
      var last := ads[|ads| - 1];
      var older := ads[..|ads| - 1];
      assert forall a :: a in ads <==> a in older || a == last;
      (if last.parserId == parserId then [last.href] else []) + HrefsNewestFirst(older, parserId)
  }

  /** The position of a row in `parsed_ads` (under UNIQUE its only one, see
      `RowOfUnique`).  Rows are kept in insertion order, so a larger position
      means a later `parsed_at`. */
  ghost function RowOf(ads: seq<ParsedAd>, a: ParsedAd): (k: nat)
    requires a in ads
    ensures k < |ads| && ads[k] == a
  {
    var k :| 0 <= k < |ads| && ads[k] == a; k
  }

  /** Without duplicates, a row's position is the only index holding it. */
  lemma RowOfUnique(ads: seq<ParsedAd>, a: ParsedAd, k: nat)
    requires NoDuplicates(ads) && k < |ads| && ads[k] == a
    ensures RowOf(ads, a) == k
  {
  }

  /** `r` lists hrefs of the parser's rows, and of two of them the one
      listed first was recorded later. */
  ghost predicate LatestFirst(ads: seq<ParsedAd>, parserId: int, r: seq<string>) {
    && (forall k :: 0 <= k < |r| ==> ParsedAd(parserId, r[k]) in ads)
    && (forall i, j :: 0 <= i < j < |r| ==>
          RowOf(ads, ParsedAd(parserId, r[j])) < RowOf(ads, ParsedAd(parserId, r[i])))
  }

  /** `ORDER BY parsed_at DESC`: the parser's hrefs come latest first. */
  lemma {:induction false} HrefsNewestFirstOrder(ads: seq<ParsedAd>, parserId: int)
    requires NoDuplicates(ads)
    ensures LatestFirst(ads, parserId, HrefsNewestFirst(ads, parserId))
  {
    if ads != [] {
      var n := |ads| - 1;
      var older := ads[..n];
      assert NoDuplicates(older) by {
        forall i, j | 0 <= i < j < |older| ensures older[i] != older[j] {
          assert older[i] == ads[i] && older[j] == ads[j];
        }
      }
      HrefsNewestFirstOrder(older, parserId);
      assert ads == older + [ads[n]];
      RowsAfterAppend(older, ads[n]);
      LatestFirstStep(older, ads[n], parserId, HrefsNewestFirst(older, parserId));
    }
  }

  /** Appending a new row keeps the positions of the older ones and puts
      the new one last. */
  lemma RowsAfterAppend(older: seq<ParsedAd>, last: ParsedAd)
    requires NoDuplicates(older + [last])
    ensures RowOf(older + [last], last) == |older|
    ensures forall a :: a in older ==> RowOf(older + [last], a) == RowOf(older, a)
  {
    var ads := older + [last];
    RowOfUnique(ads, last, |older|);
    forall a | a in older
      ensures RowOf(ads, a) == RowOf(older, a)
    {
      var k := RowOf(older, a);
      assert ads[k] == a;
      RowOfUnique(ads, a, k);
    }
  }

  /** A row recorded after all of `older` goes in front of their listing. */
  lemma LatestFirstStep(older: seq<ParsedAd>, last: ParsedAd, parserId: int, rest: seq<string>)
    requires LatestFirst(older, parserId, rest)
    requires RowOf(older + [last], last) == |older|
    requires forall a :: a in older ==> RowOf(older + [last], a) == RowOf(older, a)
    ensures LatestFirst(older + [last], parserId, (if last.parserId == parserId then [last.href] else []) + rest)
  {
    var ads := older + [last];
    var head := if last.parserId == parserId then [last.href] else [];
    var r := head + rest;
    var o := |head|;
    forall k | 0 <= k < |r|
      ensures ParsedAd(parserId, r[k]) in ads
    {
      if k >= o {
        assert r[k] == rest[k - o];
      }
    }
    forall i, j | 0 <= i < j < |r|
      ensures RowOf(ads, ParsedAd(parserId, r[j])) < RowOf(ads, ParsedAd(parserId, r[i]))
    {
      var b := ParsedAd(parserId, rest[j - o]);
      assert r[j] == rest[j - o] && b in older;
      var kb := RowOf(older, b);
      assert RowOf(ads, b) == kb < |older|;
      if i >= o {
        var a := ParsedAd(parserId, rest[i - o]);
        assert r[i] == rest[i - o] && a in older;
        assert RowOf(ads, a) == RowOf(older, a);
      } else {
        assert ParsedAd(parserId, r[i]) == last;
      }
    }
  }

  /** `SELECT href FROM parsed_ads WHERE parser_id = ? ORDER BY parsed_at DESC
      LIMIT ?`: at most `limit` hrefs, all recorded for that parser, the most
      recent ones; SQLite reads a negative LIMIT as no limit at all. */
  function RecentHrefs(ads: seq<ParsedAd>, parserId: int, limit: int): (r: seq<string>)
    ensures limit >= 0 ==> |r| <= limit
    ensures limit >= 0 ==> |r| == if limit < |HrefsNewestFirst(ads, parserId)| then limit else |HrefsNewestFirst(ads, parserId)|
    ensures forall h :: h in r ==> IsParsed(ads, parserId, h)
    ensures |r| <= |HrefsNewestFirst(ads, parserId)|
    ensures r == HrefsNewestFirst(ads, parserId)[..|r|]
    ensures limit < 0 ==> r == HrefsNewestFirst(ads, parserId)
  {
    var all := HrefsNewestFirst(ads, parserId);
    if limit < 0 then all else Take(all, limit)
  }

  /** Inserting the same pair twice: the second insert fails and changes nothing. */
  lemma AddAdIdempotent(ads: seq<ParsedAd>, ad: ParsedAd)
    ensures AddAd(AddAd(ads, ad).0, ad) == (AddAd(ads, ad).0, false)
  {
  }

  // -----------------------------------------------------------------------
  // The store
  // -----------------------------------------------------------------------

  class Database {
    var parsers: map<int, ParserRow>
    var parsedAds: seq<ParsedAd>
    /** The AUTOINCREMENT counter (SQLite's sqlite_sequence entry for `parsers`). */
    var lastId: nat

    ghost predicate Valid()
      reads this
    {
      && IdsKeyed(parsers)
      && (forall k :: k in parsers ==> 1 <= k <= lastId)
      && NoDuplicates(parsedAds)
    }

    /** `create_tables` on a fresh database file. */
    constructor ()
      ensures Valid()
      ensures parsers == map[] && parsedAds == [] && lastId == 0
    {
      parsers := map[];
      parsedAds := [];
      lastId := 0;
    }

    /** `add_parser`: a fresh id above every earlier one, an 'active' row with
        no bookmark; that id is returned. */
    method AddParser(adminId: int, url: string, channelId: string, siteType: string,
                     filterText: Option<string>) returns (id: int)
      requires Valid()
      modifies this
      ensures Valid()
      ensures id == old(lastId) + 1 && lastId == id
      ensures id !in old(parsers) && forall k :: k in old(parsers) ==> k < id
      ensures parsers == old(parsers)[id := NewRow(id, adminId, url, channelId, siteType, filterText)]
      ensures parsedAds == old(parsedAds)
    {
      lastId := lastId + 1;
      id := lastId;
      parsers := parsers[id := NewRow(id, adminId, url, channelId, siteType, filterText)];
    }

    /** `get_user_parsers`: the active rows that `adminId` added. */
    method GetUserParsers(adminId: int) returns (rows: seq<ParserRow>)
      requires Valid()
      ensures rows == OwnedBy(ActiveUpTo(parsers, lastId), adminId)
    {
      rows := OwnedBy(ActiveUpTo(parsers, lastId), adminId);
    }

    /** `get_all_active_parsers` */
    method GetAllActiveParsers() returns (rows: seq<ParserRow>)
      requires Valid()
      ensures rows == ActiveUpTo(parsers, lastId)
      ensures forall k :: k in parsers ==> (parsers[k].status == Active <==> parsers[k] in rows)
    {
      rows := ActiveUpTo(parsers, lastId);
    }

    /** `delete_parser`: a soft delete that always reports success. */
    method DeleteParser(parserId: int) returns (ok: bool)
      requires Valid()
      modifies this
      ensures Valid()
      ensures ok
      ensures parsers == SoftDelete(old(parsers), parserId)
      ensures parsedAds == old(parsedAds) && lastId == old(lastId)
    {
      parsers := SoftDelete(parsers, parserId);
      ok := true;
    }

    /** `add_parsed_ad`: True for a new pair, False (IntegrityError) for a
        repeat, which leaves the table unchanged. */
    method AddParsedAd(parserId: int, href: string) returns (inserted: bool)
      requires Valid()
      modifies this
      ensures Valid()
      ensures (parsedAds, inserted) == AddAd(old(parsedAds), ParsedAd(parserId, href))
      ensures parsers == old(parsers) && lastId == old(lastId)
    {
      var ad := ParsedAd(parserId, href);
      inserted := ad !in parsedAds;
      if inserted {
        parsedAds := parsedAds + [ad];
      }
    }

    /** `get_parsed_ads` */
    method GetParsedAds(parserId: int, limit: int := 50) returns (hrefs: seq<string>)
      ensures hrefs == RecentHrefs(parsedAds, parserId, limit)
    {
      hrefs := RecentHrefs(parsedAds, parserId, limit);
    }

    /** `is_ad_parsed` */
    method IsAdParsed(parserId: int, href: string) returns (parsed: bool)
      ensures parsed <==> IsParsed(parsedAds, parserId, href)
    {
      parsed := ParsedAd(parserId, href) in parsedAds;
    }

    /** `get_last_known_href` */
    method GetLastKnownHref(parserId: int) returns (href: Option<string>)
      ensures href == Bookmark(parsers, parserId)
    {
      href := if parserId in parsers then parsers[parserId].lastKnownHref else None;
    }

    /** `set_last_known_href` */
    method SetLastKnownHref(parserId: int, href: string)
      requires Valid()
      modifies this
      ensures Valid()
      ensures parsers == WithBookmark(old(parsers), parserId, href)
      ensures parsedAds == old(parsedAds) && lastId == old(lastId)
    {
      if parserId in parsers {
        parsers := parsers[parserId := parsers[parserId].(lastKnownHref := Some(href))];
      }
    }
  }

  /** A freshly added parser has no bookmark yet, and `delete_parser` keeps
      the row (and so its bookmark) readable. */
  lemma {:induction false} FreshParserHasNoBookmark(ps: map<int, ParserRow>, id: int, adminId: int, url: string,
                                                    channelId: string, siteType: string, filterText: Option<string>)
    ensures Bookmark(ps[id := NewRow(id, adminId, url, channelId, siteType, filterText)], id) == None
    ensures Bookmark(SoftDelete(ps, id), id) == Bookmark(ps, id)
  {
  }
}
