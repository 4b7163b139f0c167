/**
 * `ParserService.format_message` (services/parser_service.py): the HTML text
 * posted to the channel for one ad.  `Message` is the specification, built
 * block by block; `FormatMessage` grows the text with `+=` as the source does
 * and is proved to produce exactly `Message`.
 */
module Format {
  import opened Wrappers
  import opened Text

  /** The detail record a detail scraper returns.  Absent dictionary keys are
      `None`; a missing or empty `images` list are both `[]`, since every
      consumer reads it as `details.get('images', [])`. */
  datatype Details = Details(
    url: Option<string>,
    title: Option<string>,
    price: Option<string>,
    location: Option<string>,
    params: Option<map<string, string>>,
    description: Option<string>,
    images: seq<string>)

  const DefaultTitle: string := "Yangi e'lon"
  const InfoHeading: string := "📋 <b>Ma'lumotlar:</b>\n"

  /** The attribute allow-list for avtoelon ads, in print order. */
  const AvtoelonKeys: seq<string> :=
    ["Объем двигателя, л", "Объем двигателя", "Пробег", "Коробка передач", "Цвет", "Состояние краски"]

  /** The attribute allow-list for OLX ads, in print order. */
  const OlxKeys: seq<string> :=
    ["Объем двигателя, л", "Объем двигателя", "Пробег", "Коробка передач", "Цвет",
     "Вид топлива", "Кузов", "Состояние краски", "Привод"]

  /** Uzbek labels for some attribute keys; the other keys print as they are. */
  const Labels: map<string, string> :=
    map["Объем двигателя, л" := "Hajm", "Объем двигателя" := "Hajm", "Пробег" := "Probeg",
        "Коробка передач" := "Korobka", "Цвет" := "Rangi", "Состояние краски" := "Kraska holati"]

  /** `{...}.get(key, key)` */
  function Label(key: string): string {
    if key in Labels then Labels[key] else key
  }

  /** `value.replace('\n', ' ').strip()`: no line break survives, and no
      whitespace is left at either end. */
  function NormalizeValue(value: string): (r: string)
    ensures '\n' !in r
    ensures r == [] || (!IsSpace(r[0]) && !IsSpace(r[|r| - 1]))
  {
    var flat := ReplaceChar(value, '\n', ' ');
    assert '\n' !in flat;
    Strip(flat)
  }

  // One function per f-string the source appends.

  function HeadingLine(url: string, title: string): string {
    "🚗 <a href='" + url + "'><b>" + title + "</b></a>\n\n"
  }

  function PriceLine(price: string): string {
    "💰 <b>" + price + "</b>\n\n"
  }

  function AvtoelonYearLine(year: string): string {
    "▫️ Yili: " + year + "\n"
  }

  function OlxYearLine(year: string): string {
    "▫️ <b>Yili:</b> " + year + "\n"
  }

  /** `f"▫️ {uz_key}: {value}\n"` with the value normalised. */
  function AttributeLine(key: string, value: string): string {
    "▫️ " + Label(key) + ": " + NormalizeValue(value) + "\n"
  }

  function LocationLine(location: string): string {
    "\n📍 <b>Manzil:</b> " + location + "\n"
  }

  function DescriptionLine(desc: string): string {
    "📝 " + desc + "\n\n"
  }

  function LinkLine(url: string): string {
    "🔗 <a href='" + url + "'>E'lonni to'liq ko'rish</a>"
  }

  /** The lines the `for key in important_keys` loop adds: one per allow-listed
      key present in `params`, in allow-list order. */
  function AttributeLines(params: map<string, string>, keys: seq<string>): string {
    if keys == [] then ""
    else
      var key := keys[|keys| - 1];
      AttributeLines(params, keys[..|keys| - 1]) + (if key in params then AttributeLine(key, params[key]) else "")
  }

  /** How many of `keys` are present in `params`. */
  function PresentCount(params: map<string, string>, keys: seq<string>): nat {
    if keys == [] then 0
    else PresentCount(params, keys[..|keys| - 1]) + (if keys[|keys| - 1] in params then 1 else 0)
  }

  /** `any(key in params for key in important_keys)` */
  predicate HasAnyKey(params: map<string, string>, keys: seq<string>) {
    exists i :: 0 <= i < |keys| && keys[i] in params
  }

  /** `params.get('Год выпуска', params.get('Год', ''))` */
  function Year(params: map<string, string>): string {
    if "Год выпуска" in params then params["Год выпуска"]
    else if "Год" in params then params["Год"]
    else ""
  }

  /** `details.get('params', {})` */
  function Params(d: Details): map<string, string> {
    d.params.GetOr(map[])
  }

  /** `details.get('url', '')` */
  function Url(d: Details): string {
    d.url.GetOr("")
  }

  /** `details.get('location', params.get('Город', ''))` */
  function Location(d: Details): string {
    var params := Params(d);
    d.location.GetOr(if "Город" in params then params["Город"] else "")
  }

  /** The first line: the linked bold title, "Yangi e'lon" when there is none. */
  function Heading(d: Details): string {
    HeadingLine(Url(d), d.title.GetOr(DefaultTitle))
  }

  /** The price line, present exactly when the details carry a price. */
  function PriceBlock(d: Details): (r: string)
    ensures r != [] <==> d.price.Some?
  {
    if d.price.Some? then PriceLine(d.price.value) else ""
  }

  /** Concatenation regroups freely. */
  lemma AppendAssoc(a: string, b: string, c: string)
    ensures a + (b + c) == (a + b) + c
  {
  }

  /** Appending nothing changes nothing. */
  lemma AppendEmpty(a: string)
    ensures a + "" == a
  {
  }

  /** A text starts with whatever it was built from. */
  lemma StartsWithAppend(a: string, b: string)
    ensures StartsWith(a + b, a)
  {
    assert (a + b)[..|a|] == a;
  }

  /** A prefix stays a prefix when more is appended. */
  lemma StartsWithExtend(a: string, b: string, prefix: string)
    requires StartsWith(a, prefix)
    ensures StartsWith(a + b, prefix)
  {
    assert (a + b)[..|prefix|] == a[..|prefix|];
  }

  /** A text ends with the last thing appended to it. */
  lemma EndsWithAppend(a: string, b: string)
    ensures (a + b)[|a + b| - |b|..] == b
  {
  }

  /** The avtoelon block: always the heading, then the year, the allow-listed
      attributes, the address when there is one, and a blank line. */
  function AvtoelonBlock(d: Details): (r: string)
    ensures StartsWith(r, InfoHeading)
  {
    var params := Params(d);
    var year := Year(params);
    var r := InfoHeading
      + (if year != "" then AvtoelonYearLine(year) else "")
      + AttributeLines(params, AvtoelonKeys)
      + (if Location(d) != "" then LocationLine(Location(d)) else "")
      + "\n";
    StartsWithAppend(InfoHeading, r[|InfoHeading|..]);
    r
  }

  /** Some key of `keys` is present in `params` only if `params` is non-empty. */
  lemma AnyKeyNeedsParams(params: map<string, string>, keys: seq<string>)
    ensures HasAnyKey(params, keys) ==> |params| > 0
  {
    if HasAnyKey(params, keys) {
      var i :| 0 <= i < |keys| && keys[i] in params;
      assert keys[i] in params.Keys;
    }
  }

  /** The OLX block: nothing at all unless some allow-listed key is present;
      no address line. */
  function OlxBlock(d: Details): (r: string)
    ensures r == "" <==> !HasAnyKey(Params(d), OlxKeys)
    ensures r != "" ==> StartsWith(r, InfoHeading)
  {
    var params := Params(d);
    var year := Year(params);
    AnyKeyNeedsParams(params, OlxKeys);
    if |params| > 0 && HasAnyKey(params, OlxKeys) then
      var r := InfoHeading
        + (if year != "" then OlxYearLine(year) else "")
        + AttributeLines(params, OlxKeys)
        + "\n";
      StartsWithAppend(InfoHeading, r[|InfoHeading|..]);
      r
    else ""
  }

  /** `desc[:497] + '...'` when longer than 500 characters: the result never
      exceeds 500 characters and keeps a short description intact. */
  function Truncate(desc: string): (r: string)
    ensures |r| <= 500
    ensures |desc| <= 500 ==> r == desc
    ensures |desc| > 500 ==> |r| == 500 && r[..497] == desc[..497] && r[497..] == "..."
  {
    if |desc| > 500 then desc[..497] + "..." else desc
  }

  /** The description line, when the details carry a description. */
  function DescriptionBlock(d: Details): string {
    if d.description.Some? then DescriptionLine(Truncate(d.description.value)) else ""
  }

  /** The block between the price and the description for `site_type`; every
      site type other than 'avtoelon' gets the OLX layout. */
  function SiteBlock(d: Details, siteType: string): string {
    if siteType == "avtoelon" then AvtoelonBlock(d) else OlxBlock(d)
  }

  /** The whole message. */
  function Message(d: Details, siteType: string): string {
    Heading(d) + PriceBlock(d) + SiteBlock(d, siteType) + DescriptionBlock(d) + LinkLine(Url(d))
  }

  /** The `for key in important_keys` loop. */
  method AppendAttributeLines(msg0: string, params: map<string, string>, keys: seq<string>)
    returns (msg: string)
    ensures msg == msg0 + AttributeLines(params, keys)
  {
    msg := msg0;
    for i := 0 to |keys|
      invariant msg == msg0 + AttributeLines(params, keys[..i])
    {
      assert keys[..i + 1][..i] == keys[..i];
      if keys[i] in params {
        var line := AttributeLine(keys[i], params[keys[i]]);
        AppendAssoc(msg0, AttributeLines(params, keys[..i]), line);
        msg := msg + line;
      } else {
        AppendEmpty(AttributeLines(params, keys[..i]));
      }
    }
    assert keys[..|keys|] == keys;
  }

  /** Lines 491-517: the avtoelon block appended to `msg0`. */
  method AppendAvtoelonBlock(msg0: string, d: Details) returns (msg: string)
    ensures msg == msg0 + AvtoelonBlock(d)
  {
    var params := d.params.GetOr(map[]);
    var year := Year(params);
    var location := d.location.GetOr(if "Город" in params then params["Город"] else "");
    // `block` is what has been appended to `msg0`.
    ghost var block := InfoHeading;
    msg := msg0 + InfoHeading;
    if year != "" {
      AppendAssoc(msg0, block, AvtoelonYearLine(year));
      msg, block := msg + AvtoelonYearLine(year), block + AvtoelonYearLine(year);
    } else {
      AppendEmpty(block);
    }
    AppendAssoc(msg0, block, AttributeLines(params, AvtoelonKeys));
    msg := AppendAttributeLines(msg, params, AvtoelonKeys);
    block := block + AttributeLines(params, AvtoelonKeys);
    if location != "" {
      AppendAssoc(msg0, block, LocationLine(location));
      msg, block := msg + LocationLine(location), block + LocationLine(location);
    } else {
      AppendEmpty(block);
    }
    AppendAssoc(msg0, block, "\n");
    msg, block := msg + "\n", block + "\n";
    assert block == AvtoelonBlock(d);
  }

  /** Lines 520-553: the OLX block appended to `msg0`. */
  method AppendOlxBlock(msg0: string, d: Details) returns (msg: string)
    ensures msg == msg0 + OlxBlock(d)
  {
    msg := msg0;
    var params := d.params.GetOr(map[]);
    var year := Year(params);
    if |params| > 0 {
      var hasOtherParams := HasAnyKey(params, OlxKeys);
      if hasOtherParams {
        ghost var block := InfoHeading;
        msg := msg0 + InfoHeading;
        if year != "" {
          AppendAssoc(msg0, block, OlxYearLine(year));
          msg, block := msg + OlxYearLine(year), block + OlxYearLine(year);
        } else {
          AppendEmpty(block);
        }
        AppendAssoc(msg0, block, AttributeLines(params, OlxKeys));
        msg := AppendAttributeLines(msg, params, OlxKeys);
        block := block + AttributeLines(params, OlxKeys);
        AppendAssoc(msg0, block, "\n");
        msg, block := msg + "\n", block + "\n";
        assert block == OlxBlock(d);
        return;
      }
    }
    AnyKeyNeedsParams(params, OlxKeys);
    AppendEmpty(msg0);
  }

  /** `format_message`: the text grows by `+=` exactly as the source builds
      it, and the result is the specified `Message`. */
  method FormatMessage(d: Details, siteType: string) returns (msg: string)
    ensures msg == Message(d, siteType)
  {
    var title := d.title.GetOr(DefaultTitle);
    var url := d.url.GetOr("");
    msg := HeadingLine(url, title);
    if d.price.Some? {
      msg := msg + PriceLine(d.price.value);
    } else {
      AppendEmpty(msg);
    }
    assert msg == Heading(d) + PriceBlock(d);
    if siteType == "avtoelon" {
      msg := AppendAvtoelonBlock(msg, d);
    } else {
      msg := AppendOlxBlock(msg, d);
    }
    assert msg == Heading(d) + PriceBlock(d) + SiteBlock(d, siteType);
    if d.description.Some? {
      var desc := d.description.value;
      if |desc| > 500 {
        desc := desc[..497] + "...";
      }
      msg := msg + DescriptionLine(desc);
    } else {
      AppendEmpty(msg);
    }
    msg := msg + LinkLine(url);
  }

  // -----------------------------------------------------------------------
  // Properties of the message
  // -----------------------------------------------------------------------

  /** An attribute line is exactly one line. */
  lemma AttributeLineIsOneLine(key: string, value: string)
    requires '\n' !in Label(key)
    ensures Count(AttributeLine(key, value), '\n') == 1
  {
    var value' := NormalizeValue(value);
    var body := "▫️ " + Label(key) + ": " + value';
    assert AttributeLine(key, value) == body + "\n";
    assert '\n' !in "▫️ " && '\n' !in ": " && '\n' !in value';
    assert '\n' !in body;
    CountAbsent(body, '\n');
    CountConcat(body, "\n", '\n');
    assert Count("\n", '\n') == 1 by {
      assert "\n"[1..] == [];
    }
    assert Count(body + "\n", '\n') == 1;
  }

  /** Each attribute printed is exactly one line: the number of line breaks
      in the attribute lines equals the number of allow-listed keys present,
      because neither a label nor a normalised value holds a line break. */
  lemma {:induction false} OneLinePerAttribute(params: map<string, string>, keys: seq<string>)
    requires forall i :: 0 <= i < |keys| ==> '\n' !in Label(keys[i])
    ensures Count(AttributeLines(params, keys), '\n') == PresentCount(params, keys)
  {
    if keys != [] {
      var key := keys[|keys| - 1];
      var init := keys[..|keys| - 1];
      OneLinePerAttribute(params, init);
      var tail := if key in params then AttributeLine(key, params[key]) else "";
      CountConcat(AttributeLines(params, init), tail, '\n');
      if key in params {
        AttributeLineIsOneLine(key, params[key]);
      }
    }
  }

  /** The message starts with the heading and ends with the link to the same
      url; with no title the heading carries "Yangi e'lon". */
  lemma MessageFrame(d: Details, siteType: string)
    ensures StartsWith(Message(d, siteType), Heading(d))
    ensures var m := Message(d, siteType); var l := LinkLine(Url(d));
      |l| <= |m| && m[|m| - |l|..] == l
    ensures d.title.None? ==> Heading(d) == HeadingLine(Url(d), "Yangi e'lon")
  {
    var h, p, b, t := Heading(d), PriceBlock(d), SiteBlock(d, siteType), DescriptionBlock(d);
    StartsWithAppend(h, p);
    StartsWithExtend(h + p, b, h);
    StartsWithExtend(h + p + b, t, h);
    StartsWithExtend(h + p + b + t, LinkLine(Url(d)), h);
    EndsWithAppend(h + p + b + t, LinkLine(Url(d)));
  }
}
