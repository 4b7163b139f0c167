/**
 * `InlineKeyboards.parsers_list` (keyboards/inline_keyboards.py): the inline
 * keyboard listing the parsers, one row per parser with a "view" button and
 * a "delete" button whose callback data carries the parser id.  A keyboard is
 * its rows of buttons.
 */
module Keyboards {
  import opened Wrappers
  import opened Text
  import opened Store

  /** `InlineKeyboardButton(text=..., callback_data=...)` */
  datatype Button = Button(text: string, callbackData: string)

  const NoParsersButton: Button := Button("❌ Parserlar yo'q", "none")
  const BackButton: Button := Button("◀️ Orqaga", "back_admin")

  /** `url.split('/')[-2][:30]`; a url without '/' splits into one part, the
      index raises and the name becomes "Parser {id}".  The name never
      exceeds 30 characters and never holds a '/'. */
  function ShortName(url: string, id: int): (r: string)
    ensures '/' in url ==> |r| <= 30 && '/' !in r
    ensures '/' !in url ==> r == "Parser " + IntToString(id)
  {
    var parts := Split(url, '/');
    CountPositive(url, '/');
    if |parts| >= 2 then
      var part := parts[|parts| - 2];
      var r := Take(part, 30);
      assert forall i :: 0 <= i < |r| ==> r[i] == part[i];
      r
    else "Parser " + IntToString(id)
  }

  /** For a url ending in `.../seg/last`, the name is the segment before the
      last '/', cut to 30 characters: for a listing url with a trailing '/',
      its last path segment. */
  lemma ShortNameIsParentSegment(prefix: string, seg: string, last: string, id: int)
    requires '/' !in seg && '/' !in last
    ensures ShortName(prefix + "/" + seg + "/" + last, id) == Take(seg, 30)
  {
    var url := prefix + "/" + seg + "/" + last;
    assert url == (prefix + ['/'] + seg) + ['/'] + last;
    SplitAround(prefix + ['/'] + seg, '/', last);
    SplitAround(prefix, '/', seg);
    SplitAbsent(seg, '/');
    SplitAbsent(last, '/');
    var parts := Split(prefix, '/') + [seg] + [last];
    assert Split(url, '/') == parts;
    assert parts[|parts| - 2] == seg;
  }

  /** 'OLX' for the 'olx' site type and 'Avtoelon' for every other. */
  function SiteLabel(siteType: string): (r: string)
    ensures r == "OLX" <==> siteType == "olx"
    ensures r == "OLX" || r == "Avtoelon"
  {
    if siteType == "olx" then "OLX" else "Avtoelon"
  }

  function ViewCallback(id: int): string {
    "view_" + IntToString(id)
  }

  function DeleteCallback(id: int): string {
    "delete_" + IntToString(id)
  }

  /** The row of one parser. */
  function ParserButtons(p: ParserRow): seq<Button> {
    [Button("🔗 " + ShortName(p.url, p.id) + " (" + SiteLabel(p.siteType) + ")", ViewCallback(p.id)),
     Button("❌", DeleteCallback(p.id))]
  }

  /** The loop body of `parsers_list`: the name, the site label and the two
      buttons of one parser. */
  method ParserRowButtons(parser: ParserRow) returns (row: seq<Button>)
    ensures row == ParserButtons(parser)
  {
    var url := parser.url;
    var parts := Split(url, '/');
    var shortName;
    if |parts| >= 2 {
      shortName := Take(parts[|parts| - 2], 30);
    } else {
      shortName := "Parser " + IntToString(parser.id);
    }
    assert shortName == ShortName(url, parser.id);
    var site := if parser.siteType == "olx" then "OLX" else "Avtoelon";
    row := [
      Button("🔗 " + shortName + " (" + site + ")", "view_" + IntToString(parser.id)),
      Button("❌", "delete_" + IntToString(parser.id))];
  }

  /** `parsers_list`: one two-button row per parser in the given order, the
      placeholder row when there are none, and the back row last. */
  method ParsersList(parsers: seq<ParserRow>) returns (keyboard: seq<seq<Button>>)
    ensures |keyboard| == if parsers == [] then 2 else |parsers| + 1
    ensures forall i :: 0 <= i < |parsers| ==> keyboard[i] == ParserButtons(parsers[i])
    ensures parsers == [] ==> keyboard[0] == [NoParsersButton]
    ensures keyboard[|keyboard| - 1] == [BackButton]
  {
    var buttons: seq<seq<Button>> := [];
    for i := 0 to |parsers|
      invariant |buttons| == i
      invariant forall k :: 0 <= k < i ==> buttons[k] == ParserButtons(parsers[k])
    {
      var row := ParserRowButtons(parsers[i]);
      buttons := buttons + [row];
    }
    if buttons == [] {
      buttons := buttons + [[NoParsersButton]];
    }
    buttons := buttons + [[BackButton]];
    keyboard := buttons;
  }
}
