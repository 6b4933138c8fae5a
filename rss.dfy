/** The industry-news feed of the digest: RSS items are cut out of the XML text with
    regular expressions, each item keeps its title, link, source and date, and at most
    five items are used. */
module Rss {
  import opened JsText

  datatype NewsItem = NewsItem(title: string, link: string, source: string, pubDate: string)

  /** The literal pat occurs in s at position i, compared character by character. */
  predicate MatchesAt(s: string, i: nat, pat: string)
    decreases |pat|
  {
    pat == [] || (i < |s| && s[i] == pat[0] && MatchesAt(s, i + 1, pat[1..]))
  }

  /** A match lies inside s. */
  lemma {:induction false} MatchesAtFits(s: string, i: nat, pat: string)
    requires i <= |s| && MatchesAt(s, i, pat)
    ensures i + |pat| <= |s|
    decreases |pat|
  {
    if pat != [] {
      MatchesAtFits(s, i + 1, pat[1..]);
    }
  }

  /** The same under the regular expressions' i flag: ASCII case is ignored. */
  predicate MatchesAtIgnoringCase(s: string, i: nat, pat: string)
  {
    i + |pat| <= |s| && ToLower(s[i..i + |pat|]) == ToLower(pat)
  }

  /** The first position at or after i where pat occurs. */
  function FindFrom(s: string, i: nat, pat: string): (r: Option<nat>)
    requires i <= |s|
    ensures r.Some? ==> i <= r.value && r.value + |pat| <= |s|
    decreases |s| - i
  {
    if MatchesAt(s, i, pat) then
      MatchesAtFits(s, i, pat);
      Some(i)
    else if i == |s| then None
    else FindFrom(s, i + 1, pat)
  }

  /** FindFrom finds the leftmost occurrence, or reports that there is none. */
  lemma {:induction false} FindFromFirst(s: string, i: nat, pat: string)
    requires i <= |s|
    ensures var r := FindFrom(s, i, pat);
      && (r.Some? ==> MatchesAt(s, r.value, pat))
      && (r.Some? ==> forall k :: i <= k < r.value ==> !MatchesAt(s, k, pat))
      && (r.None? ==> forall k :: i <= k <= |s| ==> !MatchesAt(s, k, pat))
    decreases |s| - i
  {
    if !MatchesAt(s, i, pat) && i < |s| {
      FindFromFirst(s, i + 1, pat);
    }
  }

  /** The first position at or after i where pat occurs, ignoring ASCII case. */
  function FindFromIgnoringCase(s: string, i: nat, pat: string): (r: Option<nat>)
    requires i <= |s|
    ensures r.Some? ==> i <= r.value && r.value + |pat| <= |s| && MatchesAtIgnoringCase(s, r.value, pat)
    decreases |s| - i
  {
    if MatchesAtIgnoringCase(s, i, pat) then Some(i)
    else if i == |s| then None
    else FindFromIgnoringCase(s, i + 1, pat)
  }

  /** The first occurrence of the character c at or after i: what [^c]*c stops at. */
  function FindChar(s: string, i: nat, c: char): (r: Option<nat>)
    requires i <= |s|
    ensures r.Some? ==> i <= r.value < |s| && s[r.value] == c
    ensures r.Some? ==> forall k :: i <= k < r.value ==> s[k] != c
    ensures r.None? ==> forall k :: i <= k < |s| ==> s[k] != c
    decreases |s| - i
  {
    if i == |s| then None
    else if s[i] == c then Some(i)
    else FindChar(s, i + 1, c)
  }

  /** The end of an opening tag "<tag...>" that starts at p: the position just after
      its first '>' ([^>]* can only stop there). */
  function OpenTagEnd(xml: string, tag: string, p: nat): (r: Option<nat>)
    requires p <= |xml|
    ensures r.Some? ==> p + 1 + |tag| < r.value <= |xml| && xml[r.value - 1] == '>'
  {
    if !MatchesAtIgnoringCase(xml, p, "<" + tag) then None
    else match FindChar(xml, p + 1 + |tag|, '>')
      case None => None
      case Some(gt) => Some(gt + 1)
  }

  /** The pattern <tag[^>]*><![CDATA[(...)]]></tag> tried at position p; the lazy group
      stops at the first "]]></tag>". */
  function CdataAt(xml: string, tag: string, p: nat): Option<string>
    requires p <= |xml|
  {
    match OpenTagEnd(xml, tag, p)
    case None => None
    case Some(start) =>
      if !MatchesAtIgnoringCase(xml, start, "<![CDATA[") then None
      else match FindFromIgnoringCase(xml, start + 9, "]]></" + tag + ">")
        case None => None
        case Some(q) => Some(xml[start + 9..q])
  }

  /** The pattern <tag[^>]*>([^<]+)</tag> tried at position p: the text runs to the next
      '<', must not be empty, and the closing tag must follow right there. */
  function TagTextAt(xml: string, tag: string, p: nat): (r: Option<string>)
    requires p <= |xml|
    ensures r.Some? ==> r.value != [] && '<' !in r.value
  {
    match OpenTagEnd(xml, tag, p)
    case None => None
    case Some(start) =>
      match FindChar(xml, start, '<')
      case None => None
      case Some(lt) =>
        if lt == start || !MatchesAtIgnoringCase(xml, lt, "</" + tag + ">") then None
        else Some(xml[start..lt])
  }

  /** The leftmost position from p on where the CDATA pattern matches. */
  function FirstCdata(xml: string, tag: string, p: nat): Option<string>
    requires p <= |xml|
    decreases |xml| - p
  {
    if CdataAt(xml, tag, p).Some? then CdataAt(xml, tag, p)
    else if p == |xml| then None
    else FirstCdata(xml, tag, p + 1)
  }

  /** The leftmost position from p on where the tag-text pattern matches. */
  function FirstTagText(xml: string, tag: string, p: nat): (r: Option<string>)
    requires p <= |xml|
    ensures r.Some? ==> r.value != [] && '<' !in r.value
    decreases |xml| - p
  {
    if TagTextAt(xml, tag, p).Some? then TagTextAt(xml, tag, p)
    else if p == |xml| then None
    else FirstTagText(xml, tag, p + 1)
  }

  /** extractCdata: the trimmed CDATA content of the first match, or null (None). */
  function ExtractCdata(xml: string, tag: string): Option<string>
  {
    match FirstCdata(xml, tag, 0)
    case None => None
    case Some(c) => Some(Trim(c))
  }

  /** extractTagText: the trimmed text of the first match, or null (None). */
  function ExtractTagText(xml: string, tag: string): (r: Option<string>)
    ensures r.Some? ==> '<' !in r.value
  {
    match FirstTagText(xml, tag, 0)
    case None => None
    case Some(t) => Some(Trim(t))
  }

  /** a ?? b: falls back only when a is null, not when it is "". */
  function OrElse(a: Option<string>, b: Option<string>): (r: Option<string>)
    ensures a.Some? ==> r == a
    ensures a.None? ==> r == b
  {
    if a.Some? then a else b
  }

  function OrEmpty(a: Option<string>): (r: string)
    ensures a.None? ==> r == ""
    ensures a.Some? ==> r == a.value
  {
    if a.Some? then a.value else ""
  }

  /** The news item of one <item> body, kept only when its title and link are both non-empty. */
  function ItemOf(content: string): (r: Option<NewsItem>)
    ensures r.Some? ==> r.value.title != "" && r.value.link != ""
    ensures r.Some? <==>
      OrElse(ExtractCdata(content, "title"), ExtractTagText(content, "title")) !in {None, Some("")}
      && OrElse(ExtractTagText(content, "link"), ExtractTagText(content, "guid")) !in {None, Some("")}
    ensures r.Some? ==> r.value.pubDate == OrEmpty(ExtractTagText(content, "pubDate"))
    // The kept item carries the extracted title and link, and the source (CDATA, else
    // plain) with "" when the item has none.
    ensures r.Some? ==>
      var title := OrElse(ExtractCdata(content, "title"), ExtractTagText(content, "title"));
      var link := OrElse(ExtractTagText(content, "link"), ExtractTagText(content, "guid"));
      var source := OrElse(ExtractCdata(content, "source"), ExtractTagText(content, "source"));
      && r.value.title == title.value && r.value.link == link.value
      && r.value.source == OrEmpty(source)
      && (source.None? ==> r.value.source == "")
  {
    var title := OrElse(ExtractCdata(content, "title"), ExtractTagText(content, "title"));
    var link := OrElse(ExtractTagText(content, "link"), ExtractTagText(content, "guid"));
    var source := OrElse(ExtractCdata(content, "source"), ExtractTagText(content, "source"));
    var pubDate := ExtractTagText(content, "pubDate");
    if title.Some? && title.value != "" && link.Some? && link.value != "" then
      Some(NewsItem(title.value, link.value, OrEmpty(source), OrEmpty(pubDate)))
    else None
  }

  /** A CDATA title that trims to nothing is not replaced by the plain title: ?? only
      falls back on null, so the item is dropped. */
  lemma BlankCdataTitleDropsItem(content: string)
    requires ExtractCdata(content, "title") == Some("")
    ensures ItemOf(content).None?
  {
  }

  /** One match of /<item>([\s\S]*?)<\/item>/ from position pos: the next "<item>" and
      the first "</item>" after it, as the bounds of the item body. */
  function NextItem(xml: string, pos: nat): (r: Option<(nat, nat)>)
    ensures r.Some? ==> pos + 6 <= r.value.0 <= r.value.1 && r.value.1 + 7 <= |xml|
  {
    if pos > |xml| then None
    else match FindFrom(xml, pos, "<item>")
      case None => None
      case Some(p) =>
        match FindFrom(xml, p + 6, "</item>")
        case None => None
        case Some(q) => Some((p + 6, q))
  }

  /** A search for item bodies that only moves forward and stays inside the document. */
  predicate Advances(find: (string, nat) -> Option<(nat, nat)>, xml: string)
  {
    forall p: nat :: p <= |xml| && find(xml, p).Some? ==>
      p <= find(xml, p).value.0 <= find(xml, p).value.1 && find(xml, p).value.1 + 7 <= |xml|
  }

  /** The item an item body contributes: none or one. */
  function Keep(content: string): (r: seq<NewsItem>)
    ensures |r| <= 1
    ensures forall i :: 0 <= i < |r| ==> r[i].title != "" && r[i].link != ""
  {
    var item := ItemOf(content);
    if item.Some? then [item.value] else []
  }

  /** The global scan from position pos: every item body find reports, in turn, each
      contributing what keep makes of it; the search resumes after the closing tag. */
  function ItemsWith(xml: string, pos: nat, keep: string -> seq<NewsItem>,
                     find: (string, nat) -> Option<(nat, nat)>): (r: seq<NewsItem>)
    requires pos <= |xml| && Advances(find, xml)
    decreases |xml| - pos
  {
    var next := find(xml, pos);
    if next.None? then []
    else keep(xml[next.value.0..next.value.1]) + ItemsWith(xml, next.value.1 + 7, keep, find)
  }

  lemma NextItemAdvances(xml: string)
    ensures Advances(NextItem, xml)
  {
  }

  /** The items of a feed, in document order. */
  function Items(xml: string): seq<NewsItem>
  {
    NextItemAdvances(xml);
    ItemsWith(xml, 0, Keep, NextItem)
  }

  /** Every item has a title and a link. */
  predicate AllTitled(items: seq<NewsItem>)
  {
    forall i :: 0 <= i < |items| ==> items[i].title != "" && items[i].link != ""
  }

  lemma KeepTitles()
    ensures forall content :: AllTitled(Keep(content))
  {
  }

  /** A scan whose every contribution is titled yields only titled items. */
  lemma {:induction false} ItemsWithTitled(xml: string, pos: nat, keep: string -> seq<NewsItem>,
                                           find: (string, nat) -> Option<(nat, nat)>)
    requires pos <= |xml| && Advances(find, xml)
    requires forall content :: AllTitled(keep(content))
    ensures AllTitled(ItemsWith(xml, pos, keep, find))
    decreases |xml| - pos
  {
    var next := find(xml, pos);
    if next.Some? {
      var kept := keep(xml[next.value.0..next.value.1]);
      ItemsWithTitled(xml, next.value.1 + 7, keep, find);
      var rest := ItemsWith(xml, next.value.1 + 7, keep, find);
      assert ItemsWith(xml, pos, keep, find) == kept + rest;
      assert AllTitled(kept);
      assert forall i :: 0 <= i < |kept + rest| ==> (kept + rest)[i] == if i < |kept| then kept[i] else rest[i - |kept|];
    }
  }

  /** Every item of a feed has a title and a link. */
  lemma ItemsHaveTitleAndLink(xml: string)
    ensures AllTitled(Items(xml))
  {
    NextItemAdvances(xml);
    KeepTitles();
    ItemsWithTitled(xml, 0, Keep, NextItem);
  }

  /** The regex loop over the document: find the next item body, hand it to keep, resume
      after the closing tag. */
  method ScanItems(xml: string, keep: string -> seq<NewsItem>, find: (string, nat) -> Option<(nat, nat)>)
    returns (items: seq<NewsItem>)
    requires Advances(find, xml)
    ensures items == ItemsWith(xml, 0, keep, find)
  {
    items := [];
    var pos := 0;
    while true
      invariant pos <= |xml|
      invariant items + ItemsWith(xml, pos, keep, find) == ItemsWith(xml, 0, keep, find)
      decreases |xml| - pos
    {
      var next := find(xml, pos);
      if next.None? {
        break;
      }
      var start, end := next.value.0, next.value.1;
      var kept := keep(xml[start..end]);
      assert ItemsWith(xml, pos, keep, find) == kept + ItemsWith(xml, end + 7, keep, find);
      items := items + kept;
      pos := end + 7;
    }
  }

  /** parseRssItems: the items with a title and a link, in document order. */
  method ParseRssItems(xml: string) returns (items: seq<NewsItem>)
    ensures items == Items(xml)
    ensures AllTitled(items)
  {
    NextItemAdvances(xml);
    items := ScanItems(xml, Keep, NextItem);
    ItemsHaveTitleAndLink(xml);
  }

  /** How the news request ended: an exception (timeout, network), a non-ok status, or the XML text. */
  datatype NewsResponse = Threw | NotOk(status: int) | Ok(xml: string)

  /** fetchIndustryNews: the first five parsed items, or none when the request fails. */
  method FetchIndustryNews(resp: NewsResponse) returns (news: seq<NewsItem>)
    ensures |news| <= 5
    ensures !resp.Ok? ==> news == []
    ensures resp.Ok? ==> var all := Items(resp.xml);
      news == all[..if |all| < 5 then |all| else 5]
  {
    if !resp.Ok? {
      return [];
    }
    var all := ParseRssItems(resp.xml);
    news := all[..if |all| < 5 then |all| else 5];
  }
}
