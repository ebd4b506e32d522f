/** The feed-entry extractors of models.py: MikanEntry, DmhyEntry, NyaaEntry
    and DefaultEntry, each a `pre_process` root validator that picks the item
    URL, the download URL, the title and the publication time out of a
    feedparser entry, followed by ParsedItem's field validation; and
    ENTRY_PARSER_MAP, which names them. */
module Entries {
  import opened Common
  import opened Models

  /** One element of an entry's `links` list. */
  datatype Link = Link(rel: string, linkType: Option<string>, href: string)

  /** The keys of a feedparser entry that the extractors read; `None` is a
      missing key. `published` is the timestamp `published_parsed` denotes. */
  datatype Entry = Entry(
    id: Option<string>,
    link: Option<string>,
    links: Option<seq<Link>>,
    title: Option<string>,
    published: Option<int>)

  /** The dictionary a pre-processor hands to ParsedItem's field validation. */
  datatype RawItem = RawItem(
    title: Option<string>,
    url: Option<string>,
    downloadUrl: Option<string>,
    published: Option<int>)

  /** What `DefaultEntry.parse_obj` may receive: a feedparser entry, or any
      other mapping, which the pre-processor passes through untouched. */
  datatype EntryInput = FeedEntry(entry: Entry) | Prepared(raw: RawItem)

  /** A validated ParsedItem. */
  datatype ParsedItem = ParsedItem(title: string, url: string, downloadUrl: string, publishedTime: int)

  /** The field whose validation failed. */
  datatype EntryError = InvalidItemField(field: string)

  /** The four entry models of ENTRY_PARSER_MAP. */
  datatype Extractor = Mikan | Dmhy | Nyaa | Default

  const TorrentType: string := "application/x-bittorrent"
  const NoTitle: string := "No Title"

  /** The two link tests the extractors search for. */
  datatype LinkTest = TorrentLink | EnclosureLink
  {
    predicate Holds(l: Link)
    {
      match this
      case TorrentLink => l.linkType == Some(TorrentType)
      case EnclosureLink => l.rel == "enclosure"
    }
  }

  /** The position of the first link passing `test`: the `for … break` scans. */
  function FirstLink(links: seq<Link>, test: LinkTest): (r: Option<nat>)
    ensures r.Some? ==> r.value < |links| && test.Holds(links[r.value])
    ensures r.Some? ==> forall j :: 0 <= j < r.value ==> !test.Holds(links[j])
    ensures r.None? <==> forall j :: 0 <= j < |links| ==> !test.Holds(links[j])
  {
    if links == [] then None
    else if test.Holds(links[0]) then Some(0)
    else
      match FirstLink(links[1..], test)
      case None => None
      case Some(k) => Some(k + 1)
  }

  /** The href of the first link passing `test`, else `fallback`. */
  function FirstHrefOr(links: seq<Link>, test: LinkTest, fallback: Option<string>): Option<string>
  {
    match FirstLink(links, test)
    case Some(k) => Some(links[k].href)
    case None => fallback
  }

  function TitleOrDefault(title: Option<string>): string
  {
    if title.Some? then title.value else NoTitle
  }

  function PublishedOrNow(published: Option<int>, now: int): int
  {
    if published.Some? then published.value else now
  }

  /** MikanEntry.pre_process, which DmhyEntry and NyaaEntry reuse. A missing
      `links` key is an empty list, so the `for … else` falls back to `link`. */
  function TorrentPreProcess(e: Entry, now: int): RawItem
  {
    var url := if e.id.Some? && StartsWith(e.id.value, "http") then e.id else e.link;
    var links := if e.links.Some? then e.links.value else [];
    RawItem(Some(TitleOrDefault(e.title)), url, FirstHrefOr(links, TorrentLink, e.link),
            Some(PublishedOrNow(e.published, now)))
  }

  /** DefaultEntry.pre_process: a non-feedparser input is returned as it is;
      otherwise the first enclosure's href (else `link`) is the download URL,
      and `id` (else the download URL) is the item URL. */
  function DefaultPreProcess(input: EntryInput, now: int): RawItem
  {
    match input
    case Prepared(raw) => raw
    case FeedEntry(e) =>
      var download := if e.links.Some? then FirstHrefOr(e.links.value, EnclosureLink, e.link) else e.link;
      RawItem(Some(TitleOrDefault(e.title)), if e.id.Some? then e.id else download, download,
              Some(PublishedOrNow(e.published, now)))
  }

  /** ParsedItem's fields: `title: str`, `url: HttpUrl`,
      `download_url: HttpUrl | str`, `published_time: datetime`, all required. */
  function Validate(raw: RawItem): (r: Result<ParsedItem, EntryError>)
    ensures r.Ok? <==> raw.title.Some? && raw.url.Some? && IsHttpUrl(raw.url.value)
                       && raw.downloadUrl.Some? && raw.published.Some?
    ensures r.Ok? ==> r.value == ParsedItem(raw.title.value, raw.url.value, raw.downloadUrl.value, raw.published.value)
  {
    if raw.title.None? then Err(InvalidItemField("title"))
    else if raw.url.None? || !IsHttpUrl(raw.url.value) then Err(InvalidItemField("url"))
    else if raw.downloadUrl.None? then Err(InvalidItemField("download_url"))
    else if raw.published.None? then Err(InvalidItemField("published_time"))
    else Ok(ParsedItem(raw.title.value, raw.url.value, raw.downloadUrl.value, raw.published.value))
  }

  /** `ENTRY_PARSER_MAP.get(name, ENTRY_PARSER_MAP["default"])` */
  function ParserFor(name: string): (r: Extractor)
    ensures r == Mikan <==> name == "mikan"
    ensures r == Dmhy <==> name == "dmhy"
    ensures r == Nyaa <==> name == "nyaa"
  {
    if name == "mikan" then Mikan
    else if name == "dmhy" then Dmhy
    else if name == "nyaa" then Nyaa
    else Default
  }

  /** `ParserModel.parse_obj(entry)` for a feedparser entry. */
  function Extract(kind: Extractor, e: Entry, now: int): (r: Result<ParsedItem, EntryError>)
    ensures r.Ok? ==> IsHttpUrl(r.value.url)
  {
    match kind
    case Default => Validate(DefaultPreProcess(FeedEntry(e), now))
    case _ => Validate(TorrentPreProcess(e, now))
  }

  /** The item fields as a prepared dictionary. */
  function AsRaw(p: ParsedItem): RawItem
  {
    RawItem(Some(p.title), Some(p.url), Some(p.downloadUrl), Some(p.publishedTime))
  }

  // ---------------------------------------------------------------------
  // Properties
  // ---------------------------------------------------------------------

  /** DmhyEntry and NyaaEntry delegate to MikanEntry: the three extract alike. */
  lemma TorrentExtractorsAgree(e: Entry, now: int)
    ensures Extract(Dmhy, e, now) == Extract(Mikan, e, now)
    ensures Extract(Nyaa, e, now) == Extract(Mikan, e, now)
  {
  }

  /** The Mikan rules: the item URL is `id` when it starts with "http", else
      `link`; the download URL is the href of the first torrent-typed link,
      else `link`; the title defaults to "No Title". */
  lemma TorrentRules(e: Entry, now: int)
    requires Extract(Mikan, e, now).Ok?
    ensures var p := Extract(Mikan, e, now).value;
      && (e.id.Some? && StartsWith(e.id.value, "http") ==> p.url == e.id.value)
      && (!(e.id.Some? && StartsWith(e.id.value, "http")) ==> e.link == Some(p.url))
      && (e.title.Some? ==> p.title == e.title.value)
      && (e.title.None? ==> p.title == NoTitle)
      && (e.published.Some? ==> p.publishedTime == e.published.value)
      && (e.published.None? ==> p.publishedTime == now)
      && ((e.links.Some? && exists k :: 0 <= k < |e.links.value| && TorrentLink.Holds(e.links.value[k])
                                            && p.downloadUrl == e.links.value[k].href)
          || e.link == Some(p.downloadUrl))
  {
    if e.links.Some? {
      var k := FirstLink(e.links.value, TorrentLink);
      if k.Some? {
        assert TorrentLink.Holds(e.links.value[k.value]);
      }
    }
  }

  /** The torrent download URL is the first torrent-typed link's href. */
  lemma TorrentDownloadIsFirstTorrent(e: Entry, now: int, k: nat)
    requires e.links.Some? && k < |e.links.value| && TorrentLink.Holds(e.links.value[k])
    requires forall j :: 0 <= j < k ==> !TorrentLink.Holds(e.links.value[j])
    ensures TorrentPreProcess(e, now).downloadUrl == Some(e.links.value[k].href)
  {
    var r := FirstLink(e.links.value, TorrentLink);
    assert r.Some?;
    assert r.value == k;
  }

  /** The Default download URL is the first enclosure's href. */
  lemma DefaultDownloadIsFirstEnclosure(e: Entry, now: int, k: nat)
    requires e.links.Some? && k < |e.links.value| && EnclosureLink.Holds(e.links.value[k])
    requires forall j :: 0 <= j < k ==> !EnclosureLink.Holds(e.links.value[j])
    ensures DefaultPreProcess(FeedEntry(e), now).downloadUrl == Some(e.links.value[k].href)
  {
    var r := FirstLink(e.links.value, EnclosureLink);
    assert r.Some?;
    assert r.value == k;
  }

  /** Without an enclosure, or without `links`, Default downloads `link`;
      without `id`, the item URL is the download URL. */
  lemma DefaultFallbacks(e: Entry, now: int)
    ensures (e.links.None? || forall j :: 0 <= j < |e.links.value| ==> !EnclosureLink.Holds(e.links.value[j]))
              ==> DefaultPreProcess(FeedEntry(e), now).downloadUrl == e.link
    ensures e.id.None? ==> DefaultPreProcess(FeedEntry(e), now).url == DefaultPreProcess(FeedEntry(e), now).downloadUrl
    ensures e.id.Some? ==> DefaultPreProcess(FeedEntry(e), now).url == e.id
  {
  }

  /** A prepared dictionary passes the Default pre-processor untouched, so
      re-parsing a validated item's fields gives the item back. */
  lemma DefaultPassThrough(p: ParsedItem, now: int)
    requires IsHttpUrl(p.url)
    ensures DefaultPreProcess(Prepared(AsRaw(p)), now) == AsRaw(p)
    ensures Validate(DefaultPreProcess(Prepared(AsRaw(p)), now)) == Ok(p)
  {
  }

  /** An entry with no links and an http id reads the same under both rule
      sets: `id` is the item URL and `link` the download URL. */
  lemma MikanAndDefaultAgreeWithoutLinks(e: Entry, now: int)
    requires e.links.None? && e.id.Some? && StartsWith(e.id.value, "http")
    ensures Extract(Default, e, now) == Extract(Mikan, e, now)
  {
  }

  /** An unknown content extractor falls back to DefaultEntry. */
  lemma UnknownExtractorIsDefault(name: string)
    requires name != "mikan" && name != "dmhy" && name != "nyaa"
    ensures ParserFor(name) == Default
  {
  }
}
