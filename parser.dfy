/** parser.py: include/exclude title filtering, the per-(feed, version)
    pattern cache of RSSParser, and the loop of `parse_feed` that turns a
    fetched feed into (total entries, matched items). Patterns are literal:
    `pattern.search(title)` is substring containment. The fetch itself is an
    input. */
module FeedParser {
  import opened Common
  import opened Models
  import opened Entries
  import opened ConfigStore

  /** `re.compile(pattern).search(title)` for a literal pattern. */
  predicate Matches(pattern: string, title: string)
  {
    Contains(title, pattern)
  }

  /** `any(p.search(title) for p in patterns)`, left to right. */
  function SearchAny(patterns: seq<string>, title: string): (r: bool)
    ensures r <==> exists i :: 0 <= i < |patterns| && Matches(patterns[i], title)
  {
    if patterns == [] then false
    else if Matches(patterns[0], title) then true
    else
      assert forall i :: 1 <= i < |patterns| ==> patterns[i] == patterns[1..][i - 1];
      SearchAny(patterns[1..], title)
  }

  /** RSSParser.match_filters on the patterns of one feed. */
  function MatchFilters(includes: seq<string>, excludes: seq<string>, title: string): (r: bool)
  {
    var included := if includes == [] then true else SearchAny(includes, title);
    if SearchAny(excludes, title) then false else included
  }

  /** A title passes iff it is included (no include rule, or one found in
      it) and no exclude rule is found in it. */
  lemma MatchFiltersSpec(includes: seq<string>, excludes: seq<string>, title: string)
    ensures MatchFilters(includes, excludes, title)
            <==> (includes == [] || exists i :: 0 <= i < |includes| && Matches(includes[i], title))
                 && !(exists i :: 0 <= i < |excludes| && Matches(excludes[i], title))
  {
  }

  /** An exclude rule found in the title rejects it, whatever the includes. */
  lemma ExcludeWins(includes: seq<string>, excludes: seq<string>, title: string, i: nat)
    requires i < |excludes| && Matches(excludes[i], title)
    ensures !MatchFilters(includes, excludes, title)
  {
  }

  /** Without rules every title passes; an unknown feed has no rules. */
  lemma NoRulesAcceptAll(feeds: seq<FeedConfig>, name: string, title: string)
    requires FeedByName(feeds, name).None?
    ensures MatchFilters(FeedPatterns(feeds, name).0, FeedPatterns(feeds, name).1, title)
  {
  }

  /** The patterns a lookup for (name, version) yields: the cached ones, or
      the current rules of the feed. */
  function CachedOr(cache: map<(string, int), (seq<string>, seq<string>)>, feeds: seq<FeedConfig>,
                    name: string, version: int): (seq<string>, seq<string>)
  {
    if (name, version) in cache then cache[(name, version)] else FeedPatterns(feeds, name)
  }

  /** Every cached entry for `version` holds the current rules of its feed. */
  ghost predicate CacheCoherent(cache: map<(string, int), (seq<string>, seq<string>)>, feeds: seq<FeedConfig>, version: int)
  {
    forall n :: (n, version) in cache ==> cache[(n, version)] == FeedPatterns(feeds, n)
  }

  /** Extractor selection in parse_feed: the feed's content extractor, or
      "default" for an unknown feed, through ENTRY_PARSER_MAP. */
  function ExtractorFor(feeds: seq<FeedConfig>, name: string): (r: Extractor)
    ensures FeedByName(feeds, name).None? ==> r == Default
  {
    match FeedByName(feeds, name)
    case Some(f) => ParserFor(f.contentExtractor)
    case None => ParserFor(DefaultExtractor)
  }

  /** The items of `entries` that validate under `kind` and pass the
      filters, in order. */
  function Matched(entries: seq<Entry>, kind: Extractor, pats: (seq<string>, seq<string>), now: int): (r: seq<ParsedItem>)
    ensures |r| <= |entries|
  {
    if entries == [] then []
    else
      var rest := Matched(entries[1..], kind, pats, now);
      match Extract(kind, entries[0], now)
      case Ok(p) => if MatchFilters(pats.0, pats.1, p.title) then [p] + rest else rest
      case Err(_) => rest
  }

  /** `Matched` over a concatenation is the concatenation of the two. */
  lemma {:induction false} MatchedAppend(a: seq<Entry>, b: seq<Entry>, kind: Extractor,
                                         pats: (seq<string>, seq<string>), now: int)
    ensures Matched(a + b, kind, pats, now) == Matched(a, kind, pats, now) + Matched(b, kind, pats, now)
  {
    if a == [] {
      assert a + b == b;
    } else {
      assert (a + b)[0] == a[0];
      assert (a + b)[1..] == a[1..] + b;
      MatchedAppend(a[1..], b, kind, pats, now);
    }
  }

  /** Every matched item is an entry that validated and passed the filters,
      and every such entry is matched. */
  lemma {:induction false} MatchedSpec(entries: seq<Entry>, kind: Extractor, pats: (seq<string>, seq<string>), now: int)
    ensures forall p :: p in Matched(entries, kind, pats, now) <==>
              exists i :: 0 <= i < |entries| && Extract(kind, entries[i], now) == Ok(p)
                          && MatchFilters(pats.0, pats.1, p.title)
  {
    if entries != [] {
      MatchedSpec(entries[1..], kind, pats, now);
      forall p ensures p in Matched(entries, kind, pats, now) <==>
                 exists i :: 0 <= i < |entries| && Extract(kind, entries[i], now) == Ok(p)
                             && MatchFilters(pats.0, pats.1, p.title)
      {
        if exists i :: 0 <= i < |entries| && Extract(kind, entries[i], now) == Ok(p)
                       && MatchFilters(pats.0, pats.1, p.title) {
          var i :| 0 <= i < |entries| && Extract(kind, entries[i], now) == Ok(p)
                   && MatchFilters(pats.0, pats.1, p.title);
          if i > 0 {
            assert entries[1..][i - 1] == entries[i];
          }
        }
        if p in Matched(entries[1..], kind, pats, now) {
          var i :| 0 <= i < |entries[1..]| && Extract(kind, entries[1..][i], now) == Ok(p)
                   && MatchFilters(pats.0, pats.1, p.title);
          assert entries[i + 1] == entries[1..][i];
        }
      }
    }
  }

  /** What `feedparser.parse` returned: the bozo flag, the entries, and
      whether the channel data is non-empty. */
  datatype FeedFetch = FeedFetch(bozo: bool, entries: seq<Entry>, hasChannel: bool)

  /** A fetch `parse_feed` gives up on: malformed, or with neither entries
      nor channel data. */
  predicate Unusable(fetch: FeedFetch)
  {
    fetch.bozo || (fetch.entries == [] && !fetch.hasChannel)
  }

  class RSSParser {
    /** `_get_patterns_for_feed`'s memo, keyed by (feed name, version). */
    var cache: map<(string, int), (seq<string>, seq<string>)>

    constructor ()
      ensures cache == map[]
    {
      cache := map[];
    }

    /** RSSParser._get_patterns_for_feed: the memoised rules of `name` for
        `version`; a miss reads the current rules and stores them. */
    method PatternsFor(cm: ConfigManager, name: string, version: int) returns (p: (seq<string>, seq<string>))
      modifies this
      ensures p == CachedOr(old(cache), cm.config.feeds, name, version)
      ensures cache == old(cache)[(name, version) := p]
      ensures CacheCoherent(old(cache), cm.config.feeds, version) ==>
                p == FeedPatterns(cm.config.feeds, name) && CacheCoherent(cache, cm.config.feeds, version)
    {
      if (name, version) in cache {
        p := cache[(name, version)];
      } else {
        p := FeedPatterns(cm.config.feeds, name);
        cache := cache[(name, version) := p];
      }
    }

    /** RSSParser.match_filters: the patterns for the current version, then
        the filter test. */
    method MatchFiltersFor(cm: ConfigManager, title: string, name: string) returns (b: bool)
      modifies this
      ensures var pats := CachedOr(old(cache), cm.config.feeds, name, cm.version);
              b == MatchFilters(pats.0, pats.1, title)
              && cache == old(cache)[(name, cm.version) := pats]
    {
      var pats := PatternsFor(cm, name, cm.version);
      b := MatchFilters(pats.0, pats.1, title);
    }

    /** One iteration of parse_feed's loop: validate the entry under the
        feed's extractor and, when it validates, test its title against
        the feed's patterns, which a cache miss stores. */
    method ScanEntry(cm: ConfigManager, name: string, entry: Entry, kind: Extractor, now: int,
                     ghost pats: (seq<string>, seq<string>)) returns (item: Option<ParsedItem>)
      requires CachedOr(cache, cm.config.feeds, name, cm.version) == pats
      modifies this
      ensures CachedOr(cache, cm.config.feeds, name, cm.version) == pats
      ensures cache == old(cache) || ((name, cm.version) !in old(cache) && cache == old(cache)[(name, cm.version) := pats])
      ensures (if item.Some? then [item.value] else []) == Matched([entry], kind, pats, now)
    {
      item := None;
      var parsed := Extract(kind, entry, now);
      if parsed.Ok? {
        var ok := MatchFiltersFor(cm, parsed.value.title, name);
        if ok {
          item := Some(parsed.value);
        }
      }
    }

    /** RSSParser.parse_feed after the fetch: `(0, [])` for an unusable
        fetch, else the number of entries and, in order, the entries that
        validate under the feed's extractor and pass its filters; entries
        that fail validation are skipped. */
    method ParseFeed(cm: ConfigManager, name: string, fetch: FeedFetch, now: int)
      returns (total: nat, matched: seq<ParsedItem>)
      modifies this
      ensures Unusable(fetch) ==> total == 0 && matched == [] && cache == old(cache)
      ensures !Unusable(fetch) ==>
                var pats := CachedOr(old(cache), cm.config.feeds, name, cm.version);
                && total == |fetch.entries|
                && matched == Matched(fetch.entries, ExtractorFor(cm.config.feeds, name), pats, now)
                && (cache == old(cache) || cache == old(cache)[(name, cm.version) := pats])
      ensures |matched| <= total
    {
      var kind := ExtractorFor(cm.config.feeds, name);
      if Unusable(fetch) {
        return 0, [];
      }
      ghost var pats := CachedOr(cache, cm.config.feeds, name, cm.version);
      matched := [];
      var i := 0;
      while i < |fetch.entries|
        invariant 0 <= i <= |fetch.entries|
        invariant matched == Matched(fetch.entries[..i], kind, pats, now)
        invariant cache == old(cache) || ((name, cm.version) !in old(cache) && cache == old(cache)[(name, cm.version) := pats])
        invariant CachedOr(cache, cm.config.feeds, name, cm.version) == pats
      {
        var entry := fetch.entries[i];
        assert fetch.entries[..i + 1] == fetch.entries[..i] + [entry];
        MatchedAppend(fetch.entries[..i], [entry], kind, pats, now);
        var item := ScanEntry(cm, name, entry, kind, now, pats);
        if item.Some? {
          matched := matched + [item.value];
        }
        i := i + 1;
      }
      assert fetch.entries[..i] == fetch.entries;
      total := |fetch.entries|;
    }
  }

  /** With a coherent cache, parse_feed filters with the feed's current rules. */
  lemma CoherentCacheUsesCurrentRules(cache: map<(string, int), (seq<string>, seq<string>)>,
                                      feeds: seq<FeedConfig>, name: string, version: int)
    requires CacheCoherent(cache, feeds, version)
    ensures CachedOr(cache, feeds, name, version) == FeedPatterns(feeds, name)
  {
  }
}
