/** The configuration models of models.py: LogConfig, WebConfig, Aria2Config,
    QBittorrentConfig, FeedConfig and Config, with their validators, and
    DownloadRecord's field constraints.

    `Parse` is what `Config.parse_obj` does to a decoded YAML/JSON value
    (defaults for missing fields, the field constraints, the content-extractor
    root validator, then the unique-name and downloader-presence validators);
    `Dump` is `Config.dict()`. A configuration that `Parse` accepts is
    `WellFormed`, and `Dump` followed by `Parse` gives back every well-formed
    configuration. */
module Models {
  import opened Common

  // ---------------------------------------------------------------------
  // Log level
  // ---------------------------------------------------------------------

  /** The six values of LogConfig.level's literal type. */
  const LogLevels: seq<string> := ["DEBUG", "INFO", "SUCCESS", "WARNING", "ERROR", "CRITICAL"]

  const DefaultLogLevel: string := "INFO"

  datatype ConfigError =
    | InvalidField(field: string)       // wrong type, missing required field, or out of range
    | DuplicateFeedName(name: string)   // "Feed 名称重复: <name>"
    | MissingDownloaderConfig(downloader: Downloader)

  /** The `pre=True` validator of LogConfig.level: strings are upper-cased,
      anything else passes through unchanged. */
  function StandardizeLevelCase(v: Value): (r: Value)
    ensures v.Str? <==> r.Str?
    ensures v.Str? ==> r.s == Upper(v.s)
    ensures !v.Str? ==> r == v
  {
    if v.Str? then Str(Upper(v.s)) else v
  }

  /** LogConfig.level: the pre-validator, then the literal check. */
  function ValidateLogLevel(v: Value): (r: Result<string, ConfigError>)
    ensures r.Ok? ==> r.value in LogLevels
    ensures r.Ok? <==> v.Str? && Upper(v.s) in LogLevels
    ensures r.Ok? ==> r.value == Upper(v.s)
  {
    var w := StandardizeLevelCase(v);
    if w.Str? && w.s in LogLevels then Ok(w.s) else Err(InvalidField("log.level"))
  }

  lemma {:induction false} UpperOfLower(s: string)
    ensures Upper(Lower(s)) == Upper(s)
  {
    var a, b := Upper(Lower(s)), Upper(s);
    assert |a| == |b|;
    forall i | 0 <= i < |s| ensures a[i] == b[i] {
      assert a[i] == UpperChar(LowerChar(s[i]));
    }
  }

  /** Level names are accepted in any letter case: a lower-cased spelling of
      an accepted level validates to the same level. */
  lemma LogLevelAnyCase(s: string)
    requires ValidateLogLevel(Str(s)).Ok?
    ensures ValidateLogLevel(Str(Lower(s))) == ValidateLogLevel(Str(s))
  {
    UpperOfLower(s);
  }

  /** Non-strings are never upper-cased, so they never pass the literal check. */
  lemma LogLevelRejectsNonString(v: Value)
    requires !v.Str?
    ensures ValidateLogLevel(v).Err?
  {
  }

  lemma {:induction false} UpperIdentity(s: string)
    requires forall i :: 0 <= i < |s| ==> !('a' <= s[i] <= 'z')
    ensures Upper(s) == s
  {
    var u := Upper(s);
    forall i | 0 <= i < |s| ensures u[i] == s[i] {
    }
  }

  /** Every level is its own upper-case spelling. */
  lemma LogLevelsUpper(level: string)
    requires level in LogLevels
    ensures Upper(level) == level
  {
    var k :| 0 <= k < |LogLevels| && LogLevels[k] == level;
    assert forall i :: 0 <= i < |level| ==> !('a' <= level[i] <= 'z') by {
      if k == 0 { assert level == "DEBUG"; }
      else if k == 1 { assert level == "INFO"; }
      else if k == 2 { assert level == "SUCCESS"; }
      else if k == 3 { assert level == "WARNING"; }
      else if k == 4 { assert level == "ERROR"; }
      else { assert level == "CRITICAL"; }
    }
    UpperIdentity(level);
  }

  // ---------------------------------------------------------------------
  // Configuration datatypes
  // ---------------------------------------------------------------------

  datatype Downloader = Aria2 | QBittorrent
  {
    /** The literal the configuration and the ledger use for this back-end. */
    function Name(): (r: string)
      ensures r == "aria2" || r == "qbittorrent"
    {
      match this
      case Aria2 => "aria2"
      case QBittorrent => "qbittorrent"
    }
  }

  /** The downloader literal named by `s`, if it is one. */
  function DownloaderNamed(s: string): (r: Option<Downloader>)
    ensures r.Some? ==> r.value.Name() == s
    ensures r.None? ==> s != "aria2" && s != "qbittorrent"
  {
    if s == "aria2" then Some(Aria2)
    else if s == "qbittorrent" then Some(QBittorrent)
    else None
  }

  datatype LogConfig = LogConfig(level: string)

  datatype WebConfig = WebConfig(enabled: bool, host: string, port: int, intervalHours: int)

  datatype Aria2Config = Aria2Config(rpc: Option<string>, secret: Option<string>, dir: Option<string>)

  datatype QBittorrentConfig = QBittorrentConfig(host: Option<string>, username: Option<string>, password: Option<string>)

  datatype FeedConfig = FeedConfig(
    name: string,
    url: string,
    includes: seq<string>,
    excludes: seq<string>,
    downloader: Downloader,
    contentExtractor: string)

  datatype Config = Config(
    log: LogConfig,
    web: WebConfig,
    aria2: Option<Aria2Config>,
    qbittorrent: Option<QBittorrentConfig>,
    feeds: seq<FeedConfig>)

  const DefaultAria2Rpc: string := "http://127.0.0.1:6800/jsonrpc"
  const DefaultQBittorrentHost: string := "http://127.0.0.1:8080"
  const DefaultWebHost: string := "127.0.0.1"
  const DefaultWebPort: int := 8000
  const DefaultIntervalHours: int := 6
  const DefaultExtractor: string := "default"

  /** The default back-end addresses are http URLs with a host. */
  lemma DefaultUrlsValid()
    ensures IsHttpUrl(DefaultAria2Rpc) && IsHttpUrl(DefaultQBittorrentHost)
  {
    assert StartsWith(DefaultAria2Rpc, "http://");
    assert AfterScheme(DefaultAria2Rpc)[0] == '1';
    assert StartsWith(DefaultQBittorrentHost, "http://");
    assert AfterScheme(DefaultQBittorrentHost)[0] == '1';
  }

  /** `Config.default()`: every field at its default, no back-end, no feed. */
  const DefaultConfig: Config := Config(
    LogConfig(DefaultLogLevel),
    WebConfig(false, DefaultWebHost, DefaultWebPort, DefaultIntervalHours),
    None, None, [])

  /** WebConfig's field constraints: `0 <= port <= 65535`, `interval_hours > 0`. */
  predicate ValidWeb(w: WebConfig)
  {
    0 <= w.port <= 65535 && w.intervalHours > 0
  }

  // ---------------------------------------------------------------------
  // URLs and content-extractor detection
  // ---------------------------------------------------------------------

  /** The URL without its `http://` or `https://` scheme. */
  function AfterScheme(url: string): (r: string)
    ensures |r| <= |url|
  {
    if StartsWith(url, "http://") then url[7..]
    else if StartsWith(url, "https://") then url[8..]
    else url
  }

  predicate IsHostDelimiter(c: char)
  {
    c == '/' || c == '?' || c == '#' || c == ':'
  }

  /** The longest prefix of `s` without a host delimiter. */
  function HostPrefix(s: string): (r: string)
    ensures StartsWith(s, r)
    ensures forall i :: 0 <= i < |r| ==> !IsHostDelimiter(r[i])
    ensures |r| < |s| ==> IsHostDelimiter(s[|r|])
  {
    if s == [] || IsHostDelimiter(s[0]) then [] else [s[0]] + HostPrefix(s[1..])
  }

  /** `url.host` of an http(s) URL: the authority without port (user
      information is not modelled). */
  function HostOf(url: string): string
  {
    HostPrefix(AfterScheme(url))
  }

  /** What pydantic's `HttpUrl` accepts in this model: an http or https URL
      with a non-empty host. */
  predicate IsHttpUrl(s: string)
  {
    (StartsWith(s, "http://") || StartsWith(s, "https://")) && HostOf(s) != ""
  }

  /** EXTRACTOR_DOMAIN_MAP, in its declaration order. */
  const ExtractorDomains: seq<(string, seq<string>)> := [
    ("mikan", ["mikanime.tv", "mikanani.me"]),
    ("nyaa", ["nyaa.si"]),
    ("dmhy", ["dmhy.org"])
  ]

  /** `any(hostname.endswith(domain) for domain in domains)` */
  predicate HostInDomains(host: string, domains: seq<string>)
  {
    exists j :: 0 <= j < |domains| && EndsWith(host, domains[j])
  }

  /** The first entry of `table` one of whose domains ends `host`. */
  function FirstExtractorFor(table: seq<(string, seq<string>)>, host: string): (r: Option<nat>)
    ensures r.Some? ==> r.value < |table| && HostInDomains(host, table[r.value].1)
    ensures r.Some? ==> forall k :: 0 <= k < r.value ==> !HostInDomains(host, table[k].1)
    ensures r.None? <==> forall k :: 0 <= k < |table| ==> !HostInDomains(host, table[k].1)
  {
    if table == [] then None
    else if HostInDomains(host, table[0].1) then Some(0)
    else
      match FirstExtractorFor(table[1..], host)
      case None => None
      case Some(k) => Some(k + 1)
  }

  /** FeedConfig.set_content_extractor_from_url. */
  function DetectExtractor(extractor: string, url: string): (r: string)
    ensures extractor != DefaultExtractor ==> r == extractor
    ensures r == extractor || exists k :: 0 <= k < |ExtractorDomains| && r == ExtractorDomains[k].0
  {
    var host := HostOf(url);
    if extractor == DefaultExtractor && host != "" then
      match FirstExtractorFor(ExtractorDomains, Lower(host))
      case Some(k) => ExtractorDomains[k].0
      case None => extractor
    else extractor
  }

  /** Detection picks the first map entry whose domain ends the lower-cased
      host, and keeps "default" when no entry does. */
  lemma DetectExtractorFromHost(url: string)
    requires HostOf(url) != ""
    ensures forall k :: 0 <= k < |ExtractorDomains| && DetectExtractor(DefaultExtractor, url) == ExtractorDomains[k].0
              ==> HostInDomains(Lower(HostOf(url)), ExtractorDomains[k].1)
                  && forall m :: 0 <= m < k ==> !HostInDomains(Lower(HostOf(url)), ExtractorDomains[m].1)
    ensures (DetectExtractor(DefaultExtractor, url) == DefaultExtractor)
              <==> (forall k :: 0 <= k < |ExtractorDomains| ==> !HostInDomains(Lower(HostOf(url)), ExtractorDomains[k].1))
  {
    DetectedIsFirstMatch(url);
    DetectedDefaultIffNoMatch(url);
  }

  /** The extractor detected from a host is that of the first entry whose
      domain ends the host. */
  lemma DetectedIsFirstMatch(url: string)
    requires HostOf(url) != ""
    ensures forall k :: 0 <= k < |ExtractorDomains| && DetectExtractor(DefaultExtractor, url) == ExtractorDomains[k].0
              ==> HostInDomains(Lower(HostOf(url)), ExtractorDomains[k].1)
                  && forall m :: 0 <= m < k ==> !HostInDomains(Lower(HostOf(url)), ExtractorDomains[m].1)
  {
    var r := FirstExtractorFor(ExtractorDomains, Lower(HostOf(url)));
    forall k | 0 <= k < |ExtractorDomains| && DetectExtractor(DefaultExtractor, url) == ExtractorDomains[k].0
      ensures HostInDomains(Lower(HostOf(url)), ExtractorDomains[k].1)
      ensures forall m :: 0 <= m < k ==> !HostInDomains(Lower(HostOf(url)), ExtractorDomains[m].1)
    {
      assert r.Some? && ExtractorDomains[r.value].0 == ExtractorDomains[k].0;
      assert r.value == k;
    }
  }

  /** Detection keeps "default" exactly when no entry's domain ends the host. */
  lemma DetectedDefaultIffNoMatch(url: string)
    requires HostOf(url) != ""
    ensures (DetectExtractor(DefaultExtractor, url) == DefaultExtractor)
              <==> (forall k :: 0 <= k < |ExtractorDomains| ==> !HostInDomains(Lower(HostOf(url)), ExtractorDomains[k].1))
  {
    var r := FirstExtractorFor(ExtractorDomains, Lower(HostOf(url)));
  }

  /** Detecting again changes nothing: a parsed feed is already normalised. */
  lemma DetectExtractorIdempotent(extractor: string, url: string)
    ensures DetectExtractor(DetectExtractor(extractor, url), url) == DetectExtractor(extractor, url)
  {
  }

  /** The host prefix stops at the first delimiter. */
  lemma {:induction false} HostPrefixUpTo(h: string, rest: string)
    requires forall i :: 0 <= i < |h| ==> !IsHostDelimiter(h[i])
    ensures HostPrefix(h + "/" + rest) == h
  {
    if h != [] {
      assert (h + "/" + rest)[1..] == h[1..] + "/" + rest;
      HostPrefixUpTo(h[1..], rest);
    }
  }

  // ---------------------------------------------------------------------
  // Config validators
  // ---------------------------------------------------------------------

  /** The key under which `check_unique_feed_names` compares names. */
  function NameKey(name: string): string
  {
    Lower(Strip(name))
  }

  /** The name keys of `feeds`, in order. */
  function NameKeys(feeds: seq<FeedConfig>): (ks: seq<string>)
    ensures |ks| == |feeds|
    ensures forall i :: 0 <= i < |feeds| ==> ks[i] == NameKey(feeds[i].name)
  {
    if feeds == [] then [] else [NameKey(feeds[0].name)] + NameKeys(feeds[1..])
  }

  /** No two of the first `n` keys are equal. */
  predicate DistinctUpTo(ks: seq<string>, n: int)
  {
    forall a, b :: 0 <= a < b < n && b < |ks| ==> ks[a] != ks[b]
  }

  /** No two feeds of `feeds` share a name key. */
  predicate DistinctNames(feeds: seq<FeedConfig>)
  {
    DistinctUpTo(NameKeys(feeds), |feeds|)
  }

  /** The scan of `check_unique_feed_names` from position `i`, `seen` holding
      the keys before `i`: the position of the first key seen before it. */
  function FirstDuplicateFrom(ks: seq<string>, i: nat, seen: set<string>): (r: Option<nat>)
    requires i <= |ks|
    requires forall k :: k in seen <==> k in ks[..i]
    requires DistinctUpTo(ks, i)
    ensures r.None? <==> DistinctUpTo(ks, |ks|)
    ensures r.Some? ==> i <= r.value < |ks| && DistinctUpTo(ks, r.value) && ks[r.value] in ks[..r.value]
    decreases |ks| - i
  {
    if i == |ks| then
      None
    else if ks[i] in seen then
      assert !DistinctUpTo(ks, |ks|) by {
        var a :| 0 <= a < i && ks[..i][a] == ks[i];
        assert ks[a] == ks[i];
      }
      Some(i)
    else
      assert ks[..i + 1] == ks[..i] + [ks[i]];
      assert DistinctUpTo(ks, i + 1) by {
        forall a | 0 <= a < i ensures ks[a] != ks[i] {
          assert ks[a] == ks[..i][a];
        }
      }
      var r := FirstDuplicateFrom(ks, i + 1, seen + {ks[i]});
      assert r.Some? ==> !DistinctUpTo(ks, |ks|) by {
        if r.Some? {
          var a :| 0 <= a < r.value && ks[..r.value][a] == ks[r.value];
          assert ks[a] == ks[r.value];
        }
      }
      r
  }

  /** Config.check_unique_feed_names: names are compared by their stripped,
      lower-cased key, and the error names the feed at the second occurrence
      of a key, the first feed whose key an earlier feed already has. */
  function CheckUniqueFeedNames(feeds: seq<FeedConfig>): (r: Option<ConfigError>)
    ensures r.None? <==> DistinctNames(feeds)
    ensures r.Some? ==> exists j :: 0 <= j < |feeds| && r.value == DuplicateFeedName(feeds[j].name)
                          && DistinctUpTo(NameKeys(feeds), j) && NameKeys(feeds)[j] in NameKeys(feeds)[..j]
  {
    match FirstDuplicateFrom(NameKeys(feeds), 0, {})
    case None => None
    case Some(j) =>
      Some(DuplicateFeedName(feeds[j].name))
  }

  /** Some feed of `feeds` uses back-end `d`. */
  predicate Uses(feeds: seq<FeedConfig>, d: Downloader)
  {
    exists i :: 0 <= i < |feeds| && feeds[i].downloader == d
  }

  /** Every back-end that some feed uses has its configuration section. */
  predicate DownloadersConfigured(c: Config)
  {
    (Uses(c.feeds, Aria2) ==> c.aria2.Some?) && (Uses(c.feeds, QBittorrent) ==> c.qbittorrent.Some?)
  }

  /** Config.check_downloader_config_exists: aria2 is checked before qbittorrent. */
  function CheckDownloaderConfigExists(c: Config): (r: Option<ConfigError>)
    ensures r.None? <==> DownloadersConfigured(c)
    ensures r == Some(MissingDownloaderConfig(Aria2)) <==> Uses(c.feeds, Aria2) && c.aria2.None?
    ensures (r == Some(MissingDownloaderConfig(QBittorrent)))
              <==> (!(Uses(c.feeds, Aria2) && c.aria2.None?) && Uses(c.feeds, QBittorrent) && c.qbittorrent.None?)
  {
    var used := set f | f in c.feeds :: f.downloader;
    assert Aria2 in used <==> Uses(c.feeds, Aria2) by {
      if Uses(c.feeds, Aria2) {
        var i :| 0 <= i < |c.feeds| && c.feeds[i].downloader == Aria2;
        assert c.feeds[i] in c.feeds;
      }
    }
    assert QBittorrent in used <==> Uses(c.feeds, QBittorrent) by {
      if Uses(c.feeds, QBittorrent) {
        var i :| 0 <= i < |c.feeds| && c.feeds[i].downloader == QBittorrent;
        assert c.feeds[i] in c.feeds;
      }
    }
    if Aria2 in used && c.aria2.None? then Some(MissingDownloaderConfig(Aria2))
    else if QBittorrent in used && c.qbittorrent.None? then Some(MissingDownloaderConfig(QBittorrent))
    else None
  }

  /** A feed whose content extractor detection would not change. */
  predicate ExtractorNormalised(f: FeedConfig)
  {
    DetectExtractor(f.contentExtractor, f.url) == f.contentExtractor
  }

  /** A feed as FeedConfig accepts it: an http(s) URL, and a content
      extractor that detection would not change. */
  predicate FeedValid(f: FeedConfig)
  {
    IsHttpUrl(f.url) && ExtractorNormalised(f)
  }

  /** The `HttpUrl | None` fields of the back-end sections hold URLs. */
  predicate SectionUrlsValid(c: Config)
  {
    && (c.aria2.Some? && c.aria2.value.rpc.Some? ==> IsHttpUrl(c.aria2.value.rpc.value))
    && (c.qbittorrent.Some? && c.qbittorrent.value.host.Some? ==> IsHttpUrl(c.qbittorrent.value.host.value))
  }

  /** Everything a configuration that passed validation satisfies. */
  predicate WellFormed(c: Config)
  {
    && c.log.level in LogLevels
    && ValidWeb(c.web)
    && SectionUrlsValid(c)
    && (forall i :: 0 <= i < |c.feeds| ==> FeedValid(c.feeds[i]))
    && DistinctNames(c.feeds)
    && DownloadersConfigured(c)
  }

  lemma DefaultConfigWellFormed()
    ensures WellFormed(DefaultConfig)
  {
  }

  // ---------------------------------------------------------------------
  // Config.parse_obj
  // ---------------------------------------------------------------------

  /** `f.get(key)` */
  function Field(f: map<string, Value>, key: string): Option<Value>
  {
    if key in f then Some(f[key]) else None
  }

  function BoolField(f: map<string, Value>, key: string, default: bool): Result<bool, ConfigError>
  {
    match Field(f, key)
    case None => Ok(default)
    case Some(Bool(b)) => Ok(b)
    case Some(_) => Err(InvalidField(key))
  }

  function StrField(f: map<string, Value>, key: string, default: Option<string>): Result<string, ConfigError>
  {
    match Field(f, key)
    case None => if default.Some? then Ok(default.value) else Err(InvalidField(key))
    case Some(Str(s)) => Ok(s)
    case Some(_) => Err(InvalidField(key))
  }

  /** A field typed `str | None`. */
  function OptStrField(f: map<string, Value>, key: string, default: Option<string>): Result<Option<string>, ConfigError>
  {
    match Field(f, key)
    case None => Ok(default)
    case Some(Null) => Ok(None)
    case Some(Str(s)) => Ok(Some(s))
    case Some(_) => Err(InvalidField(key))
  }

  /** A field typed `HttpUrl | None`. */
  function OptUrlField(f: map<string, Value>, key: string, default: Option<string>): (r: Result<Option<string>, ConfigError>)
    requires default.Some? ==> IsHttpUrl(default.value)
    ensures r.Ok? && r.value.Some? ==> IsHttpUrl(r.value.value)
  {
    match Field(f, key)
    case None => Ok(default)
    case Some(Null) => Ok(None)
    case Some(Str(s)) => if IsHttpUrl(s) then Ok(Some(s)) else Err(InvalidField(key))
    case Some(_) => Err(InvalidField(key))
  }

  /** An integer field with a lower bound and an optional upper bound. */
  function IntField(f: map<string, Value>, key: string, default: int, lo: int, hi: Option<int>): Result<int, ConfigError>
  {
    match Field(f, key)
    case None => Ok(default)
    case Some(Int(i)) =>
      if lo <= i && (hi.None? || i <= hi.value) then Ok(i) else Err(InvalidField(key))
    case Some(_) => Err(InvalidField(key))
  }

  function StrList(items: seq<Value>): (r: Option<seq<string>>)
    ensures r.Some? ==> |r.value| == |items|
  {
    if items == [] then Some([])
    else if !items[0].Str? then None
    else
      match StrList(items[1..])
      case None => None
      case Some(rest) => Some([items[0].s] + rest)
  }

  /** A `list[str]` field defaulting to the empty list. */
  function StrListField(f: map<string, Value>, key: string): Result<seq<string>, ConfigError>
  {
    match Field(f, key)
    case None => Ok([])
    case Some(List(items)) =>
      (match StrList(items) case Some(l) => Ok(l) case None => Err(InvalidField(key)))
    case Some(_) => Err(InvalidField(key))
  }

  function ParseLog(v: Option<Value>): (r: Result<LogConfig, ConfigError>)
    ensures r.Ok? ==> r.value.level in LogLevels
  {
    match v
    case None => Ok(LogConfig(DefaultLogLevel))
    case Some(Obj(f)) =>
      if "level" in f then
        (match ValidateLogLevel(f["level"]) case Ok(l) => Ok(LogConfig(l)) case Err(e) => Err(e))
      else Ok(LogConfig(DefaultLogLevel))
    case Some(_) => Err(InvalidField("log"))
  }

  function ParseWeb(v: Option<Value>): (r: Result<WebConfig, ConfigError>)
    ensures r.Ok? ==> ValidWeb(r.value)
  {
    match v
    case None => Ok(WebConfig(false, DefaultWebHost, DefaultWebPort, DefaultIntervalHours))
    case Some(Obj(f)) =>
      var enabled := BoolField(f, "enabled", false);
      var host := StrField(f, "host", Some(DefaultWebHost));
      var port := IntField(f, "port", DefaultWebPort, 0, Some(65535));
      var interval := IntField(f, "interval_hours", DefaultIntervalHours, 1, None);
      if enabled.Err? then Err(enabled.error)
      else if host.Err? then Err(host.error)
      else if port.Err? then Err(port.error)
      else if interval.Err? then Err(interval.error)
      else Ok(WebConfig(enabled.value, host.value, port.value, interval.value))
    case Some(_) => Err(InvalidField("web"))
  }

  function ParseAria2(v: Option<Value>): (r: Result<Option<Aria2Config>, ConfigError>)
    ensures r.Ok? && r.value.Some? && r.value.value.rpc.Some? ==> IsHttpUrl(r.value.value.rpc.value)
  {
    match v
    case None => Ok(None)
    case Some(Null) => Ok(None)
    case Some(Obj(f)) =>
      DefaultUrlsValid();
      var rpc := OptUrlField(f, "rpc", Some(DefaultAria2Rpc));
      var secret := OptStrField(f, "secret", None);
      var dir := OptStrField(f, "dir", None);
      if rpc.Err? then Err(rpc.error)
      else if secret.Err? then Err(secret.error)
      else if dir.Err? then Err(dir.error)
      else Ok(Some(Aria2Config(rpc.value, secret.value, dir.value)))
    case Some(_) => Err(InvalidField("aria2"))
  }

  function ParseQBittorrent(v: Option<Value>): (r: Result<Option<QBittorrentConfig>, ConfigError>)
    ensures r.Ok? && r.value.Some? && r.value.value.host.Some? ==> IsHttpUrl(r.value.value.host.value)
  {
    match v
    case None => Ok(None)
    case Some(Null) => Ok(None)
    case Some(Obj(f)) =>
      DefaultUrlsValid();
      var host := OptUrlField(f, "host", Some(DefaultQBittorrentHost));
      var user := OptStrField(f, "username", None);
      var pass := OptStrField(f, "password", None);
      if host.Err? then Err(host.error)
      else if user.Err? then Err(user.error)
      else if pass.Err? then Err(pass.error)
      else Ok(Some(QBittorrentConfig(host.value, user.value, pass.value)))
    case Some(_) => Err(InvalidField("qbittorrent"))
  }

  function DownloaderField(f: map<string, Value>): Result<Downloader, ConfigError>
  {
    match Field(f, "downloader")
    case None => Ok(Aria2)
    case Some(Str(s)) =>
      (match DownloaderNamed(s) case Some(d) => Ok(d) case None => Err(InvalidField("downloader")))
    case Some(_) => Err(InvalidField("downloader"))
  }

  /** The first failing field, in field order, or the feed with its
      content extractor detected from its URL. */
  function AssembleFeed(name: Result<string, ConfigError>, url: Result<string, ConfigError>,
                        includes: Result<seq<string>, ConfigError>, excludes: Result<seq<string>, ConfigError>,
                        downloader: Result<Downloader, ConfigError>,
                        extractor: Result<string, ConfigError>): (r: Result<FeedConfig, ConfigError>)
    ensures r.Ok? ==> FeedValid(r.value)
  {
    if name.Err? then Err(name.error)
    else if url.Err? then Err(url.error)
    else if !IsHttpUrl(url.value) then Err(InvalidField("url"))
    else if includes.Err? then Err(includes.error)
    else if excludes.Err? then Err(excludes.error)
    else if downloader.Err? then Err(downloader.error)
    else if extractor.Err? then Err(extractor.error)
    else
      DetectExtractorIdempotent(extractor.value, url.value);
      Ok(FeedConfig(name.value, url.value, includes.value, excludes.value, downloader.value,
                    DetectExtractor(extractor.value, url.value)))
  }

  /** FeedConfig: field defaults, then set_content_extractor_from_url. */
  function ParseFeed(v: Value): (r: Result<FeedConfig, ConfigError>)
    ensures r.Ok? ==> FeedValid(r.value)
  {
    match v
    case Obj(f) =>
      AssembleFeed(StrField(f, "name", None), StrField(f, "url", None),
                   StrListField(f, "include"), StrListField(f, "exclude"),
                   DownloaderField(f), StrField(f, "content_extractor", Some(DefaultExtractor)))
    case _ => Err(InvalidField("feeds"))
  }

  function ParseFeedList(items: seq<Value>): (r: Result<seq<FeedConfig>, ConfigError>)
    ensures r.Ok? ==> |r.value| == |items|
    ensures r.Ok? ==> forall i :: 0 <= i < |r.value| ==> FeedValid(r.value[i])
  {
    if items == [] then Ok([])
    else
      match ParseFeed(items[0])
      case Err(e) => Err(e)
      case Ok(f) =>
        match ParseFeedList(items[1..])
        case Err(e) => Err(e)
        case Ok(rest) => Ok([f] + rest)
  }

  function ParseFeeds(v: Option<Value>): (r: Result<seq<FeedConfig>, ConfigError>)
    ensures r.Ok? ==> forall i :: 0 <= i < |r.value| ==> FeedValid(r.value[i])
  {
    match v
    case None => Ok([])
    case Some(List(items)) => ParseFeedList(items)
    case Some(_) => Err(InvalidField("feeds"))
  }

  /** The two validators that run once the fields have parsed:
      `check_unique_feed_names` (a field validator, so it runs first), then
      `check_downloader_config_exists`. */
  function ValidateConfig(c: Config): (r: Result<Config, ConfigError>)
    ensures r.Ok? <==> DistinctNames(c.feeds) && DownloadersConfigured(c)
    ensures r.Ok? ==> r.value == c
    ensures !DistinctNames(c.feeds) ==> r.Err? && r.error.DuplicateFeedName?
  {
    match CheckUniqueFeedNames(c.feeds)
    case Some(e) => Err(e)
    case None =>
      (match CheckDownloaderConfigExists(c)
       case Some(e) => Err(e)
       case None => Ok(c))
  }

  /** The first failing section, in field order, or the assembled Config. */
  function Assemble(log: Result<LogConfig, ConfigError>, web: Result<WebConfig, ConfigError>,
                    aria2: Result<Option<Aria2Config>, ConfigError>,
                    qb: Result<Option<QBittorrentConfig>, ConfigError>,
                    feeds: Result<seq<FeedConfig>, ConfigError>): Result<Config, ConfigError>
  {
    if log.Err? then Err(log.error)
    else if web.Err? then Err(web.error)
    else if aria2.Err? then Err(aria2.error)
    else if qb.Err? then Err(qb.error)
    else if feeds.Err? then Err(feeds.error)
    else Ok(Config(log.value, web.value, aria2.value, qb.value, feeds.value))
  }

  /** The fields of Config, each parsed with its default. */
  function ParseSections(f: map<string, Value>): (r: Result<Config, ConfigError>)
    ensures r.Ok? ==> r.value.log.level in LogLevels && ValidWeb(r.value.web) && SectionUrlsValid(r.value)
    ensures r.Ok? ==> forall i :: 0 <= i < |r.value.feeds| ==> FeedValid(r.value.feeds[i])
  {
    Assemble(ParseLog(Field(f, "log")), ParseWeb(Field(f, "web")), ParseAria2(Field(f, "aria2")),
             ParseQBittorrent(Field(f, "qbittorrent")), ParseFeeds(Field(f, "feeds")))
  }

  /** `Config.parse_obj(v)`. Whatever it accepts is well-formed. */
  function Parse(v: Value): (r: Result<Config, ConfigError>)
    ensures r.Ok? ==> WellFormed(r.value)
  {
    match v
    case Obj(f) =>
      (match ParseSections(f)
       case Err(e) => Err(e)
       case Ok(c) => ValidateConfig(c))
    case _ => Err(InvalidField("config"))
  }

  // ---------------------------------------------------------------------
  // Config.dict()
  // ---------------------------------------------------------------------

  function DumpOptStr(o: Option<string>): Value
  {
    match o
    case None => Null
    case Some(s) => Str(s)
  }

  function DumpStrList(l: seq<string>): (r: seq<Value>)
    ensures |r| == |l|
    ensures forall i :: 0 <= i < |l| ==> r[i] == Str(l[i])
  {
    if l == [] then [] else [Str(l[0])] + DumpStrList(l[1..])
  }

  function DumpFeed(f: FeedConfig): Value
  {
    Obj(map[
      "name" := Str(f.name),
      "url" := Str(f.url),
      "include" := List(DumpStrList(f.includes)),
      "exclude" := List(DumpStrList(f.excludes)),
      "downloader" := Str(f.downloader.Name()),
      "content_extractor" := Str(f.contentExtractor)])
  }

  function DumpFeeds(feeds: seq<FeedConfig>): (r: seq<Value>)
    ensures |r| == |feeds|
  {
    if feeds == [] then [] else [DumpFeed(feeds[0])] + DumpFeeds(feeds[1..])
  }

  function DumpAria2(a: Option<Aria2Config>): Value
  {
    match a
    case None => Null
    case Some(c) => Obj(map["rpc" := DumpOptStr(c.rpc), "secret" := DumpOptStr(c.secret), "dir" := DumpOptStr(c.dir)])
  }

  function DumpQBittorrent(q: Option<QBittorrentConfig>): Value
  {
    match q
    case None => Null
    case Some(c) =>
      Obj(map["host" := DumpOptStr(c.host), "username" := DumpOptStr(c.username), "password" := DumpOptStr(c.password)])
  }

  function DumpLog(l: LogConfig): Value
  {
    Obj(map["level" := Str(l.level)])
  }

  function DumpWeb(w: WebConfig): Value
  {
    Obj(map[
      "enabled" := Bool(w.enabled),
      "host" := Str(w.host),
      "port" := Int(w.port),
      "interval_hours" := Int(w.intervalHours)])
  }

  /** The top-level dictionary of `Config.dict()`. */
  function DumpFields(c: Config): map<string, Value>
  {
    map[
      "log" := DumpLog(c.log),
      "web" := DumpWeb(c.web),
      "aria2" := DumpAria2(c.aria2),
      "qbittorrent" := DumpQBittorrent(c.qbittorrent),
      "feeds" := List(DumpFeeds(c.feeds))]
  }

  function Dump(c: Config): Value
  {
    Obj(DumpFields(c))
  }

  // ---------------------------------------------------------------------
  // Round trip
  // ---------------------------------------------------------------------

  lemma {:induction false} StrListDump(l: seq<string>)
    ensures StrList(DumpStrList(l)) == Some(l)
  {
    if l != [] {
      StrListDump(l[1..]);
      assert DumpStrList(l)[1..] == DumpStrList(l[1..]);
      assert [l[0]] + l[1..] == l;
    }
  }

  /** Each field of a dumped feed parses back to its value. */
  lemma DumpFeedFields(f: FeedConfig)
    ensures StrField(DumpFeed(f).fields, "name", None) == Ok(f.name)
    ensures StrField(DumpFeed(f).fields, "url", None) == Ok(f.url)
    ensures StrListField(DumpFeed(f).fields, "include") == Ok(f.includes)
    ensures StrListField(DumpFeed(f).fields, "exclude") == Ok(f.excludes)
    ensures DownloaderField(DumpFeed(f).fields) == Ok(f.downloader)
    ensures StrField(DumpFeed(f).fields, "content_extractor", Some(DefaultExtractor)) == Ok(f.contentExtractor)
  {
    var m := DumpFeed(f).fields;
    assert StrField(m, "name", None) == Ok(f.name) by {
      assert m["name"] == Str(f.name);
    }
    assert StrField(m, "url", None) == Ok(f.url) by {
      assert m["url"] == Str(f.url);
    }
    assert StrListField(m, "include") == Ok(f.includes) by {
      StrListDump(f.includes);
      assert m["include"] == List(DumpStrList(f.includes));
    }
    assert StrListField(m, "exclude") == Ok(f.excludes) by {
      StrListDump(f.excludes);
      assert m["exclude"] == List(DumpStrList(f.excludes));
    }
    assert StrField(m, "content_extractor", Some(DefaultExtractor)) == Ok(f.contentExtractor) by {
      assert m["content_extractor"] == Str(f.contentExtractor);
    }
    assert DownloaderField(m) == Ok(f.downloader) by {
      assert Field(m, "downloader") == Some(Str(f.downloader.Name()));
      match f.downloader
      case Aria2 =>
      case QBittorrent =>
    }
  }

  lemma ParseDumpFeed(f: FeedConfig)
    requires FeedValid(f)
    ensures ParseFeed(DumpFeed(f)) == Ok(f)
  {
    DumpFeedFields(f);
    assert AssembleFeed(Ok(f.name), Ok(f.url), Ok(f.includes), Ok(f.excludes), Ok(f.downloader),
                        Ok(f.contentExtractor)) == Ok(f);
  }

  lemma {:induction false} ParseDumpFeeds(feeds: seq<FeedConfig>)
    requires forall i :: 0 <= i < |feeds| ==> FeedValid(feeds[i])
    ensures ParseFeedList(DumpFeeds(feeds)) == Ok(feeds)
  {
    if feeds != [] {
      ParseDumpFeed(feeds[0]);
      ParseDumpFeeds(feeds[1..]);
      assert DumpFeeds(feeds)[1..] == DumpFeeds(feeds[1..]);
      assert [feeds[0]] + feeds[1..] == feeds;
    }
  }

  lemma ParseDumpOptStr(m: map<string, Value>, key: string, o: Option<string>, default: Option<string>)
    requires key in m && m[key] == DumpOptStr(o)
    ensures OptStrField(m, key, default) == Ok(o)
  {
  }

  lemma ParseDumpOptUrl(m: map<string, Value>, key: string, o: Option<string>, default: Option<string>)
    requires key in m && m[key] == DumpOptStr(o)
    requires default.Some? ==> IsHttpUrl(default.value)
    requires o.Some? ==> IsHttpUrl(o.value)
    ensures OptUrlField(m, key, default) == Ok(o)
  {
  }

  /** Each field of a dumped aria2 section parses back to its value. */
  lemma DumpAria2Fields(c: Aria2Config)
    requires c.rpc.Some? ==> IsHttpUrl(c.rpc.value)
    ensures OptUrlField(DumpAria2(Some(c)).fields, "rpc", Some(DefaultAria2Rpc)) == Ok(c.rpc)
    ensures OptStrField(DumpAria2(Some(c)).fields, "secret", None) == Ok(c.secret)
    ensures OptStrField(DumpAria2(Some(c)).fields, "dir", None) == Ok(c.dir)
  {
    var m := DumpAria2(Some(c)).fields;
    DefaultUrlsValid();
    ParseDumpOptUrl(m, "rpc", c.rpc, Some(DefaultAria2Rpc));
    ParseDumpOptStr(m, "secret", c.secret, None);
    ParseDumpOptStr(m, "dir", c.dir, None);
  }

  lemma ParseDumpAria2(a: Option<Aria2Config>)
    requires a.Some? && a.value.rpc.Some? ==> IsHttpUrl(a.value.rpc.value)
    ensures ParseAria2(Some(DumpAria2(a))) == Ok(a)
  {
    if a.Some? {
      DumpAria2Fields(a.value);
    }
  }

  /** Each field of a dumped qbittorrent section parses back to its value. */
  lemma DumpQBittorrentFields(c: QBittorrentConfig)
    requires c.host.Some? ==> IsHttpUrl(c.host.value)
    ensures OptUrlField(DumpQBittorrent(Some(c)).fields, "host", Some(DefaultQBittorrentHost)) == Ok(c.host)
    ensures OptStrField(DumpQBittorrent(Some(c)).fields, "username", None) == Ok(c.username)
    ensures OptStrField(DumpQBittorrent(Some(c)).fields, "password", None) == Ok(c.password)
  {
    var m := DumpQBittorrent(Some(c)).fields;
    DefaultUrlsValid();
    ParseDumpOptUrl(m, "host", c.host, Some(DefaultQBittorrentHost));
    ParseDumpOptStr(m, "username", c.username, None);
    ParseDumpOptStr(m, "password", c.password, None);
  }

  lemma ParseDumpQBittorrent(q: Option<QBittorrentConfig>)
    requires q.Some? && q.value.host.Some? ==> IsHttpUrl(q.value.host.value)
    ensures ParseQBittorrent(Some(DumpQBittorrent(q))) == Ok(q)
  {
    if q.Some? {
      DumpQBittorrentFields(q.value);
    }
  }

  lemma ParseDumpWeb(w: WebConfig)
    requires ValidWeb(w)
    ensures ParseWeb(Some(DumpWeb(w))) == Ok(w)
  {
  }

  lemma ParseDumpLog(l: LogConfig)
    requires l.level in LogLevels
    ensures ParseLog(Some(DumpLog(l))) == Ok(l)
  {
    ValidateUpperLevel(l.level);
    ParseLogLevelField(l.level);
  }

  /** A log section holding one level that validates to itself parses to
      that level. */
  lemma ParseLogLevelField(level: string)
    requires ValidateLogLevel(Str(level)) == Ok(level)
    ensures ParseLog(Some(Obj(map["level" := Str(level)]))) == Ok(LogConfig(level))
  {
    var f := map["level" := Str(level)];
    assert "level" in f && f["level"] == Str(level);
  }

  /** An allowed level validates to itself. */
  lemma ValidateUpperLevel(level: string)
    requires level in LogLevels
    ensures ValidateLogLevel(Str(level)) == Ok(level)
  {
    LogLevelsUpper(level);
  }

  /** Each section of the dumped dictionary is the dump of that section. */
  lemma DumpFieldsSections(c: Config)
    ensures Field(DumpFields(c), "log") == Some(DumpLog(c.log))
    ensures Field(DumpFields(c), "web") == Some(DumpWeb(c.web))
    ensures Field(DumpFields(c), "aria2") == Some(DumpAria2(c.aria2))
    ensures Field(DumpFields(c), "qbittorrent") == Some(DumpQBittorrent(c.qbittorrent))
    ensures Field(DumpFields(c), "feeds") == Some(List(DumpFeeds(c.feeds)))
  {
  }

  /** Every section parses back to what was dumped. */
  lemma ParseSectionsDump(c: Config)
    requires c.log.level in LogLevels && ValidWeb(c.web) && SectionUrlsValid(c)
    requires forall i :: 0 <= i < |c.feeds| ==> FeedValid(c.feeds[i])
    ensures ParseSections(DumpFields(c)) == Ok(c)
  {
    DumpFieldsSections(c);
    ParseDumpLog(c.log);
    ParseDumpWeb(c.web);
    ParseDumpAria2(c.aria2);
    ParseDumpQBittorrent(c.qbittorrent);
    ParseDumpFeeds(c.feeds);
    assert Assemble(Ok(c.log), Ok(c.web), Ok(c.aria2), Ok(c.qbittorrent), Ok(c.feeds)) == Ok(c);
  }

  /** `Config.parse_obj(cfg.dict())` gives back every well-formed configuration:
      this is what lets `update` roll back by re-parsing its snapshot. */
  lemma ParseDump(c: Config)
    requires WellFormed(c)
    ensures Parse(Dump(c)) == Ok(c)
  {
    ParseSectionsDump(c);
    assert ValidateConfig(c) == Ok(c);
  }

  // ---------------------------------------------------------------------
  // DownloadRecord
  // ---------------------------------------------------------------------

  /** A row of the downloads table, without its id. Timestamps are integers. */
  datatype DownloadRecord = DownloadRecord(
    title: string,
    url: string,
    downloadUrl: string,
    feedName: string,
    feedUrl: string,
    publishedTime: int,
    downloadTime: int,
    downloader: string,
    status: int,
    mode: int)

  /** DownloadRecord's field constraints: a non-empty title, http(s) `url`
      and `feed_url`, `downloader` one of the two literals, `status` and
      `mode` 0 or 1. */
  predicate ValidRecord(r: DownloadRecord)
  {
    && |r.title| >= 1
    && IsHttpUrl(r.url)
    && IsHttpUrl(r.feedUrl)
    && DownloaderNamed(r.downloader).Some?
    && (r.status == 0 || r.status == 1)
    && (r.mode == 0 || r.mode == 1)
  }
}
