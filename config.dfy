/** config.py: `_deep_merge`, the configuration file's load-or-create step,
    and ConfigManager, which holds the current Config, the version counter
    the watcher bumps on every reload, and the feed lookups. The YAML file is
    modelled by its decoded contents; whether a write succeeds is an input. */
module ConfigStore {
  import opened Common
  import opened Models

  // ---------------------------------------------------------------------
  // _deep_merge
  // ---------------------------------------------------------------------

  /** What `_deep_merge(default, user)` returns: every key of either input;
      a user value wins, except that two dictionaries are merged recursively. */
  function Merged(d: map<string, Value>, u: map<string, Value>): (r: map<string, Value>)
    ensures r.Keys == d.Keys + u.Keys
    decreases Obj(u)
  {
    map k | k in d.Keys + u.Keys ::
      if k in u then
        (if u[k].Obj? && k in d && d[k].Obj? then Obj(Merged(d[k].fields, u[k].fields)) else u[k])
      else d[k]
  }

  /** The entries of `u` whose keys lie in `keys`. */
  function Restrict(u: map<string, Value>, keys: set<string>): (r: map<string, Value>)
    ensures r.Keys == u.Keys * keys
    ensures forall k :: k in r ==> r[k] == u[k]
  {
    map k | k in u.Keys * keys :: u[k]
  }

  /** `_deep_merge`: a copy of `default`, then one pass over the user's keys.
      Neither input is changed (they are values). */
  method DeepMerge(d: map<string, Value>, u: map<string, Value>) returns (r: map<string, Value>)
    ensures r == Merged(d, u)
    decreases Obj(u)
  {
    r := d;
    var todo := u.Keys;
    while todo != {}
      invariant todo <= u.Keys
      invariant r == Merged(d, Restrict(u, u.Keys - todo))
      decreases todo
    {
      var k :| k in todo;
      ghost var done := u.Keys - todo;
      assert k !in done;
      if u[k].Obj? && k in r && r[k].Obj? {
        assert k in d && r[k] == d[k];
        var sub := DeepMerge(r[k].fields, u[k].fields);
        r := r[k := Obj(sub)];
      } else {
        assert k in r ==> k in d && r[k] == d[k];
        r := r[k := u[k]];
      }
      todo := todo - {k};
      assert u.Keys - todo == done + {k};
      MergedStep(d, u, done, k);
    }
    assert Restrict(u, u.Keys - todo) == u;
  }

  /** Adding one user key to the merge changes exactly that key. */
  lemma MergedStep(d: map<string, Value>, u: map<string, Value>, done: set<string>, k: string)
    requires k in u && k !in done
    ensures Merged(d, Restrict(u, done + {k}))
            == Merged(d, Restrict(u, done))[k := Merged(d, Restrict(u, done + {k}))[k]]
  {
    var a, b := Merged(d, Restrict(u, done + {k})), Merged(d, Restrict(u, done));
    assert a.Keys == b.Keys + {k};
    forall j | j in a && j != k ensures a[j] == b[j] {
    }
  }

  /** Merging an empty user dictionary gives the default back. */
  lemma MergeEmpty(d: map<string, Value>)
    ensures Merged(d, map[]) == d
  {
  }

  /** A dictionary merged onto itself is unchanged. */
  lemma {:induction false} MergeSelf(d: map<string, Value>)
    ensures Merged(d, d) == d
    decreases Obj(d)
  {
    var r := Merged(d, d);
    forall k | k in d ensures r[k] == d[k] {
      if d[k].Obj? {
        MergeSelf(d[k].fields);
      }
    }
  }

  /** Merging the same user dictionary again changes nothing. */
  lemma {:induction false} MergeIdempotent(d: map<string, Value>, u: map<string, Value>)
    ensures Merged(Merged(d, u), u) == Merged(d, u)
    decreases Obj(u)
  {
    var m := Merged(d, u);
    var r := Merged(m, u);
    forall k | k in r ensures r[k] == m[k] {
      if k in u && u[k].Obj? && m[k].Obj? {
        if k in d && d[k].Obj? {
          MergeIdempotent(d[k].fields, u[k].fields);
        } else {
          MergeSelf(u[k].fields);
        }
      }
    }
  }

  /** Merging the defaults under a merge result changes nothing: a file the
      program wrote itself is not rewritten on the next load. */
  lemma {:induction false} MergeStable(d: map<string, Value>, u: map<string, Value>)
    ensures Merged(d, Merged(d, u)) == Merged(d, u)
    decreases Obj(u)
  {
    var m := Merged(d, u);
    var r := Merged(d, m);
    forall k | k in r ensures r[k] == m[k] {
      if k in d && d[k].Obj? && m[k].Obj? {
        if k in u {
          if u[k].Obj? {
            MergeStable(d[k].fields, u[k].fields);
          }
        } else {
          MergeSelf(d[k].fields);
        }
      }
    }
  }

  // ---------------------------------------------------------------------
  // Feed lookups
  // ---------------------------------------------------------------------

  /** The position of the first feed named exactly `name`. */
  function FeedIndex(feeds: seq<FeedConfig>, name: string): (r: Option<nat>)
    ensures r.Some? ==> r.value < |feeds| && feeds[r.value].name == name
    ensures r.Some? ==> forall j :: 0 <= j < r.value ==> feeds[j].name != name
    ensures r.None? <==> forall j :: 0 <= j < |feeds| ==> feeds[j].name != name
  {
    if feeds == [] then None
    else if feeds[0].name == name then Some(0)
    else
      match FeedIndex(feeds[1..], name)
      case None => None
      case Some(k) => Some(k + 1)
  }

  /** ConfigManager.get_feed_by_name. */
  function FeedByName(feeds: seq<FeedConfig>, name: string): (r: Option<FeedConfig>)
    ensures r.Some? <==> exists j :: 0 <= j < |feeds| && feeds[j].name == name
    ensures r.Some? ==> r.value.name == name && r.value in feeds
  {
    match FeedIndex(feeds, name)
    case Some(k) => Some(feeds[k])
    case None => None
  }

  /** ConfigManager.get_feed_patterns: the first such feed's include and
      exclude lists, `([], [])` for an unknown name. */
  function FeedPatterns(feeds: seq<FeedConfig>, name: string): (r: (seq<string>, seq<string>))
    ensures FeedByName(feeds, name).None? ==> r == ([], [])
    ensures FeedByName(feeds, name).Some? ==>
              r == (FeedByName(feeds, name).value.includes, FeedByName(feeds, name).value.excludes)
  {
    match FeedIndex(feeds, name)
    case Some(k) => (feeds[k].includes, feeds[k].excludes)
    case None => ([], [])
  }

  /** ConfigManager.get_feed_downloader: aria2 for an unknown name. */
  function FeedDownloader(feeds: seq<FeedConfig>, name: string): (r: Downloader)
    ensures FeedByName(feeds, name).None? ==> r == Aria2
    ensures FeedByName(feeds, name).Some? ==> r == FeedByName(feeds, name).value.downloader
  {
    match FeedIndex(feeds, name)
    case Some(k) => feeds[k].downloader
    case None => Aria2
  }

  /** The lookups take the first of several feeds with the same name. */
  lemma FirstFeedWins(feeds: seq<FeedConfig>, name: string, i: nat)
    requires i < |feeds| && feeds[i].name == name
    requires forall j :: 0 <= j < i ==> feeds[j].name != name
    ensures FeedByName(feeds, name) == Some(feeds[i])
    ensures FeedPatterns(feeds, name) == (feeds[i].includes, feeds[i].excludes)
    ensures FeedDownloader(feeds, name) == feeds[i].downloader
  {
    var k := FeedIndex(feeds, name);
    assert k.Some?;
    assert k.value == i;
  }

  // ---------------------------------------------------------------------
  // The configuration file
  // ---------------------------------------------------------------------

  /** The file at the configuration path: missing, holding a decoded YAML
      document, or not decodable. */
  datatype ConfigFile = Absent | Holds(data: Value) | Malformed

  datatype LoadError =
    | YamlError                      // yaml.safe_load raised
    | NotAMapping                    // the document is not a dictionary
    | WriteFailed                    // writing the merged document raised
    | Invalid(error: ConfigError)    // Config.parse_obj raised

  /** What `_load_or_create` returns, and the file afterwards. */
  datatype LoadOutcome = LoadOutcome(result: Result<Config, LoadError>, file: ConfigFile)

  /** The defaults every loaded document is merged under. */
  function Defaults(): map<string, Value>
  {
    DumpFields(DefaultConfig)
  }

  /** ConfigManager._load_or_create: a missing file is created with the
      defaults; an existing one is merged under the defaults, rewritten when
      the merge added something, then parsed. */
  function LoadOrCreate(file: ConfigFile, writeOk: bool): (o: LoadOutcome)
    ensures o.result.Ok? ==> WellFormed(o.result.value)
  {
    match file
    case Absent =>
      DefaultConfigWellFormed();
      if writeOk then LoadOutcome(Ok(DefaultConfig), Holds(Dump(DefaultConfig)))
      else LoadOutcome(Err(WriteFailed), Absent)
    case Malformed => LoadOutcome(Err(YamlError), Malformed)
    case Holds(v) =>
      var data := if Truthy(v) then v else Obj(map[]);
      if !data.Obj? then LoadOutcome(Err(NotAMapping), file)
      else
        var merged := Obj(Merged(Defaults(), data.fields));
        if merged != data && !writeOk then LoadOutcome(Err(WriteFailed), file)
        else
          LoadOutcome(AsLoadResult(Parse(merged)), if merged != data then Holds(merged) else file)
  }

  /** A parse error raised by `_load_or_create`. */
  function AsLoadResult(p: Result<Config, ConfigError>): (r: Result<Config, LoadError>)
    ensures r.Ok? <==> p.Ok?
    ensures r.Ok? ==> r.value == p.value
  {
    match p
    case Ok(c) => Ok(c)
    case Err(e) => Err(Invalid(e))
  }

  /** A missing file is created holding the default configuration. */
  lemma LoadAbsent()
    ensures LoadOrCreate(Absent, true) == LoadOutcome(Ok(DefaultConfig), Holds(Dump(DefaultConfig)))
  {
  }

  /** A file that holds a merge result is read without being rewritten:
      merging it under the defaults again gives it back. */
  lemma LoadMerged(u: map<string, Value>, writeOk: bool)
    ensures var m := Obj(Merged(Defaults(), u));
            LoadOrCreate(Holds(m), writeOk) == LoadOutcome(AsLoadResult(Parse(m)), Holds(m))
  {
    MergeStable(Defaults(), u);
    assert "log" in Merged(Defaults(), u);
  }

  /** An existing file that loads leaves the merged document behind. */
  lemma LoadHolds(v: Value, writeOk: bool)
    requires LoadOrCreate(Holds(v), writeOk).result.Ok?
    ensures var data := if Truthy(v) then v else Obj(map[]);
            && data.Obj?
            && var m := Obj(Merged(Defaults(), data.fields));
               LoadOrCreate(Holds(v), writeOk) == LoadOutcome(AsLoadResult(Parse(m)), Holds(m))
  {
  }

  /** Loading what a load wrote gives the same outcome and writes nothing. */
  lemma LoadTwice(file: ConfigFile, writeOk: bool, writeOk2: bool)
    requires LoadOrCreate(file, writeOk).result.Ok?
    ensures LoadOrCreate(LoadOrCreate(file, writeOk).file, writeOk2) == LoadOrCreate(file, writeOk)
  {
    match file
    case Absent =>
      assert Dump(DefaultConfig) == Obj(Merged(Defaults(), map[])) by { MergeEmpty(Defaults()); }
      LoadMerged(map[], writeOk2);
      ParseDump(DefaultConfig) by { DefaultConfigWellFormed(); }
    case Holds(v) =>
      LoadHolds(v, writeOk);
      var data := if Truthy(v) then v else Obj(map[]);
      LoadMerged(data.fields, writeOk2);
  }

  /** A file holding a well-formed configuration's dump loads back as that
      configuration, and is not rewritten. */
  lemma DumpReloads(c: Config, writeOk: bool)
    requires WellFormed(c)
    ensures LoadOrCreate(Holds(Dump(c)), writeOk) == LoadOutcome(Ok(c), Holds(Dump(c)))
  {
    var data := Dump(c);
    assert Truthy(data) by { assert "log" in data.fields; }
    assert Obj(Merged(Defaults(), data.fields)) == data by { DumpCoversDefaults(c); }
    ParseDump(c);
  }

  /** A merge whose user dictionary has every default key and no nested
      dictionary gives the user dictionary back. */
  lemma MergeFlat(d: map<string, Value>, u: map<string, Value>)
    requires d.Keys <= u.Keys
    requires forall k :: k in u ==> !u[k].Obj?
    ensures Merged(d, u) == u
  {
  }

  /** The defaults merged under a configuration's dump add nothing. */
  lemma DumpCoversDefaults(c: Config)
    ensures Merged(Defaults(), DumpFields(c)) == DumpFields(c)
  {
    var d, u := Defaults(), DumpFields(c);
    MergeFlat(d["log"].fields, u["log"].fields);
    MergeFlat(d["web"].fields, u["web"].fields);
    var m := Merged(d, u);
    assert m.Keys == u.Keys;
    assert forall k :: k in u ==> m[k] == u[k];
  }

  // ---------------------------------------------------------------------
  // ConfigManager.update's write
  // ---------------------------------------------------------------------

  /** Whether `yaml.safe_dump` can represent `Config.dict()`. That dump keeps
      pydantic's URL objects (a feed's `url`, the aria2 `rpc`, the
      qBittorrent `host`), and PyYAML's safe representer has none for them:
      it raises RepresenterError on the first one it meets. */
  predicate SafeDumpable(c: Config)
  {
    && c.feeds == []
    && (c.aria2.None? || c.aria2.value.rpc.None?)
    && (c.qbittorrent.None? || c.qbittorrent.value.host.None?)
  }

  /** The file once `open("w")` has truncated it and the dump raised before
      writing anything: an empty YAML document, which loads as None. */
  const Emptied: ConfigFile := Holds(Null)

  /** The held configuration and the file after an update. */
  datatype UpdateOutcome = UpdateOutcome(config: Config, file: ConfigFile)

  /** ConfigManager.update as written (config.py:94-104): the merge is
      validated, the file is opened for writing (`writeOk`: the open and the
      writes succeed) and `yaml.safe_dump(self._config.dict(), ...)` runs.
      A validation error or a failed open leave the file alone; a dump that
      raises leaves it empty. On every exception the previous configuration
      is restored. */
  function UpdateAsWritten(c: Config, file: ConfigFile, newData: map<string, Value>, writeOk: bool): UpdateOutcome
  {
    var parsed := Parse(Obj(Merged(DumpFields(c), newData)));
    if parsed.Err? || !writeOk then UpdateOutcome(c, file)
    else if SafeDumpable(parsed.value) then UpdateOutcome(parsed.value, Holds(Dump(parsed.value)))
    else UpdateOutcome(c, Emptied)
  }

  /** ConfigManager.update dumping in JSON mode (`model_dump(mode="json")`),
      where every URL is already a plain string, so the dump cannot raise:
      only validation and the file system can stop the update. */
  function UpdateJsonDump(c: Config, file: ConfigFile, newData: map<string, Value>, writeOk: bool): UpdateOutcome
  {
    var parsed := Parse(Obj(Merged(DumpFields(c), newData)));
    if parsed.Ok? && writeOk then UpdateOutcome(parsed.value, Holds(Dump(parsed.value)))
    else UpdateOutcome(c, file)
  }

  /** As written, an update whose merged configuration has a feed never
      commits, and once the file was opened it is left empty. */
  lemma UpdateWithFeedNeverCommits(c: Config, file: ConfigFile, newData: map<string, Value>, writeOk: bool)
    requires Parse(Obj(Merged(DumpFields(c), newData))).Ok?
    requires Parse(Obj(Merged(DumpFields(c), newData))).value.feeds != []
    ensures UpdateAsWritten(c, file, newData, writeOk).config == c
    ensures UpdateAsWritten(c, file, newData, writeOk).file == if writeOk then Emptied else file
  {
  }

  /** As written, even an empty update (`update({})`) of a valid
      configuration with a feed fails, and empties the opened file. */
  lemma EmptyUpdateWithFeedEmptiesFile(c: Config, file: ConfigFile)
    requires WellFormed(c) && c.feeds != []
    ensures UpdateAsWritten(c, file, map[], true) == UpdateOutcome(c, Emptied)
  {
    MergeEmpty(DumpFields(c));
    ParseDump(c);
  }

  /** As written, the only configurations an update can put in place have
      no feed, no aria2 RPC address and no qBittorrent host. */
  lemma UpdateAsWrittenCommitsOnlyWithoutUrls(c: Config, file: ConfigFile, newData: map<string, Value>, writeOk: bool)
    ensures UpdateAsWritten(c, file, newData, writeOk).config != c
            ==> SafeDumpable(UpdateAsWritten(c, file, newData, writeOk).config)
  {
  }

  /** The emptied file loads as the default configuration, which has no
      feed, and is rewritten with the defaults; if that write fails the load
      raises. */
  lemma EmptiedFileLoadsDefaults()
    ensures LoadOrCreate(Emptied, true) == LoadOutcome(Ok(DefaultConfig), Holds(Dump(DefaultConfig)))
    ensures LoadOrCreate(Emptied, false).result == Err(WriteFailed)
    ensures DefaultConfig.feeds == []
  {
    MergeEmpty(Defaults());
    DefaultConfigWellFormed();
    ParseDump(DefaultConfig);
  }

  /** As written, a failed update of a configuration with feeds makes the
      next load of the file (the watcher's, or the next start's) drop every
      feed. */
  lemma FailedUpdateDropsFeeds(c: Config, file: ConfigFile, newData: map<string, Value>, writeOk: bool, writeOk2: bool)
    requires Parse(Obj(Merged(DumpFields(c), newData))).Ok?
    requires Parse(Obj(Merged(DumpFields(c), newData))).value.feeds != []
    requires writeOk
    ensures var o := LoadOrCreate(UpdateAsWritten(c, file, newData, writeOk).file, writeOk2);
            o.result.Ok? ==> o.result.value.feeds == []
  {
    UpdateWithFeedNeverCommits(c, file, newData, writeOk);
    EmptiedFileLoadsDefaults();
  }

  /** With a JSON-mode dump, an update commits exactly when the merge
      validates and the file can be written: the configuration becomes the
      validated merge, feeds included, and the file written loads back as
      it. Otherwise nothing changes. */
  lemma UpdateJsonDumpCommits(c: Config, file: ConfigFile, newData: map<string, Value>, writeOk: bool, writeOk2: bool)
    ensures var parsed := Parse(Obj(Merged(DumpFields(c), newData)));
            var r := UpdateJsonDump(c, file, newData, writeOk);
            && (parsed.Ok? && writeOk ==>
                  r.config == parsed.value && LoadOrCreate(r.file, writeOk2) == LoadOutcome(Ok(r.config), r.file))
            && (parsed.Err? || !writeOk ==> r == UpdateOutcome(c, file))
  {
    var parsed := Parse(Obj(Merged(DumpFields(c), newData)));
    if parsed.Ok? && writeOk {
      DumpReloads(parsed.value, writeOk2);
    }
  }

  /** The two writes differ only where safe_dump raises: for an update that
      puts no URL in place they agree. */
  lemma UpdateJsonDumpAgrees(c: Config, file: ConfigFile, newData: map<string, Value>, writeOk: bool)
    requires var parsed := Parse(Obj(Merged(DumpFields(c), newData)));
             parsed.Ok? ==> SafeDumpable(parsed.value)
    ensures UpdateJsonDump(c, file, newData, writeOk) == UpdateAsWritten(c, file, newData, writeOk)
  {
  }

  // ---------------------------------------------------------------------
  // ConfigManager
  // ---------------------------------------------------------------------

  class ConfigManager {
    var config: Config
    var version: nat
    var lastMtime: int
    var file: ConfigFile
    var watching: bool

    /** The held configuration always passed validation. */
    predicate Valid()
      reads this
    {
      WellFormed(config)
    }

    /** The manager once `_load_or_create` has succeeded: version 0, the
        modification time read after loading, no watcher yet. */
    constructor (c: Config, f: ConfigFile, mtime: int)
      requires WellFormed(c)
      ensures Valid()
      ensures config == c && file == f && version == 0 && lastMtime == mtime && !watching
    {
      config := c;
      file := f;
      version := 0;
      lastMtime := mtime;
      watching := false;
    }

    /** ConfigManager.initialize: the watcher runs when forced from the
        command line or when the configuration enables the web mode. */
    method Initialize(cliForceWeb: bool)
      modifies this
      ensures watching == (cliForceWeb || config.web.enabled)
      ensures config == old(config) && version == old(version) && lastMtime == old(lastMtime) && file == old(file)
    {
      watching := cliForceWeb || config.web.enabled;
    }

    /** ConfigManager.update as written: the validated deep merge of the
        current configuration with `newData`, dumped to the file with
        `yaml.safe_dump`; on any exception the previous configuration is
        restored from its dump, and nothing is raised. The version counter
        is never touched. */
    method Update(newData: map<string, Value>, writeOk: bool)
      requires Valid()
      modifies this
      ensures Valid()
      ensures version == old(version) && lastMtime == old(lastMtime) && watching == old(watching)
      ensures UpdateOutcome(config, file) == UpdateAsWritten(old(config), old(file), newData, writeOk)
    {
      var currentDump := Dump(config);
      var merged := DeepMerge(DumpFields(config), newData);
      var parsed := Parse(Obj(merged));
      if parsed.Ok? {
        config := parsed.value;
        if writeOk {
          if SafeDumpable(config) {
            file := Holds(Dump(config));
            return;
          }
          file := Emptied;
        }
      }
      ParseDump(old(config));
      config := Parse(currentDump).value;
    }

    /** ConfigManager.update with the configuration dumped in JSON mode, so
        that the dump holds plain strings only. */
    method UpdateJson(newData: map<string, Value>, writeOk: bool)
      requires Valid()
      modifies this
      ensures Valid()
      ensures version == old(version) && lastMtime == old(lastMtime) && watching == old(watching)
      ensures UpdateOutcome(config, file) == UpdateJsonDump(old(config), old(file), newData, writeOk)
    {
      var currentDump := Dump(config);
      var merged := DeepMerge(DumpFields(config), newData);
      var parsed := Parse(Obj(merged));
      if parsed.Ok? {
        config := parsed.value;
        if writeOk {
          file := Holds(Dump(config));
          return;
        }
      }
      ParseDump(old(config));
      config := Parse(currentDump).value;
    }

    /** One pass of the watcher loop, given the file's modification time
        (None when `stat` raises FileNotFoundError, which is ignored) and
        its current contents, which another process may have rewritten. A
        changed time reloads the file; an unchanged or missing one leaves
        the manager as it was. */
    method WatchStep(stat: Option<int>, current: ConfigFile, writeOk: bool)
      requires Valid() && watching
      modifies this
      ensures Valid()
      ensures stat.None? || stat.value == old(lastMtime) ==> unchanged(this)
      ensures stat.Some? && stat.value != old(lastMtime) ==> Reloaded(old(config), old(version), old(lastMtime), current, stat.value, writeOk)
    {
      if stat.None? || stat.value == lastMtime {
        return;
      }
      Reload(stat.value, current, writeOk);
    }

    /** The manager after the watcher reloaded the file `current` seen at `mtime`:
        success replaces the configuration, records the time and bumps the
        version, all together; any exception ends the watcher thread and
        leaves all three unchanged. The file is what the load left. */
    ghost predicate Reloaded(oldConfig: Config, oldVersion: nat, oldMtime: int, current: ConfigFile, mtime: int, writeOk: bool)
      reads this
    {
      var o := LoadOrCreate(current, writeOk);
      && file == o.file
      && (o.result.Ok? ==> config == o.result.value && lastMtime == mtime && version == oldVersion + 1 && watching)
      && (o.result.Err? ==> config == oldConfig && lastMtime == oldMtime && version == oldVersion && !watching)
    }

    /** The reload inside the watcher loop, once the time has changed. */
    method Reload(mtime: int, current: ConfigFile, writeOk: bool)
      requires Valid() && watching
      modifies this
      ensures Valid()
      ensures Reloaded(old(config), old(version), old(lastMtime), current, mtime, writeOk)
    {
      var o := LoadOrCreate(current, writeOk);
      file := o.file;
      if o.result.Ok? {
        config := o.result.value;
        lastMtime := mtime;
        version := version + 1;
      } else {
        watching := false;
      }
    }
  }

  /** `ConfigManager()`: load or create the file, then take its modification
      time; None when `_load_or_create` raises. */
  method NewConfigManager(f: ConfigFile, writeOk: bool, mtime: int) returns (r: Option<ConfigManager>)
    ensures LoadOrCreate(f, writeOk).result.Err? <==> r.None?
    ensures r.Some? ==> fresh(r.value) && r.value.Valid() && r.value.version == 0
                        && r.value.config == LoadOrCreate(f, writeOk).result.value
                        && r.value.file == LoadOrCreate(f, writeOk).file
  {
    var o := LoadOrCreate(f, writeOk);
    if o.result.Err? {
      return None;
    }
    var m := new ConfigManager(o.result.value, o.file, mtime);
    return Some(m);
  }
}
