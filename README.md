# rss_downloader, modelled in Dafny

rss_downloader reads a YAML configuration of RSS feeds. It fetches each feed
and turns every entry into a parsed item with one of four extractors
(mikan, dmhy, nyaa, default). It keeps the items whose title passes the
feed's include and exclude rules. Each new item goes to aria2 or qBittorrent,
and every attempt is recorded in an SQLite `downloads` table. While a feed
is processed, a download URL already recorded as a success is never sent
again. A small web application lists the records and lets any stored record
be sent again, whether or not it succeeded before.

This project models that core:

| file | module | models |
|---|---|---|
| common.dfy | Common | Option/Result; JSON-like `Value` (YAML and request bodies); Python truthiness; ASCII `strip`/`lower`/`upper`; `startswith`/`endswith`/`in` on strings |
| models.dfy | Models | the configuration datatypes and the pydantic validators; `Config.parse_obj` (`Parse`) and `.dict()` (`Dump`), with the round trip `Parse(Dump(c)) == Ok(c)`; `DownloadRecord` validity |
| entries.dfy | Entries | the `pre_process` validators of MikanEntry, DmhyEntry, NyaaEntry and DefaultEntry; ParsedItem validation; ENTRY_PARSER_MAP |
| config.dfy | ConfigStore | `_deep_merge` as a function and as a method with a loop; the feed lookups; `_load_or_create`; the ConfigManager class (update, initialize, one watcher pass) |
| parser.dfy | FeedParser | `match_filters`; the RSSParser class with its pattern cache keyed by (feed name, version); the loop of `parse_feed` |
| database.dfy | Ledger | the Database class: the table as a sequence of rows with autoincrement ids; insert, is_downloaded, search by id, and the filtered, sorted, paged search |
| downloaders.dfy | Downloaders | the aria2 JSON-RPC envelope and its error mapping; the QBittorrentClient class (login, add, version) |
| main.dfy | Orchestrator | the RSSDownloader class: client setup, `_send_to_downloader`, `redownload`, `process_feed` (a loop over the matched items), `run` |
| web.dfy | Web | the `/` handler (query validation, date-range normalisation, paging) and the `/redownload` route |

Everything outside the process is an input:
- the fetched feed, the HTTP replies of aria2 and qBittorrent, and the contents of the configuration file;
- the clock, the rows and AUTOINCREMENT sequence an existing database file holds, whether SQLite accepts an insert, and whether a file write succeeds.

Times are integers. In web.dfy they are microseconds, so that a day has a
fixed length.

Where the documentation of the system and the code disagree, the model follows the code:
- There is no Transmission client and there are no webhooks.
- `run` catches an exception once, around the whole loop, so a feed that raises ends the run.
- The `/redownload` route never answers 200. `redownload` returns None, so `if success` always takes the failure branch.

## Model

| member | source | states |
|---|---|---|
| Common.TrimLeft | src/rss_downloader/downloaders.py:113 | a suffix of the text that does not start with white space, and only white space was removed before it |
| Common.TrimRight | src/rss_downloader/downloaders.py:113 | a prefix of the text that does not end with white space, and only white space was removed after it |
| Models.StandardizeLevelCase | src/rss_downloader/models.py:15-21 | a string is upper-cased; any other value passes through unchanged |
| Models.ValidateLogLevel | src/rss_downloader/models.py:12-21 | accepted iff the value is a string whose upper-case form is one of the six levels, and the accepted level is that upper-case form |
| Models.UpperOfLower | src/rss_downloader/models.py:17-21 | upper-casing after lower-casing equals upper-casing |
| Models.LogLevelAnyCase | src/rss_downloader/models.py:12-21 | a level accepted in some case is accepted, with the same result, in lower case |
| Models.LogLevelRejectsNonString | src/rss_downloader/models.py:13-21 | a non-string level is rejected |
| Models.LogLevelsUpper | src/rss_downloader/models.py:13 | every allowed level is already upper case |
| Models.Name | src/rss_downloader/models.py:55 | a downloader's name is "aria2" or "qbittorrent" |
| Models.DownloaderNamed | src/rss_downloader/models.py:55 | only "aria2" and "qbittorrent" name a downloader, and the one found has that name |
| Models.DefaultUrlsValid | src/rss_downloader/models.py:31-40 | the default aria2 RPC URL and qBittorrent host are http URLs |
| Models.HostPrefix | src/rss_downloader/models.py:64-65 | the host is the longest prefix of its argument without a delimiter (`/`, `?`, `#`, `:`) |
| Models.HostPrefixUpTo | src/rss_downloader/models.py:64-65 | a host followed by a path gives back exactly that host |
| Models.FirstExtractorFor | src/rss_downloader/models.py:66-69 | the first table entry whose domains end the host, or None iff no entry matches |
| Models.DetectExtractor | src/rss_downloader/models.py:58-71 | an explicit extractor is kept; otherwise the result is "default" or a name from the domain table |
| Models.DetectExtractorFromHost | src/rss_downloader/models.py:58-71 | for "default" with a host, the first extractor whose domain ends the lower-cased host is chosen; it stays "default" iff none does |
| Models.DetectExtractorIdempotent | src/rss_downloader/models.py:58-71 | running the root validator twice gives the same extractor |
| Models.NameKeys | src/rss_downloader/models.py:106 | one key per feed, each the stripped, lower-cased name |
| Models.FirstDuplicateFrom | src/rss_downloader/models.py:104-110 | None iff the keys are distinct; otherwise the first position whose key appeared before |
| Models.CheckUniqueFeedNames | src/rss_downloader/models.py:100-110 | no error iff the names are distinct up to strip and case; the error names the first repeated feed |
| Models.CheckDownloaderConfigExists | src/rss_downloader/models.py:81-98 | no error iff every used downloader is configured; the aria2 error comes first, then the qBittorrent one |
| Models.DefaultConfigWellFormed | src/rss_downloader/models.py:112-114 | `Config.default()` passes every validator |
| Models.OptUrlField | src/rss_downloader/models.py:31-40 | an accepted URL field holds an http URL |
| Models.StrList | src/rss_downloader/models.py:53-54 | an accepted list of strings keeps its length |
| Models.ParseLog | src/rss_downloader/models.py:12-21 | an accepted log section has an allowed level |
| Models.ParseWeb | src/rss_downloader/models.py:24-28 | an accepted web section has a port in 0..65535 and a positive interval |
| Models.ParseAria2 | src/rss_downloader/models.py:31-35 | an accepted aria2 section's RPC URL is an http URL |
| Models.ParseQBittorrent | src/rss_downloader/models.py:37-41 | an accepted qBittorrent section's host is an http URL |
| Models.AssembleFeed | src/rss_downloader/models.py:50-71 | an assembled feed is valid: http URL, normalised extractor |
| Models.ParseFeed | src/rss_downloader/models.py:50-71 | an accepted feed is valid |
| Models.ParseFeedList | src/rss_downloader/models.py:79 | an accepted feed list keeps its length and every feed is valid |
| Models.ParseFeeds | src/rss_downloader/models.py:79 | every feed of an accepted `feeds` section is valid |
| Models.ValidateConfig | src/rss_downloader/models.py:81-110 | accepted iff the names are distinct and the downloaders configured; when names repeat, the duplicate-name error is the one reported |
| Models.ParseSections | src/rss_downloader/models.py:74-79 | every accepted section satisfies its own validators |
| Models.Parse | src/rss_downloader/models.py:74-110 | an accepted configuration is well formed |
| Models.StrListDump | src/rss_downloader/models.py:53-54 | dumping a string list and reading it back gives the list |
| Models.DumpFeedFields | src/rss_downloader/models.py:50-56 | each field read from a dumped feed is that feed's field |
| Models.ParseDumpFeed | src/rss_downloader/models.py:50-71 | a valid feed survives dump and parse unchanged |
| Models.ParseDumpFeeds | src/rss_downloader/models.py:79 | a list of valid feeds survives dump and parse unchanged |
| Models.ParseDumpOptStr | src/rss_downloader/models.py:33-34 | an optional string survives dump and parse |
| Models.ParseDumpOptUrl | src/rss_downloader/models.py:32 | an optional http URL survives dump and parse |
| Models.DumpAria2Fields | src/rss_downloader/models.py:31-34 | each field read from a dumped aria2 section is that section's field |
| Models.ParseDumpAria2 | src/rss_downloader/models.py:31-35 | an aria2 section survives dump and parse |
| Models.DumpQBittorrentFields | src/rss_downloader/models.py:37-40 | each field read from a dumped qBittorrent section is that section's field |
| Models.ParseDumpQBittorrent | src/rss_downloader/models.py:37-41 | a qBittorrent section survives dump and parse |
| Models.ParseDumpWeb | src/rss_downloader/models.py:24-28 | a valid web section survives dump and parse |
| Models.ParseDumpLog | src/rss_downloader/models.py:12-21 | an allowed log level survives dump and parse |
| Models.DumpFieldsSections | src/rss_downloader/models.py:74-79 | each section of a dumped configuration is the dump of that section |
| Models.ParseSectionsDump | src/rss_downloader/models.py:74-79 | sections that satisfy their validators survive dump and parse |
| Models.ParseDump | src/rss_downloader/models.py:74-110 | a well-formed configuration survives `.dict()` then `parse_obj` unchanged |
| Entries.FirstLink | src/rss_downloader/models.py:158-161 | the first link passing the test, or None iff no link passes |
| Entries.Validate | src/rss_downloader/models.py:137-141 | a ParsedItem is built iff title, http URL, download URL and time are all present, and it holds exactly those |
| Entries.ParserFor | src/rss_downloader/models.py:229-234 | "mikan", "dmhy" and "nyaa" select their models; any other name selects the default |
| Entries.Extract | src/rss_downloader/models.py:137-234 | every extracted item has an http URL |
| Entries.TorrentExtractorsAgree | src/rss_downloader/models.py:182-195 | Dmhy and Nyaa extract exactly what Mikan extracts |
| Entries.TorrentRules | src/rss_downloader/models.py:147-179 | the Mikan url is the id when it starts with "http", else the link; the title falls back to "No Title"; the time falls back to now; the download URL is a torrent link's href or the link |
| Entries.TorrentDownloadIsFirstTorrent | src/rss_downloader/models.py:156-165 | the download URL is the href of the first bittorrent link |
| Entries.DefaultDownloadIsFirstEnclosure | src/rss_downloader/models.py:207-212 | the default download URL is the href of the first enclosure link |
| Entries.DefaultFallbacks | src/rss_downloader/models.py:207-226 | without an enclosure the download URL is the link; without an id the url is the download URL |
| Entries.DefaultPassThrough | src/rss_downloader/models.py:203-205 | a value that is not a feed entry passes through the default validator unchanged |
| Entries.MikanAndDefaultAgreeWithoutLinks | src/rss_downloader/models.py:147-226 | with no links and an http id, the Mikan and default extractors agree |
| Entries.UnknownExtractorIsDefault | src/rss_downloader/models.py:229-234 | an unknown extractor name falls back to the default model |
| ConfigStore.Merged | src/rss_downloader/config.py:14-22 | the merge's keys are the defaults' keys plus the user's keys |
| ConfigStore.DeepMerge | src/rss_downloader/config.py:14-22 | the loop over the user's keys computes the recursive merge |
| ConfigStore.MergedStep | src/rss_downloader/config.py:17-21 | merging one more user key changes only that key of the result |
| ConfigStore.MergeEmpty | src/rss_downloader/config.py:14-22 | merging an empty user dictionary gives the defaults |
| ConfigStore.MergeSelf | src/rss_downloader/config.py:14-22 | merging a dictionary into itself gives it back |
| ConfigStore.MergeIdempotent | src/rss_downloader/config.py:14-22 | merging the same user data twice is merging it once |
| ConfigStore.MergeStable | src/rss_downloader/config.py:14-22 | a merge result merged again under the same defaults is unchanged, so a loaded file is not rewritten twice |
| ConfigStore.FeedIndex | src/rss_downloader/config.py:136-141 | the first position with that name, or None iff no feed has it |
| ConfigStore.FeedByName | src/rss_downloader/config.py:136-141 | found iff some feed has the name; the feed found is one of them |
| ConfigStore.FeedPatterns | src/rss_downloader/config.py:143-151 | the first such feed's include and exclude lists, or two empty lists |
| ConfigStore.FeedDownloader | src/rss_downloader/config.py:153-159 | the first such feed's downloader, or aria2 |
| ConfigStore.FirstFeedWins | src/rss_downloader/config.py:136-159 | with duplicate names, all three lookups answer from the first feed |
| ConfigStore.LoadOrCreate | src/rss_downloader/config.py:49-77 | a loaded configuration is well formed |
| ConfigStore.LoadAbsent | src/rss_downloader/config.py:67-77 | a missing file is created with the defaults, which are returned |
| ConfigStore.LoadMerged | src/rss_downloader/config.py:52-65 | a file holding a merge result is parsed without being rewritten |
| ConfigStore.LoadHolds | src/rss_downloader/config.py:52-65 | an existing file that loads is a mapping (an empty document counts as `{}`) and is left holding its merge with the defaults |
| ConfigStore.LoadTwice | src/rss_downloader/config.py:49-77 | loading what a successful load left gives the same outcome |
| ConfigStore.MergeFlat | src/rss_downloader/config.py:14-22 | defaults merged under a flat dictionary that has all their keys give that dictionary back |
| ConfigStore.DumpCoversDefaults | src/rss_downloader/config.py:14-22 | the defaults merged under a configuration's dump add nothing |
| ConfigStore.DumpReloads | src/rss_downloader/config.py:52-65 | a file holding a well-formed configuration's dump loads as that configuration and is not rewritten |
| ConfigStore.UpdateWithFeedNeverCommits | src/rss_downloader/config.py:94-104 | as written, an update whose merged configuration has a feed keeps the old configuration and, once the file was opened, leaves it empty |
| ConfigStore.EmptyUpdateWithFeedEmptiesFile | src/rss_downloader/config.py:94-104 | as written, an empty update of a valid configuration with a feed keeps the configuration and leaves the file empty |
| ConfigStore.UpdateAsWrittenCommitsOnlyWithoutUrls | src/rss_downloader/config.py:94-104 | as written, a configuration an update puts in place has no feed, no aria2 RPC address and no qBittorrent host |
| ConfigStore.EmptiedFileLoadsDefaults | src/rss_downloader/config.py:52-65 | an empty file loads as the default configuration, which has no feed, and is rewritten with it; if that write fails the load raises |
| ConfigStore.FailedUpdateDropsFeeds | src/rss_downloader/config.py:94-104 | as written, after a failed update of a configuration with feeds, a successful load of the file has no feed |
| ConfigStore.UpdateJsonDumpCommits | src/rss_downloader/config.py:94-104 | with a JSON-mode dump, an update whose merge validates and whose file opens commits the merge, and the file loads back as it; otherwise nothing changes |
| ConfigStore.UpdateJsonDumpAgrees | src/rss_downloader/config.py:94-104 | the JSON-mode update and the update as written agree whenever the validated merge holds no URL |
| ConfigStore.ConfigManager.constructor | src/rss_downloader/config.py:26-32 | version 0, the loaded configuration and file, the modification time, no watcher |
| ConfigStore.ConfigManager.Initialize | src/rss_downloader/config.py:106-110 | the watcher runs iff forced or web mode is enabled; nothing else changes |
| ConfigStore.ConfigManager.Update | src/rss_downloader/config.py:83-104 | as written: the configuration and file are those of `UpdateAsWritten` (commit only when the merge validates, the file opens and the dump holds no URL; a dump that raises empties the file; otherwise the old configuration is restored); the version never changes |
| ConfigStore.ConfigManager.UpdateJson | src/rss_downloader/config.py:94-104 | corrected: the configuration and file are those of `UpdateJsonDump` (commit whenever the merge validates and the file opens); the version never changes |
| ConfigStore.ConfigManager.WatchStep | src/rss_downloader/config.py:170-181 | an unchanged or unreadable modification time changes nothing; a changed one reloads the file's current contents |
| ConfigStore.ConfigManager.Reload | src/rss_downloader/config.py:173-178 | loads the file's current contents; success replaces the configuration, records the time and bumps the version together; failure changes none of them and stops the watcher |
| ConfigStore.NewConfigManager | src/rss_downloader/config.py:26-32 | construction fails iff `_load_or_create` fails; otherwise it holds the loaded configuration at version 0 |
| FeedParser.SearchAny | src/rss_downloader/parser.py:38 | true iff some pattern occurs in the title |
| FeedParser.MatchFiltersSpec | src/rss_downloader/parser.py:26-44 | a title passes iff it is included (no include rule, or one found) and no exclude rule is found |
| FeedParser.ExcludeWins | src/rss_downloader/parser.py:40-42 | an exclude rule found in the title rejects it, whatever the includes |
| FeedParser.NoRulesAcceptAll | src/rss_downloader/parser.py:34-36 | an unknown feed has no rules and passes every title |
| FeedParser.ExtractorFor | src/rss_downloader/parser.py:52-56 | an unknown feed is parsed with the default extractor |
| FeedParser.Matched | src/rss_downloader/parser.py:74-84 | at most one matched item per entry |
| FeedParser.MatchedAppend | src/rss_downloader/parser.py:74-84 | the items matched in two runs of entries are those matched in each, in order |
| FeedParser.MatchedSpec | src/rss_downloader/parser.py:74-84 | an item is matched iff some entry validates to it and its title passes the filters |
| FeedParser.RSSParser.constructor | src/rss_downloader/parser.py:13 | the pattern cache starts empty |
| FeedParser.RSSParser.PatternsFor | src/rss_downloader/parser.py:13-24 | the cached patterns for (name, version), or the feed's current rules, which are then stored; a coherent cache stays coherent |
| FeedParser.RSSParser.MatchFiltersFor | src/rss_downloader/parser.py:26-44 | the filter verdict under the patterns for the current version |
| FeedParser.RSSParser.ScanEntry | src/rss_downloader/parser.py:75-84 | one entry yields an item iff it validates and its title passes; the cache gains at most the current feed's entry |
| FeedParser.RSSParser.ParseFeed | src/rss_downloader/parser.py:46-88 | (0, []) for a malformed or empty fetch; otherwise the entry count and exactly the matched items, in order, with at most one new cache entry |
| FeedParser.CoherentCacheUsesCurrentRules | src/rss_downloader/parser.py:13-32 | with a coherent cache, filtering uses the feed's current rules |
| Ledger.Filter | src/rss_downloader/database.py:122-159 | a row is selected iff it is in the table and satisfies every given condition |
| Ledger.TimeBoundKept | src/rss_downloader/database.py:179 | a permutation keeps a bound on the download times |
| Ledger.ConsSorted | src/rss_downloader/database.py:179 | a newest row in front of a sorted list keeps it sorted |
| Ledger.InsertByTime | src/rss_downloader/database.py:179 | insertion keeps the newest-first order and adds exactly the row |
| Ledger.SortByTimeDesc | src/rss_downloader/database.py:179 | the result is ordered newest first and is a permutation of the rows |
| Ledger.Page | src/rss_downloader/database.py:179-181 | a page holds at most `limit` rows, all of them from the list |
| Ledger.RecordWithId | src/rss_downloader/database.py:98-105 | a found row is in the table with that id; None iff no row has it |
| Ledger.StoredRowsValid | src/rss_downloader/database.py:19-31 | every stored record satisfies the table's constraints |
| Ledger.StoredRowsBelow | src/rss_downloader/database.py:20 | every stored id is positive and below the next id |
| Ledger.StoredRowsIncreasing | src/rss_downloader/database.py:20 | ids increase along the table |
| Ledger.RecordWithIdUnique | src/rss_downloader/database.py:98-105 | looking up a stored row's id finds that row |
| Ledger.Database.constructor | src/rss_downloader/database.py:10-33 | opening the database keeps the rows and the AUTOINCREMENT sequence the file already holds (none and 1 for a new file); the table it opens satisfies the ledger invariant |
| Ledger.Database.Reset | src/rss_downloader/database.py:35-41 | the table is emptied and ids start again at 1 |
| Ledger.Database.Insert | src/rss_downloader/database.py:43-85 | on success the row is appended with the next id, above every existing id; on failure 0 is returned and nothing changes |
| Ledger.Database.IsDownloaded | src/rss_downloader/database.py:87-96 | true iff a row with that download URL has status 1 |
| Ledger.Database.SearchById | src/rss_downloader/database.py:98-105 | the row with that id, or None |
| Ledger.Database.SearchDownloads | src/rss_downloader/database.py:107-186 | the total counts the matching rows; the result is the requested page of them, newest first |
| Ledger.InsertedIsFound | src/rss_downloader/database.py:43-105 | after an insert the table keeps its invariant and the new id finds the new row |
| Ledger.HasSuccessAppend | src/rss_downloader/database.py:87-96 | a URL is downloaded after an append iff it was before or the new row is a success for it |
| Ledger.NoFiltersSelectAll | src/rss_downloader/database.py:122-159 | with no condition every row is selected |
| Downloaders.PrepareRequest | src/rss_downloader/downloaders.py:20-35 | a JSON-RPC 2.0 envelope with the fixed id; a truthy secret is prepended as "token:<secret>" and the arguments keep their order |
| Downloaders.Aria2AddLink | src/rss_downloader/downloaders.py:37-61 | `aria2.addUri` with `[[link]]`, plus `{"dir": dir}` only for a truthy dir; a failure becomes `{"error": message}` |
| Downloaders.Aria2GetVersion | src/rss_downloader/downloaders.py:63-73 | `aria2.getVersion` without arguments; a failure becomes `{"error": {"message": message}}` |
| Downloaders.FailedAddIsRejected | src/rss_downloader/downloaders.py:54-61 | a failed exchange is never taken for an accepted task |
| Downloaders.OkBodyIgnoresPadding | src/rss_downloader/downloaders.py:113 | surrounding white space does not change the "ok." verdict |
| Downloaders.QBittorrentClient.constructor | src/rss_downloader/downloaders.py:77-103 | logged in iff both credentials are truthy and the login answered "ok." |
| Downloaders.QBittorrentClient.Login | src/rss_downloader/downloaders.py:105-123 | posts the credentials; the session is logged in iff the body is "ok."; nothing raises |
| Downloaders.QBittorrentClient.AddLink | src/rss_downloader/downloaders.py:125-148 | true iff the answer's body is "ok."; every failure is false |
| Downloaders.QBittorrentClient.GetVersion | src/rss_downloader/downloaders.py:150-160 | `{"version": body}` or `{"error": message}` |
| Orchestrator.RecordAttempt | src/rss_downloader/main.py:92-113 | a valid record is appended when the insert succeeds; an invalid record raises before anything is stored; the outcome is Sent iff the record is valid and the send succeeded |
| Orchestrator.SendStepSpec | src/rss_downloader/main.py:61-113 | the record carries the downloader, mode and status; it is appended iff valid and stored; the send returns iff it succeeded; a missing client is the reported reason |
| Orchestrator.FailedSendText | src/rss_downloader/main.py:72-85 | a failed send's error text is not a fixed text iff aria2 was used (it then comes from the reply or the exception raised reading it), "qBittorrent API 返回失败" for a qBittorrent refusal, and the not-configured text naming the downloader when its client is missing |
| Orchestrator.MissingClientFails | src/rss_downloader/main.py:84-85 | without the named client the send fails as not configured |
| Orchestrator.UnknownDownloaderIsNotRecorded | src/rss_downloader/main.py:93-104 | a downloader name other than aria2 or qbittorrent records nothing |
| Orchestrator.ResendValidates | src/rss_downloader/main.py:115-124 | a stored record re-sent to a named downloader still validates |
| Orchestrator.RedownloadStepSpec | src/rss_downloader/main.py:115-124 | not found iff the id is unknown; no download URL iff the record's is empty; both leave the table alone; otherwise the outcome and table are those of one send with mode 1 |
| Orchestrator.RedownloadIgnoresEarlierSuccess | src/rss_downloader/main.py:115-124 | a stored record with a download URL, re-sent to a named downloader with storage working, adds one row with mode 1 for that URL even if it already succeeded |
| Orchestrator.AppendKeepsNewRows | src/rss_downloader/main.py:132-147 | appending this feed's row for a URL without a recorded success keeps every added row of that kind |
| Orchestrator.ProcessStepEffect | src/rss_downloader/main.py:132-147 | an already downloaded item changes nothing; otherwise at most one row, for the item's URL, and at most one success |
| Orchestrator.ProcessItemsBounds | src/rss_downloader/main.py:126-149 | successes are at most the items; the table only grows, by at most one row per item |
| Orchestrator.StepKeepsNewRows | src/rss_downloader/main.py:132-147 | one loop iteration adds only a row of that kind |
| Orchestrator.ProcessItemsRows | src/rss_downloader/main.py:126-149 | every row the loop adds is for this feed, its downloader and automatic mode, and for a URL with no success recorded before it |
| Orchestrator.CacheExtendsStep | src/rss_downloader/parser.py:13-32 | caching one feed's patterns for the current version, or nothing, keeps the old entries and adds only current-version entries holding the current rules |
| Orchestrator.NewRowsAreAuto | src/rss_downloader/main.py:132-147 | the rows one feed adds are automatic rows for URLs with no earlier success |
| Orchestrator.AutoRowsChain | src/rss_downloader/main.py:151-169 | the rows of the next feed keep that property from the start of the run |
| Orchestrator.AutoRowsSucceedOnce | src/rss_downloader/main.py:132-169 | among the rows a run adds, no row follows a success for the same download URL |
| Orchestrator.ThreeItemScenario | src/rss_downloader/main.py:126-149 | sent, skipped, failed: two rows are added (one success, one failure) and one success is counted |
| Orchestrator.RSSDownloader.constructor | src/rss_downloader/main.py:21-26 | the clients exist iff their sections and URLs are configured |
| Orchestrator.RSSDownloader.SetupDownloaders | src/rss_downloader/main.py:28-59 | an aria2 client iff an aria2 section with an RPC URL; a fresh, possibly logged-in qBittorrent client iff a section with a host |
| Orchestrator.RSSDownloader.Dispatch | src/rss_downloader/main.py:68-90 | the send succeeds as the chosen client answers, and fails with the matching reason |
| Orchestrator.RSSDownloader.Send | src/rss_downloader/main.py:61-113 | the outcome and the new table are those of the specification of one send |
| Orchestrator.RSSDownloader.Redownload | src/rss_downloader/main.py:115-124 | the outcome and the new table are those of `RedownloadStep` on the old table (see RedownloadStepSpec) |
| Orchestrator.RSSDownloader.HandleItem | src/rss_downloader/main.py:132-147 | one iteration moves the table and count from the first i items to the first i + 1 |
| Orchestrator.RSSDownloader.HandleItems | src/rss_downloader/main.py:132-147 | the loop leaves the table and count that the specification of the item loop gives |
| Orchestrator.RSSDownloader.ProcessFeed | src/rss_downloader/main.py:126-149 | (entries, matched items, successes) with successes ≤ matched ≤ entries; the table grows exactly as the item loop specifies, by automatic rows for URLs with no earlier success; the pattern cache is unchanged or gains the feed's patterns for the current version |
| Orchestrator.RSSDownloader.Run | src/rss_downloader/main.py:151-169 | the number of feeds processed is failAt's position, or all of them; the totals keep successes ≤ matched ≤ entries; the table only grows, and every row the run adds is automatic and for a URL with no success recorded before it; the pattern cache keeps every entry and gains only current-version entries holding the current rules |
| Web.EndOfDay | src/rss_downloader/web.py:87-90 | the last instant of the same day, no earlier than the time |
| Web.AtOrBeforeEndOfDay | src/rss_downloader/web.py:87-90 | a time is at or before the end of a day iff its day is not later |
| Web.EndOfDayIdempotent | src/rss_downloader/web.py:87-90 | rounding to the end of the day twice is rounding once |
| Web.NormalizeRange | src/rss_downloader/web.py:68-90 | reversed bounds are swapped and a given end is moved to the end of its day, so start ≤ end |
| Web.NormalizedRangeContents | src/rss_downloader/web.py:68-90 | a time is in the normalised range iff it is at least the earlier bound and its day is not after the later bound's |
| Web.NormalizeRangeIdempotent | src/rss_downloader/web.py:68-90 | normalising twice is normalising once |
| Web.Offset | src/rss_downloader/web.py:66 | the offset is non-negative, and 0 iff the first page |
| Web.TotalPages | src/rss_downloader/web.py:109 | the number of pages is non-negative |
| Web.TotalPagesSpec | src/rss_downloader/web.py:109 | no pages iff no records; otherwise the least page count that covers the total |
| Web.PageWithinTotal | src/rss_downloader/web.py:66-109 | a page starts inside the results iff its number is at most the page count |
| Web.PageNonEmpty | src/rss_downloader/web.py:94-109 | a page shows records iff its number is at most the page count |
| Web.SearchQuery | src/rss_downloader/web.py:94-106 | the search gets the normalised ranges and the other filters unchanged |
| Web.SearchIgnoresBoundOrder | src/rss_downloader/web.py:68-90 | swapping two given bounds gives the same search |
| Web.Index | src/rss_downloader/web.py:50-136 | 422 iff a parameter breaks its constraint; otherwise the page of matching records newest first, with offset, total and page count, and a non-empty page iff the page exists |
| Web.DigitsRoundTrip | src/rss_downloader/web.py:155 | reading the decimal digits of n gives n |
| Web.DecimalRoundTrip | src/rss_downloader/web.py:155 | `int(str(n)) == n` for every integer |
| Web.IntValue | src/rss_downloader/web.py:155 | `int()` of an integer is itself; of null, a list or a dictionary it raises |
| Web.ReadRequest | src/rss_downloader/web.py:148-155 | a body missing a truthy id or downloader is a 400; a call carries `int(id)` and names a downloader iff it is "aria2" or "qbittorrent" |
| Web.RouteNeverSucceeds | src/rss_downloader/web.py:144-170 | the route never answers 200, and answers 400 iff the body is a dictionary missing a truthy id or downloader |
| Web.RedownloadRoute | src/rss_downloader/web.py:144-170 | the reply is the route's answer to the body and the outcome; redownload is called iff the request is readable, and then with the request's id and downloader, so the outcome and new table are those of `RedownloadStep`; otherwise the table is unchanged |

## Left out

- Network, SQLite, YAML and file I/O: their results are parameters (replies, the stored table the Database constructor opens, `storageOk`, `writeOk`, the file's contents, the modification time).
- Regular expressions: an include or exclude pattern is matched as a literal substring of the title, and a `$` in the downloader query pattern is taken as the end of the text.
- The LRU bound of the pattern cache (32 entries): the cache is a map that never evicts. Without an update the two return the same patterns. After an update, which does not bump the version, they can differ: an LRU that has evicted `(name, version)` recomputes the patterns from the current rules, while the map keeps those from before the update.
- pydantic version: the code needs pydantic 1 for `@root_validator()` without `skip_on_failure` and for `HttpUrl(..., scheme=...)`, and pydantic 2 for `model_dump`/`model_validate`; as written it runs under neither. The model takes the pydantic 2 calling conventions: `parse_obj` hands the feed entry itself to the `pre=True` validators, so DefaultEntry's `FeedParserDict` test sees it (Entries.Extract, Entries.DefaultPassThrough), and `model_dump` exists (Orchestrator.ItemOf, Orchestrator.Resend). The validators are taken as written, with the model-level checks run once the fields have validated (Models.Parse). Whether a value is accepted is the same under both versions; only the error details differ. The default URLs are plain strings. Under pydantic 1, `parse_obj` would pass a plain copy of the entry, so every default-extractor entry would fail validation, and `item.model_dump()` at main.py:138 would raise outside the `try`. Neither is modelled. The configuration-update finding below holds under both versions.
- pydantic coercions (numeric strings for ints, "yes" for booleans): only values of the exact JSON type are accepted. Floats are not part of `Value`.
- URL parsing: URLs are opaque strings with an `http://` or `https://` prefix and a simple host extraction; `urljoin` is modelled as the fixed API path.
- Case folding and `strip` are ASCII only.
- SQL `LIKE`: modelled as case-sensitive substring search without `%`/`_` wildcards inside the text; `ORDER BY download_time DESC` ties keep table order.
- Partial writes of the configuration file: `writeOk` false stands for an open that raises before the file is truncated; a write that fails half-way is not modelled. The failure of `yaml.safe_dump` on URL values is modelled (see Findings).
- Threads and the lock: the watcher is one pass (`WatchStep`) called by the environment; the 5-second sleep and the daemon thread are not modelled.
- `RSSParser(config=config, logger=logger)` in main.py:23 passes keyword arguments that RSSParser in parser.py does not accept; the model builds the parser without them.
- web.py imports `Aria2TestPayload` and `QBittorrentTestPayload`, which downloaders.py does not define; the `/test-downloader` route is not part of this model.
- The text of an aria2 error message, the log messages, and the detail strings of HTTP errors.
- Transmission and webhooks: the code has neither.
- The login state of a qBittorrent session is a boolean `authenticated` instead of a cookie jar.
- Integer parsing in `int()`: underscores, non-ASCII digits and surrounding Unicode white space beyond ASCII are not modelled.
- A request body whose `downloader` is not a string is read as the empty name, which no client has.
- Templates, `format_datetime`, the `/config`, `/config-page` and `run_web_server` routes, and the `error.html` path of `index`: the search raises only when SQLite does, which the model does not produce.
- Local time: times are integers (microseconds in the web handler), so `datetime.combine(date, time.max)` is the last microsecond of a fixed-length day.
- ConfigStore.ConfigManager.Update: the version counter is not bumped, as in the code, so the pattern cache can keep patterns from before an update.
- Orchestrator.RSSDownloader.Run: the per-feed exception is a parameter (`failAt`, the feed whose processing raises before it changes anything); the totals are stated by their ordering, not as sums of the per-feed results; the new table is stated by the run-wide property of its added rows, not as the composition of the per-feed specifications.
- services.py, logger.py and `__init__.py` (the process bootstrap and periodic scheduling) are not part of this model.

## Findings

| source | as written | input that shows it | evidently intended | confidence | as-written member | corrected member |
|---|---|---|---|---|---|---|
| src/rss_downloader/config.py:94-104 | `update` opens the file for writing, then dumps `self._config.dict()` with `yaml.safe_dump`; that dump keeps pydantic URL objects, which the safe representer refuses | `update({})` on any valid configuration with one feed (or any update keeping a feed, an aria2 `rpc` or a qBittorrent `host`): the dump raises, the configuration is restored, and the file is left empty, so the next load yields the defaults with no feed | dump plain values (`model_dump(mode="json")`), so that a validated update is committed and reloads as itself | high, not executed | ConfigStore.ConfigManager.Update, ConfigStore.UpdateWithFeedNeverCommits, ConfigStore.EmptyUpdateWithFeedEmptiesFile, ConfigStore.FailedUpdateDropsFeeds | ConfigStore.ConfigManager.UpdateJson, ConfigStore.UpdateJsonDumpCommits |
