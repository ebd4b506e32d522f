/** main.py: RSSDownloader, which builds the downloader clients from the
    configuration, sends one item to a downloader and records the attempt,
    re-sends a stored record, processes the matched items of one feed with
    success-only de-duplication, and runs over every configured feed.
    Replies of the downloaders, the clock and whether SQLite accepts an
    insert are inputs. */
module Orchestrator {
  import opened Common
  import opened Models
  import opened Entries
  import opened ConfigStore
  import opened FeedParser
  import opened Ledger
  import opened Downloaders

  /** The item dictionary `_send_to_downloader` reads. */
  datatype SendItem = SendItem(
    title: string,
    url: string,
    downloadUrl: string,
    feedName: string,
    feedUrl: string,
    publishedTime: int)

  /** What the outside world does during one send: the aria2 and the
      qBittorrent reply (only the chosen client's is used), the clock, and
      whether SQLite accepts the insert. */
  datatype SendInputs = SendInputs(aria2Reply: RpcReply, qbReply: WebReply, now: int, storageOk: bool)

  /** Why a send failed. */
  datatype FailReason =
    | NotConfigured(downloader: string)   // no client for the named downloader
    | Aria2Error                          // `"error" in result`, or evaluating it raised
    | QbRejected                          // `add_link` returned False

  /** How `_send_to_downloader` ends: it returns, it raises DownloaderError
      after recording the attempt (the id is what `insert` returned, 0 when
      the insert failed), or building the DownloadRecord raises a
      ValidationError and nothing is recorded. */
  datatype SendOutcome = Sent(id: nat) | Failed(reason: FailReason, id: nat) | RecordInvalid

  /** How `redownload` ends. */
  datatype RedownloadOutcome = ItemNotFound | NoDownloadUrl | Resent(result: SendOutcome)

  /** The text after "任务添加失败 (<downloader>): " for the reasons whose text
      is fixed; an aria2 error carries the RPC's own `error` member. */
  function ReasonText(reason: FailReason): Option<string>
  {
    match reason
    case NotConfigured(d) => Some("下载器 " + d + " 未配置或不可用")
    case QbRejected => Some("qBittorrent API 返回失败")
    case Aria2Error => None
  }

  /** The message of the DownloaderError a failed send raises: an aria2
      failure carries the RPC's `error` member; qBittorrent's refusal and a
      missing client carry their fixed texts. */
  lemma FailedSendText(rows: seq<Row>, nextId: nat, item: SendItem, downloader: string, mode: int,
                       hasAria2: bool, hasQb: bool, inp: SendInputs)
    requires SendStep(rows, nextId, item, downloader, mode, hasAria2, hasQb, inp).0.Failed?
    ensures var reason := SendStep(rows, nextId, item, downloader, mode, hasAria2, hasQb, inp).0.reason;
            && (ReasonText(reason).None? <==> downloader == "aria2" && hasAria2)
            && (downloader == "qbittorrent" && hasQb ==> ReasonText(reason) == Some("qBittorrent API 返回失败"))
            && (!ClientPresent(downloader, hasAria2, hasQb) ==>
                  ReasonText(reason) == Some("下载器 " + downloader + " 未配置或不可用"))
  {
  }

  /** The client `downloader` names exists. */
  predicate ClientPresent(downloader: string, hasAria2: bool, hasQb: bool)
  {
    (downloader == "aria2" && hasAria2) || (downloader == "qbittorrent" && hasQb)
  }

  /** The send succeeds: the named client exists and aria2 answered without
      an error, or qBittorrent answered "ok.". */
  predicate Succeeds(downloader: string, hasAria2: bool, hasQb: bool, inp: SendInputs)
  {
    if downloader == "aria2" && hasAria2 then inp.aria2Reply.RpcAnswered? && Aria2Accepted(inp.aria2Reply.body)
    else if downloader == "qbittorrent" && hasQb then inp.qbReply.WebAnswered? && OkBody(inp.qbReply.text)
    else false
  }

  /** The failure reason of an unsuccessful send. */
  function Reason(downloader: string, hasAria2: bool, hasQb: bool): FailReason
  {
    if downloader == "aria2" && hasAria2 then Aria2Error
    else if downloader == "qbittorrent" && hasQb then QbRejected
    else NotConfigured(downloader)
  }

  /** The DownloadRecord built after the send. */
  function RecordFor(item: SendItem, downloader: string, mode: int, now: int, status: bool): DownloadRecord
  {
    DownloadRecord(item.title, item.url, item.downloadUrl, item.feedName, item.feedUrl,
                   item.publishedTime, now, downloader, if status then 1 else 0, mode)
  }

  /** `item.model_dump() | {"feed_name": …, "feed_url": …}` in process_feed. */
  function ItemOf(p: ParsedItem, feedName: string, feedUrl: string): SendItem
  {
    SendItem(p.title, p.url, p.downloadUrl, feedName, feedUrl, p.publishedTime)
  }

  /** `record.model_dump()` in redownload. */
  function Resend(rec: DownloadRecord): SendItem
  {
    SendItem(rec.title, rec.url, rec.downloadUrl, rec.feedName, rec.feedUrl, rec.publishedTime)
  }

  /** The end of `_send_to_downloader` on a table (rows, next id), once the
      client's verdict `ok` is known: a record that validates is inserted
      exactly once (when SQLite accepts it) and the outcome follows the
      verdict; a record that does not validate leaves the table alone. */
  function RecordAttempt(rows: seq<Row>, nextId: nat, rec: DownloadRecord, ok: bool, reason: FailReason,
                         storageOk: bool): (r: (SendOutcome, seq<Row>, nat))
    ensures ValidRecord(rec) && storageOk ==> r.1 == rows + [Row(nextId, rec)] && r.2 == nextId + 1
    ensures !(ValidRecord(rec) && storageOk) ==> r.1 == rows && r.2 == nextId
    ensures r.0.RecordInvalid? <==> !ValidRecord(rec)
    ensures r.0.Sent? <==> ValidRecord(rec) && ok
    ensures r.0.Failed? ==> r.0.reason == reason && r.0.id == (if storageOk then nextId else 0)
  {
    if !ValidRecord(rec) then (RecordInvalid, rows, nextId)
    else
      var id := if storageOk then nextId else 0;
      var outcome := if ok then Sent(id) else Failed(reason, id);
      if storageOk then (outcome, rows + [Row(nextId, rec)], nextId + 1) else (outcome, rows, nextId)
  }

  /** One `_send_to_downloader` call: the client's verdict, the record
      built from it, and the insert. */
  function SendStep(rows: seq<Row>, nextId: nat, item: SendItem, downloader: string, mode: int,
                    hasAria2: bool, hasQb: bool, inp: SendInputs): (SendOutcome, seq<Row>, nat)
  {
    var ok := Succeeds(downloader, hasAria2, hasQb, inp);
    RecordAttempt(rows, nextId, RecordFor(item, downloader, mode, inp.now, ok), ok, Reason(downloader, hasAria2, hasQb),
                  inp.storageOk)
  }

  /** Every attempt whose record validates is recorded once (when SQLite
      accepts it), carrying the given downloader and mode, with status 1
      iff the send succeeded; a missing client fails with NotConfigured. */
  lemma SendStepSpec(rows: seq<Row>, nextId: nat, item: SendItem, downloader: string, mode: int,
                     hasAria2: bool, hasQb: bool, inp: SendInputs)
    ensures var r := SendStep(rows, nextId, item, downloader, mode, hasAria2, hasQb, inp);
            var ok := Succeeds(downloader, hasAria2, hasQb, inp);
            var rec := RecordFor(item, downloader, mode, inp.now, ok);
            && rec.downloader == downloader && rec.mode == mode && (rec.status == 1 <==> ok)
            && (ValidRecord(rec) && inp.storageOk ==> r.1 == rows + [Row(nextId, rec)])
            && (!(ValidRecord(rec) && inp.storageOk) ==> r.1 == rows)
            && (r.0.Sent? <==> ValidRecord(rec) && ok)
            && (r.0.Failed? ==> (r.0.reason == NotConfigured(downloader) <==> !ClientPresent(downloader, hasAria2, hasQb)))
  {
  }

  /** Without the named client a send never succeeds. */
  lemma MissingClientFails(downloader: string, hasAria2: bool, hasQb: bool, inp: SendInputs)
    requires !ClientPresent(downloader, hasAria2, hasQb)
    ensures !Succeeds(downloader, hasAria2, hasQb, inp)
    ensures Reason(downloader, hasAria2, hasQb) == NotConfigured(downloader)
  {
  }

  /** A downloader name other than the two literals fails DownloadRecord's
      validation, so the attempt raises without being recorded. */
  lemma UnknownDownloaderIsNotRecorded(rows: seq<Row>, nextId: nat, item: SendItem, downloader: string,
                                       mode: int, hasAria2: bool, hasQb: bool, inp: SendInputs)
    requires DownloaderNamed(downloader).None?
    ensures SendStep(rows, nextId, item, downloader, mode, hasAria2, hasQb, inp) == (RecordInvalid, rows, nextId)
  {
  }

  /** A stored record, re-sent to a known downloader with mode 1, always
      validates again. */
  lemma ResendValidates(rec: DownloadRecord, downloader: string, now: int, status: bool)
    requires ValidRecord(rec) && DownloaderNamed(downloader).Some?
    ensures ValidRecord(RecordFor(Resend(rec), downloader, 1, now, status))
  {
  }

  /** RSSDownloader.redownload on a table (rows, next id): an unknown id and
      a record without a download URL raise before anything is sent or
      recorded; otherwise the stored record is sent again with mode 1. */
  function RedownloadStep(rows: seq<Row>, nextId: nat, id: int, downloader: string,
                          hasAria2: bool, hasQb: bool, inp: SendInputs): (RedownloadOutcome, seq<Row>, nat)
  {
    match RecordWithId(rows, id)
    case None => (ItemNotFound, rows, nextId)
    case Some(row) =>
      if row.rec.downloadUrl == "" then (NoDownloadUrl, rows, nextId)
      else
        var s := SendStep(rows, nextId, Resend(row.rec), downloader, 1, hasAria2, hasQb, inp);
        (Resent(s.0), s.1, s.2)
  }

  /** Only a stored record with a download URL is sent again, and then the
      outcome and the table are those of one send with mode 1; the two
      refusals leave the table as it was. */
  lemma RedownloadStepSpec(rows: seq<Row>, nextId: nat, id: int, downloader: string,
                           hasAria2: bool, hasQb: bool, inp: SendInputs)
    ensures var found := RecordWithId(rows, id);
            var r := RedownloadStep(rows, nextId, id, downloader, hasAria2, hasQb, inp);
            && (found.None? <==> r.0 == ItemNotFound)
            && (r.0 == NoDownloadUrl <==> found.Some? && found.value.rec.downloadUrl == "")
            && (!r.0.Resent? ==> r.1 == rows && r.2 == nextId)
            && (r.0.Resent? ==>
                  var s := SendStep(rows, nextId, Resend(found.value.rec), downloader, 1, hasAria2, hasQb, inp);
                  r == (Resent(s.0), s.1, s.2))
  {
  }

  /** Unlike process_feed, a redownload does not look for an earlier
      success: a stored record with a download URL, re-sent to a known
      downloader while SQLite accepts the insert, adds one row with mode 1
      for the same download URL, even when that URL already succeeded. */
  lemma RedownloadIgnoresEarlierSuccess(rows: seq<Row>, nextId: nat, id: int, downloader: string,
                                        hasAria2: bool, hasQb: bool, inp: SendInputs)
    requires RecordWithId(rows, id).Some? && ValidRecord(RecordWithId(rows, id).value.rec)
    requires RecordWithId(rows, id).value.rec.downloadUrl != ""
    requires DownloaderNamed(downloader).Some? && inp.storageOk
    ensures var r := RedownloadStep(rows, nextId, id, downloader, hasAria2, hasQb, inp);
            && r.0.Resent?
            && |r.1| == |rows| + 1 && r.1[..|rows|] == rows
            && r.1[|rows|].rec.downloadUrl == RecordWithId(rows, id).value.rec.downloadUrl
            && r.1[|rows|].rec.mode == 1
  {
    var rec := RecordWithId(rows, id).value.rec;
    ResendValidates(rec, downloader, inp.now, Succeeds(downloader, hasAria2, hasQb, inp));
  }

  /** The table and the success counter while process_feed runs. */
  datatype Tally = Tally(rows: seq<Row>, nextId: nat, successes: nat)

  /** A row process_feed adds for an item: its download URL, the feed, the
      feed's downloader, automatic mode. */
  predicate RowFor(row: Row, url: string, feedName: string, downloader: string)
  {
    row.rec.downloadUrl == url && row.rec.feedName == feedName && row.rec.downloader == downloader && row.rec.mode == 0
  }

  /** The rows from position `from` on were added by process_feed for this
      feed, each for a URL with no success recorded before it. */
  predicate NewRowsFrom(rows: seq<Row>, from: nat, feedName: string, downloader: string)
  {
    forall j :: from <= j < |rows| ==>
      !HasSuccess(rows[..j], rows[j].rec.downloadUrl) && RowFor(rows[j], rows[j].rec.downloadUrl, feedName, downloader)
  }

  /** Appending a row for a URL without a recorded success keeps NewRowsFrom. */
  lemma AppendKeepsNewRows(rows: seq<Row>, row: Row, from: nat, feedName: string, downloader: string)
    requires from <= |rows| && NewRowsFrom(rows, from, feedName, downloader)
    requires !HasSuccess(rows, row.rec.downloadUrl) && RowFor(row, row.rec.downloadUrl, feedName, downloader)
    ensures NewRowsFrom(rows + [row], from, feedName, downloader)
  {
    var s := rows + [row];
    forall j | from <= j < |s|
      ensures !HasSuccess(s[..j], s[j].rec.downloadUrl) && RowFor(s[j], s[j].rec.downloadUrl, feedName, downloader)
    {
      if j < |rows| {
        assert s[..j] == rows[..j];
        assert s[j] == rows[j];
      } else {
        assert s[..j] == rows;
      }
    }
  }

  /** One iteration of process_feed's loop: an item whose download URL is
      already recorded as a success is skipped; otherwise it is sent with
      mode 0 and counted when the send returns. */
  function ProcessStep(t: Tally, item: ParsedItem, feedName: string, feedUrl: string, downloader: string,
                       hasAria2: bool, hasQb: bool, inp: SendInputs): Tally
  {
    if HasSuccess(t.rows, item.downloadUrl) then t
    else
      var s := SendStep(t.rows, t.nextId, ItemOf(item, feedName, feedUrl), downloader, 0, hasAria2, hasQb, inp);
      Tally(s.1, s.2, t.successes + if s.0.Sent? then 1 else 0)
  }

  /** An item already downloaded changes nothing; otherwise at most one row
      is appended, for the item's URL, the feed and its downloader, with
      mode 0, and at most one success is counted. */
  lemma ProcessStepEffect(t: Tally, item: ParsedItem, feedName: string, feedUrl: string, downloader: string,
                          hasAria2: bool, hasQb: bool, inp: SendInputs)
    ensures var r := ProcessStep(t, item, feedName, feedUrl, downloader, hasAria2, hasQb, inp);
            && (HasSuccess(t.rows, item.downloadUrl) ==> r == t)
            && r.successes <= t.successes + 1
            && (r.rows == t.rows
                || (&& |r.rows| == |t.rows| + 1 && r.rows == t.rows + [r.rows[|t.rows|]]
                    && !HasSuccess(t.rows, item.downloadUrl)
                    && RowFor(r.rows[|t.rows|], item.downloadUrl, feedName, downloader)))
  {
  }

  /** The first `n` iterations of process_feed's loop. */
  function ProcessItems(start: Tally, items: seq<ParsedItem>, n: nat, feedName: string, feedUrl: string,
                        downloader: string, hasAria2: bool, hasQb: bool, env: nat -> SendInputs): Tally
    requires n <= |items|
  {
    if n == 0 then start
    else
      ProcessStep(ProcessItems(start, items, n - 1, feedName, feedUrl, downloader, hasAria2, hasQb, env),
                  items[n - 1], feedName, feedUrl, downloader, hasAria2, hasQb, env(n - 1))
  }

  /** After `n` items at most `n` successes are counted and at most `n`
      rows appended; the rows already there are kept. */
  lemma {:induction false} ProcessItemsBounds(start: Tally, items: seq<ParsedItem>, n: nat, feedName: string,
                                              feedUrl: string, downloader: string, hasAria2: bool, hasQb: bool,
                                              env: nat -> SendInputs)
    requires n <= |items|
    ensures var t := ProcessItems(start, items, n, feedName, feedUrl, downloader, hasAria2, hasQb, env);
            && t.successes <= start.successes + n
            && start.rows <= t.rows && |t.rows| <= |start.rows| + n
  {
    if n > 0 {
      ProcessItemsBounds(start, items, n - 1, feedName, feedUrl, downloader, hasAria2, hasQb, env);
      var prev := ProcessItems(start, items, n - 1, feedName, feedUrl, downloader, hasAria2, hasQb, env);
      ProcessStepEffect(prev, items[n - 1], feedName, feedUrl, downloader, hasAria2, hasQb, env(n - 1));
    }
  }

  /** One iteration keeps NewRowsFrom: the row it may append is for a URL
      without a recorded success. */
  lemma StepKeepsNewRows(prev: Tally, item: ParsedItem, from: nat, feedName: string, feedUrl: string,
                         downloader: string, hasAria2: bool, hasQb: bool, inp: SendInputs)
    requires from <= |prev.rows| && NewRowsFrom(prev.rows, from, feedName, downloader)
    ensures NewRowsFrom(ProcessStep(prev, item, feedName, feedUrl, downloader, hasAria2, hasQb, inp).rows,
                        from, feedName, downloader)
  {
    var t := ProcessStep(prev, item, feedName, feedUrl, downloader, hasAria2, hasQb, inp);
    ProcessStepEffect(prev, item, feedName, feedUrl, downloader, hasAria2, hasQb, inp);
    if t.rows != prev.rows {
      AppendKeepsNewRows(prev.rows, t.rows[|prev.rows|], from, feedName, downloader);
    }
  }

  /** Every row process_feed adds belongs to the feed, names its downloader,
      has mode 0, and carries a download URL that had no success recorded
      before it: a URL is never sent again once it succeeded. */
  lemma {:induction false} ProcessItemsRows(start: Tally, items: seq<ParsedItem>, n: nat, feedName: string,
                                            feedUrl: string, downloader: string, hasAria2: bool, hasQb: bool,
                                            env: nat -> SendInputs)
    requires n <= |items|
    ensures NewRowsFrom(ProcessItems(start, items, n, feedName, feedUrl, downloader, hasAria2, hasQb, env).rows,
                        |start.rows|, feedName, downloader)
  {
    if n > 0 {
      var prev := ProcessItems(start, items, n - 1, feedName, feedUrl, downloader, hasAria2, hasQb, env);
      assert ProcessItems(start, items, n, feedName, feedUrl, downloader, hasAria2, hasQb, env)
             == ProcessStep(prev, items[n - 1], feedName, feedUrl, downloader, hasAria2, hasQb, env(n - 1));
      ProcessItemsRows(start, items, n - 1, feedName, feedUrl, downloader, hasAria2, hasQb, env);
      ProcessItemsBounds(start, items, n - 1, feedName, feedUrl, downloader, hasAria2, hasQb, env);
      StepKeepsNewRows(prev, items[n - 1], |start.rows|, feedName, feedUrl, downloader, hasAria2, hasQb, env(n - 1));
    }
  }

  /** `after` keeps every entry of `before`, and each entry it adds is for
      `version` and holds the current rules of its feed. */
  ghost predicate CacheExtends(before: map<(string, int), (seq<string>, seq<string>)>,
                               after: map<(string, int), (seq<string>, seq<string>)>,
                               feeds: seq<FeedConfig>, version: int)
  {
    && (forall key :: key in before ==> key in after && after[key] == before[key])
    && (forall key :: key in after && key !in before ==> key.1 == version && after[key] == FeedPatterns(feeds, key.0))
  }

  /** Caching one feed's patterns, or nothing, keeps CacheExtends. */
  lemma CacheExtendsStep(start: map<(string, int), (seq<string>, seq<string>)>,
                         mid: map<(string, int), (seq<string>, seq<string>)>,
                         after: map<(string, int), (seq<string>, seq<string>)>,
                         feeds: seq<FeedConfig>, version: int, name: string)
    requires CacheExtends(start, mid, feeds, version)
    requires after == mid || after == mid[(name, version) := CachedOr(mid, feeds, name, version)]
    ensures CacheExtends(start, after, feeds, version)
  {
  }

  /** The rows from position `from` on were added in automatic mode, each
      for a download URL with no success recorded before it: what a run of
      process_feed over several feeds leaves, whatever the feeds. */
  predicate AutoRowsFrom(rows: seq<Row>, from: nat)
  {
    forall j :: from <= j < |rows| ==> rows[j].rec.mode == 0 && !HasSuccess(rows[..j], rows[j].rec.downloadUrl)
  }

  /** The rows one feed adds are automatic rows for URLs not yet succeeded. */
  lemma NewRowsAreAuto(rows: seq<Row>, from: nat, feedName: string, downloader: string)
    requires NewRowsFrom(rows, from, feedName, downloader)
    ensures AutoRowsFrom(rows, from)
  {
  }

  /** The rows of the next feed, added after those of the earlier feeds,
      keep AutoRowsFrom from the start of the run. */
  lemma AutoRowsChain(a: seq<Row>, b: seq<Row>, from: nat)
    requires from <= |a| && a <= b
    requires AutoRowsFrom(a, from) && AutoRowsFrom(b, |a|)
    ensures AutoRowsFrom(b, from)
  {
    forall j | from <= j < |b|
      ensures b[j].rec.mode == 0 && !HasSuccess(b[..j], b[j].rec.downloadUrl)
    {
      if j < |a| {
        assert b[..j] == a[..j];
        assert b[j] == a[j];
      }
    }
  }

  /** Among the rows a run adds, a download URL is sent again only while
      it has not succeeded: no row follows a success for the same URL. */
  lemma AutoRowsSucceedOnce(rows: seq<Row>, from: nat, i: nat, j: nat)
    requires AutoRowsFrom(rows, from) && from <= i < j < |rows|
    requires rows[i].rec.status == 1
    ensures rows[j].rec.downloadUrl != rows[i].rec.downloadUrl
  {
    assert rows[..j][i] == rows[i];
  }

  /** Three matched items sent to aria2: the first is accepted, the second's
      URL is already recorded as a success, the third is answered with an
      error. Exactly two rows are added, with statuses 1 and 0, and one
      success is counted. */
  lemma ThreeItemScenario(start: Tally, items: seq<ParsedItem>, feedName: string, feedUrl: string,
                          env: nat -> SendInputs)
    requires |items| == 3
    requires forall k :: 0 <= k < 3 ==> |items[k].title| >= 1 && IsHttpUrl(items[k].url)
    requires IsHttpUrl(feedUrl)
    requires !HasSuccess(start.rows, items[0].downloadUrl)
    requires HasSuccess(start.rows, items[1].downloadUrl)
    requires !HasSuccess(start.rows, items[2].downloadUrl)
    requires items[2].downloadUrl != items[0].downloadUrl
    requires env(0).aria2Reply.RpcAnswered? && Aria2Accepted(env(0).aria2Reply.body) && env(0).storageOk
    requires env(2).aria2Reply.RpcAnswered? && !Aria2Accepted(env(2).aria2Reply.body) && env(2).storageOk
    ensures var t := ProcessItems(start, items, 3, feedName, feedUrl, "aria2", true, false, env);
            && t.rows == start.rows
                         + [Row(start.nextId, RecordFor(ItemOf(items[0], feedName, feedUrl), "aria2", 0, env(0).now, true)),
                            Row(start.nextId + 1, RecordFor(ItemOf(items[2], feedName, feedUrl), "aria2", 0, env(2).now, false))]
            && t.successes == start.successes + 1
  {
    var t1 := ProcessItems(start, items, 1, feedName, feedUrl, "aria2", true, false, env);
    assert ProcessItems(start, items, 0, feedName, feedUrl, "aria2", true, false, env) == start;
    var row0 := Row(start.nextId, RecordFor(ItemOf(items[0], feedName, feedUrl), "aria2", 0, env(0).now, true));
    assert t1 == Tally(start.rows + [row0], start.nextId + 1, start.successes + 1);
    var t2 := ProcessItems(start, items, 2, feedName, feedUrl, "aria2", true, false, env);
    HasSuccessAppend(start.rows, row0, items[1].downloadUrl);
    assert t2 == t1;
    HasSuccessAppend(start.rows, row0, items[2].downloadUrl);
  }

  /** The items parse_feed returns: none for an unusable fetch, else the
      matched entries under the feed's extractor and patterns. */
  function FeedItems(fetch: FeedFetch, feeds: seq<FeedConfig>, feedName: string,
                     cache: map<(string, int), (seq<string>, seq<string>)>, version: int, now: int): seq<ParsedItem>
  {
    if Unusable(fetch) then []
    else Matched(fetch.entries, ExtractorFor(feeds, feedName), CachedOr(cache, feeds, feedName, version), now)
  }

  class RSSDownloader {
    var config: ConfigManager
    var parser: RSSParser
    var db: Database
    var aria2: Option<Aria2Client>
    var qbittorrent: QBittorrentClient?

    predicate Valid()
      reads this, db
    {
      db.Valid()
    }

    /** RSSDownloader.__init__: keeps the configuration and the database,
        makes a parser, then sets up the clients. */
    constructor (cm: ConfigManager, database: Database, loginReply: WebReply)
      requires database.Valid()
      ensures Valid() && config == cm && db == database && fresh(parser)
      ensures aria2.Some? <==> cm.config.aria2.Some? && cm.config.aria2.value.rpc.Some?
      ensures qbittorrent != null <==> cm.config.qbittorrent.Some? && cm.config.qbittorrent.value.host.Some?
    {
      config := cm;
      db := database;
      parser := new RSSParser();
      aria2 := None;
      qbittorrent := null;
      new;
      SetupDownloaders(loginReply);
    }

    /** RSSDownloader._setup_downloaders: an aria2 client exists iff the
        aria2 section has an rpc URL, a qBittorrent client iff the
        qBittorrent section has a host; the clients take their settings
        from those sections. A URL is always truthy once validated. The
        qBittorrent constructor never raises, so its ConnectionError branch
        is never taken. */
    method SetupDownloaders(loginReply: WebReply)
      modifies this
      ensures config == old(config) && db == old(db) && parser == old(parser)
      ensures var a := config.config.aria2;
              && (aria2.Some? <==> a.Some? && a.value.rpc.Some?)
              && (aria2.Some? ==> aria2.value == Aria2Client(a.value.rpc.value, a.value.secret, a.value.dir))
      ensures var q := config.config.qbittorrent;
              && (qbittorrent != null <==> q.Some? && q.value.host.Some?)
              && (qbittorrent != null ==>
                    && fresh(qbittorrent) && qbittorrent.baseUrl == q.value.host.value
                    && (qbittorrent.authenticated <==> Given(q.value.username) && Given(q.value.password)
                                                       && loginReply.WebAnswered? && OkBody(loginReply.text)))
    {
      var a := config.config.aria2;
      if a.Some? && a.value.rpc.Some? {
        aria2 := Some(Aria2Client(a.value.rpc.value, a.value.secret, a.value.dir));
      } else {
        aria2 := None;
      }
      var q := config.config.qbittorrent;
      if q.Some? && q.value.host.Some? {
        qbittorrent := new QBittorrentClient(q.value.host.value, q.value.username, q.value.password, loginReply);
      } else {
        qbittorrent := null;
      }
    }

    /** The `try` block of _send_to_downloader: the named client's verdict,
        and the reason when it is not a success. */
    method Dispatch(item: SendItem, downloader: string, inp: SendInputs) returns (status: bool, reason: FailReason)
      ensures status == Succeeds(downloader, aria2.Some?, qbittorrent != null, inp)
      ensures reason == Reason(downloader, aria2.Some?, qbittorrent != null)
    {
      status := false;
      reason := NotConfigured(downloader);
      if downloader == "aria2" && aria2.Some? {
        reason := Aria2Error;
        var request, result := Aria2AddLink(aria2.value, item.downloadUrl, inp.aria2Reply);
        status := Aria2Accepted(result);
      } else if downloader == "qbittorrent" && qbittorrent != null {
        reason := QbRejected;
        var call, ok := qbittorrent.AddLink(item.downloadUrl, inp.qbReply);
        status := ok;
      }
    }

    /** RSSDownloader._send_to_downloader: dispatch to the named client,
        then build and insert the record; the outcome and the new table are
        those of SendStep. */
    method Send(item: SendItem, downloader: string, mode: int, inp: SendInputs) returns (outcome: SendOutcome)
      requires Valid()
      modifies db
      ensures Valid()
      ensures (outcome, db.rows, db.nextId)
              == SendStep(old(db.rows), old(db.nextId), item, downloader, mode, aria2.Some?, qbittorrent != null, inp)
    {
      ghost var expected := SendStep(db.rows, db.nextId, item, downloader, mode, aria2.Some?, qbittorrent != null, inp);
      var status, reason := Dispatch(item, downloader, inp);
      var rec := RecordFor(item, downloader, mode, inp.now, status);
      assert expected == RecordAttempt(db.rows, db.nextId, rec, status, reason, inp.storageOk);
      if !ValidRecord(rec) {
        return RecordInvalid;
      }
      var id := db.Insert(rec, inp.storageOk);
      if status {
        outcome := Sent(id);
      } else {
        outcome := Failed(reason, id);
      }
    }

    /** RSSDownloader.redownload: the outcome and the new table are those
        of RedownloadStep. */
    method Redownload(id: int, downloader: string, inp: SendInputs) returns (outcome: RedownloadOutcome)
      requires Valid()
      modifies db
      ensures Valid()
      ensures (outcome, db.rows, db.nextId)
              == RedownloadStep(old(db.rows), old(db.nextId), id, downloader, aria2.Some?, qbittorrent != null, inp)
    {
      var found := db.SearchById(id);
      if found.None? {
        return ItemNotFound;
      }
      if found.value.rec.downloadUrl == "" {
        return NoDownloadUrl;
      }
      var result := Send(Resend(found.value.rec), downloader, 1, inp);
      outcome := Resent(result);
    }

    /** The table and the success count are those of the first `n`
        iterations of process_feed's loop from `start`. */
    ghost predicate Reached(start: Tally, items: seq<ParsedItem>, n: nat, feedName: string, feedUrl: string,
                            downloader: string, env: nat -> SendInputs, count: nat)
      requires n <= |items|
      reads this, db
    {
      Tally(db.rows, db.nextId, count)
      == ProcessItems(start, items, n, feedName, feedUrl, downloader, aria2.Some?, qbittorrent != null, env)
    }

    /** Iteration `i` of process_feed's loop: skip the item when its
        download URL already succeeded, else send it and count a send that
        returns; the table and count move from those of the first `i`
        iterations to those of the first `i + 1`. */
    method HandleItem(ghost start: Tally, items: seq<ParsedItem>, i: nat, feedName: string, feedUrl: string,
                      downloader: string, env: nat -> SendInputs, count: nat) returns (newCount: nat)
      requires Valid() && i < |items|
      requires Reached(start, items, i, feedName, feedUrl, downloader, env, count)
      modifies db
      ensures Valid()
      ensures Reached(start, items, i + 1, feedName, feedUrl, downloader, env, newCount)
    {
      ghost var expected := ProcessStep(Tally(db.rows, db.nextId, count), items[i], feedName, feedUrl, downloader,
                                        aria2.Some?, qbittorrent != null, env(i));
      assert expected == ProcessItems(start, items, i + 1, feedName, feedUrl, downloader, aria2.Some?,
                                      qbittorrent != null, env);
      var item := items[i];
      newCount := count;
      var done := db.IsDownloaded(item.downloadUrl);
      if !done {
        var result := Send(ItemOf(item, feedName, feedUrl), downloader, 0, env(i));
        if result.Sent? {
          newCount := count + 1;
        }
      }
    }

    /** The loop of process_feed over the matched items: the table and the
        success count become those ProcessItems gives, starting from the
        current table with no successes. */
    method HandleItems(items: seq<ParsedItem>, feedName: string, feedUrl: string, downloader: string,
                       env: nat -> SendInputs) returns (successes: nat)
      requires Valid()
      modifies db
      ensures Valid()
      ensures Tally(db.rows, db.nextId, successes)
              == ProcessItems(Tally(old(db.rows), old(db.nextId), 0), items, |items|, feedName, feedUrl, downloader,
                              aria2.Some?, qbittorrent != null, env)
    {
      ghost var start := Tally(db.rows, db.nextId, 0);
      successes := 0;
      var i := 0;
      while i < |items|
        invariant 0 <= i <= |items|
        invariant Valid()
        invariant Reached(start, items, i, feedName, feedUrl, downloader, env, successes)
      {
        successes := HandleItem(start, items, i, feedName, feedUrl, downloader, env, successes);
        i := i + 1;
      }
    }

    /** RSSDownloader.process_feed: parse the feed, then handle the matched
        items in order with the feed's downloader; returns (entries, matched
        items, successes). */
    method ProcessFeed(feedName: string, feedUrl: string, fetch: FeedFetch, now: int, env: nat -> SendInputs)
      returns (total: nat, matchedCount: nat, successes: nat)
      requires Valid()
      modifies db, parser
      ensures Valid()
      ensures var items := FeedItems(fetch, config.config.feeds, feedName, old(parser.cache), config.version, now);
              var t := ProcessItems(Tally(old(db.rows), old(db.nextId), 0), items, |items|, feedName, feedUrl,
                                    FeedDownloader(config.config.feeds, feedName).Name(), aria2.Some?,
                                    qbittorrent != null, env);
              && total == (if Unusable(fetch) then 0 else |fetch.entries|)
              && matchedCount == |items|
              && db.rows == t.rows && db.nextId == t.nextId && successes == t.successes
      ensures successes <= matchedCount <= total
      ensures old(db.rows) <= db.rows && AutoRowsFrom(db.rows, |old(db.rows)|)
      ensures parser.cache == old(parser.cache)
              || parser.cache == old(parser.cache)[(feedName, config.version)
                                                   := CachedOr(old(parser.cache), config.config.feeds, feedName, config.version)]
    {
      var matched;
      total, matched := parser.ParseFeed(config, feedName, fetch, now);
      var downloader := FeedDownloader(config.config.feeds, feedName).Name();
      successes := HandleItems(matched, feedName, feedUrl, downloader, env);
      matchedCount := |matched|;
      ProcessItemsBounds(Tally(old(db.rows), old(db.nextId), 0), matched, |matched|, feedName, feedUrl, downloader,
                         aria2.Some?, qbittorrent != null, env);
      ProcessItemsRows(Tally(old(db.rows), old(db.nextId), 0), matched, |matched|, feedName, feedUrl, downloader,
                       aria2.Some?, qbittorrent != null, env);
      NewRowsAreAuto(db.rows, |old(db.rows)|, feedName, downloader);
    }

    /** RSSDownloader.run: process the configured feeds in order and add up
        the three counts; an exception escaping process_feed (`failAt`, the
        position of the feed whose processing raises before it changes
        anything) is caught once around the loop, so later feeds are not
        processed. Returns the logged totals and the number of feeds
        processed. Every row the run adds is an automatic row for a
        download URL with no success recorded before it; the pattern cache
        keeps its entries and gains only entries for the current version
        holding the current rules. */
    method Run(fetches: nat -> FeedFetch, now: int, env: (nat, nat) -> SendInputs, failAt: Option<nat>)
      returns (count: nat, matched: nat, success: nat, processed: nat)
      requires Valid()
      modifies db, parser
      ensures Valid()
      ensures success <= matched <= count
      ensures processed == if failAt.Some? && failAt.value < |config.config.feeds| then failAt.value
                           else |config.config.feeds|
      ensures old(db.rows) <= db.rows && AutoRowsFrom(db.rows, |old(db.rows)|)
      ensures CacheExtends(old(parser.cache), parser.cache, config.config.feeds, config.version)
    {
      var feeds := config.config.feeds;
      var stop := if failAt.Some? && failAt.value < |feeds| then failAt.value else |feeds|;
      count, matched, success := 0, 0, 0;
      var k: nat := 0;
      while k < stop
        invariant k <= stop <= |feeds|
        invariant Valid() && feeds == config.config.feeds
        invariant success <= matched <= count
        invariant old(db.rows) <= db.rows && AutoRowsFrom(db.rows, |old(db.rows)|)
        invariant CacheExtends(old(parser.cache), parser.cache, config.config.feeds, config.version)
      {
        ghost var before, cacheBefore := db.rows, parser.cache;
        var c, m, s := ProcessFeed(feeds[k].name, feeds[k].url, fetches(k), now, (i: nat) => env(k, i));
        AutoRowsChain(before, db.rows, |old(db.rows)|);
        CacheExtendsStep(old(parser.cache), cacheBefore, parser.cache, feeds, config.version, feeds[k].name);
        count, matched, success := count + c, matched + m, success + s;
        k := k + 1;
      }
      processed := k;
    }
  }
}
