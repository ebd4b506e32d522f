/** web.py: the search page's parameter checks, date-range normalisation
    and pagination arithmetic, and the redownload route's parameter checks
    and status selection. Times are integer microseconds since a midnight
    (naive local datetimes, `time.max` being one microsecond before the
    next midnight). Templates, static files and the configuration routes
    are not modelled. */
module Web {
  import opened Common
  import opened Models
  import opened Ledger
  import opened Orchestrator

  /** Microseconds in a day. */
  const Day: int := 86_400_000_000

  /** `datetime.combine(t.date(), time.max)`: the last microsecond of t's day. */
  function EndOfDay(t: int): (r: int)
    ensures t <= r && r - t < Day
    ensures r / Day == t / Day && r % Day == Day - 1
  {
    t - t % Day + (Day - 1)
  }

  /** A time lies at or before the end of t's day iff its day is not later. */
  lemma AtOrBeforeEndOfDay(t: int, x: int)
    ensures x <= EndOfDay(t) <==> x / Day <= t / Day
  {
    var r := EndOfDay(t);
    if x <= r {
      assert x / Day <= r / Day;
    }
    if x / Day <= t / Day {
      assert x == (x / Day) * Day + x % Day;
      assert r == (t / Day) * Day + (Day - 1);
    }
  }

  /** Rounding an end bound twice is rounding it once. */
  lemma EndOfDayIdempotent(t: int)
    ensures EndOfDay(EndOfDay(t)) == EndOfDay(t)
  {
  }

  /** One (start, end) pair of `index`: swapped when both are given and
      start > end, then a given end is moved to the end of its day. */
  function NormalizeRange(start: Option<int>, end: Option<int>): (r: (Option<int>, Option<int>))
    ensures r.0.Some? <==> start.Some?
    ensures r.1.Some? <==> end.Some?
    ensures start.Some? && end.Some? ==>
              r.0.value == (if start.value <= end.value then start.value else end.value)
              && r.1.value == EndOfDay(if start.value <= end.value then end.value else start.value)
              && r.0.value <= r.1.value
    ensures !(start.Some? && end.Some?) ==>
              r.0 == start && (end.Some? ==> r.1 == Some(EndOfDay(end.value)))
  {
    var (s, e) := if start.Some? && end.Some? && start.value > end.value then (end, start) else (start, end);
    (s, if e.Some? then Some(EndOfDay(e.value)) else None)
  }

  /** With both bounds given, the normalised range holds exactly the times
      from the earlier bound up to the whole calendar day of the later one. */
  lemma NormalizedRangeContents(start: int, end: int, x: int)
    ensures var r := NormalizeRange(Some(start), Some(end));
            r.0.value <= x <= r.1.value
            <==> (if start <= end then start else end) <= x
                 && x / Day <= (if start <= end then end else start) / Day
  {
    AtOrBeforeEndOfDay(if start <= end then end else start, x);
  }

  /** Normalising an already normalised range changes nothing. */
  lemma NormalizeRangeIdempotent(start: Option<int>, end: Option<int>)
    ensures var r := NormalizeRange(start, end);
            NormalizeRange(r.0, r.1) == r
  {
    var r := NormalizeRange(start, end);
    if r.1.Some? {
      EndOfDayIdempotent(r.1.value);
      assert r.1.value == EndOfDay(r.1.value);
    }
  }

  /** The query parameters of `GET /`, after FastAPI's type conversion. */
  datatype IndexParams = IndexParams(
    page: int,
    limit: int,
    title: Option<string>,
    feedName: Option<string>,
    downloader: Option<string>,
    status: Option<int>,
    mode: Option<int>,
    publishedStart: Option<int>,
    publishedEnd: Option<int>,
    downloadStart: Option<int>,
    downloadEnd: Option<int>)

  /** The pattern `^(aria2|qbittorrent)?$`, matched against the whole value. */
  predicate DownloaderPattern(d: string)
  {
    d == "" || d == "aria2" || d == "qbittorrent"
  }

  /** An optional integer within lo..hi when given. */
  predicate InRange(o: Option<int>, lo: int, hi: int)
  {
    o.None? || lo <= o.value <= hi
  }

  /** The declared constraints: page >= 1, 1 <= limit <= 100, a downloader
      matching the pattern, status and mode in 0..1; a violation is
      answered 422 before the handler runs. */
  predicate IndexParamsValid(p: IndexParams)
  {
    && p.page >= 1
    && 1 <= p.limit <= 100
    && (p.downloader.None? || DownloaderPattern(p.downloader.value))
    && InRange(p.status, 0, 1)
    && InRange(p.mode, 0, 1)
  }

  /** `offset = (page - 1) * limit`: the rows of the earlier pages. */
  function Offset(page: int, limit: int): (r: int)
    requires page >= 1 && limit >= 1
    ensures r >= 0
    ensures page == 1 <==> r == 0
  {
    (page - 1) * limit
  }

  /** `total_pages = (total + limit - 1) // limit`. */
  function TotalPages(total: nat, limit: int): (r: int)
    requires limit >= 1
    ensures r >= 0
  {
    (total + limit - 1) / limit
  }

  /** The page count is the least number of pages of `limit` rows that hold
      `total` rows: none for no rows, otherwise the last page is non-empty. */
  lemma TotalPagesSpec(total: nat, limit: int)
    requires limit >= 1
    ensures TotalPages(total, limit) == 0 <==> total == 0
    ensures total > 0 ==> (TotalPages(total, limit) - 1) * limit < total <= TotalPages(total, limit) * limit
  {
    var n := total + limit - 1;
    var q := TotalPages(total, limit);
    var m := n % limit;
    assert n == q * limit + m && 0 <= m < limit;
    assert (q - 1) * limit == q * limit - limit;
    if q == 0 {
      assert q * limit == 0;
    }
  }

  /** `k * limit` grows with k. */
  lemma MulMonotone(a: int, b: int, limit: int)
    requires a <= b && limit >= 1
    ensures a * limit <= b * limit
  {
    assert b * limit - a * limit == (b - a) * limit;
  }

  /** A page starts inside the result set iff it is one of the first
      `total_pages` pages. */
  lemma PageWithinTotal(page: int, limit: int, total: nat)
    requires page >= 1 && limit >= 1
    ensures Offset(page, limit) < total <==> page <= TotalPages(total, limit)
  {
    var tp := TotalPages(total, limit);
    TotalPagesSpec(total, limit);
    if page <= tp {
      MulMonotone(page - 1, tp - 1, limit);
    } else {
      MulMonotone(tp, page - 1, limit);
    }
  }

  /** The rows of page `page` are non-empty exactly on pages 1..total_pages. */
  lemma PageNonEmpty(s: seq<Row>, page: int, limit: int)
    requires page >= 1 && limit >= 1
    ensures Page(s, limit, Offset(page, limit)) != [] <==> page <= TotalPages(|s|, limit)
  {
    PageWithinTotal(page, limit, |s|);
  }

  /** The search the handler asks for: the filters as given, each range
      normalised on its own. */
  function SearchQuery(p: IndexParams): (q: Query)
    ensures (q.publishedStart, q.publishedEnd) == NormalizeRange(p.publishedStart, p.publishedEnd)
    ensures (q.downloadStart, q.downloadEnd) == NormalizeRange(p.downloadStart, p.downloadEnd)
    ensures q.title == p.title && q.feedName == p.feedName && q.downloader == p.downloader
    ensures q.status == p.status && q.mode == p.mode
  {
    var (ps, pe) := NormalizeRange(p.publishedStart, p.publishedEnd);
    var (ds, de) := NormalizeRange(p.downloadStart, p.downloadEnd);
    Query(p.title, p.feedName, p.downloader, p.status, p.mode, ps, pe, ds, de)
  }

  /** Swapping the published bounds does not change which rows are found;
      the download bounds likewise. */
  lemma SearchIgnoresBoundOrder(p: IndexParams)
    ensures p.publishedStart.Some? == p.publishedEnd.Some? ==>
              SearchQuery(p) == SearchQuery(p.(publishedStart := p.publishedEnd, publishedEnd := p.publishedStart))
    ensures p.downloadStart.Some? == p.downloadEnd.Some? ==>
              SearchQuery(p) == SearchQuery(p.(downloadStart := p.downloadEnd, downloadEnd := p.downloadStart))
  {
  }

  /** What `index` renders: the 422 answer for rejected parameters, or the
      listing page. */
  datatype IndexPage =
    | Unprocessable
    | Listing(downloads: seq<Row>, page: int, offset: int, total: nat, totalPages: int, query: Query)

  /** web.py `index`: validate the parameters, compute the offset, normalise
      both ranges, search, and count the pages. A page holds the matching
      rows newest first, and it is non-empty exactly on pages
      1..total_pages. */
  method Index(db: Database, p: IndexParams) returns (r: IndexPage)
    ensures r.Unprocessable? <==> !IndexParamsValid(p)
    ensures r.Listing? ==>
              var q := SearchQuery(p);
              var found := SortByTimeDesc(Filter(db.rows, q));
              && r.query == q && r.page == p.page
              && r.offset == Offset(p.page, p.limit)
              && r.total == |found|
              && r.downloads == Page(found, p.limit, r.offset)
              && r.totalPages == TotalPages(r.total, p.limit)
              && (r.downloads != [] <==> p.page <= r.totalPages)
  {
    if !IndexParamsValid(p) {
      return Unprocessable;
    }
    var offset := Offset(p.page, p.limit);
    var (ps, pe) := NormalizeRange(p.publishedStart, p.publishedEnd);
    var (ds, de) := NormalizeRange(p.downloadStart, p.downloadEnd);
    var q := Query(p.title, p.feedName, p.downloader, p.status, p.mode, ps, pe, ds, de);
    var downloads, total := db.SearchDownloads(q, p.limit, offset);
    var totalPages := TotalPages(total, p.limit);
    PageNonEmpty(SortByTimeDesc(Filter(db.rows, q)), p.page, p.limit);
    r := Listing(downloads, p.page, offset, total, totalPages, q);
  }

  /** An ASCII decimal digit. */
  predicate IsDigit(c: char)
  {
    '0' <= c <= '9'
  }

  /** The value of a string of digits, most significant first. */
  function DigitsValue(s: string): (r: nat)
    requires forall i :: 0 <= i < |s| ==> IsDigit(s[i])
  {
    if s == [] then 0
    else
      assert IsDigit(s[|s| - 1]);
      DigitsValue(s[..|s| - 1]) * 10 + (s[|s| - 1] as int - '0' as int)
  }

  /** The decimal digits of n, most significant first, without leading zeros. */
  function Digits(n: nat): (r: string)
    ensures r != [] && forall i :: 0 <= i < |r| ==> IsDigit(r[i])
  {
    var d := ['0' + (n % 10) as char];
    if n < 10 then d else Digits(n / 10) + d
  }

  /** Reading the digits of n gives n back. */
  lemma {:induction false} DigitsRoundTrip(n: nat)
    ensures DigitsValue(Digits(n)) == n
  {
    var d := ['0' + (n % 10) as char];
    if n >= 10 {
      DigitsRoundTrip(n / 10);
      var s := Digits(n / 10) + d;
      assert s[..|s| - 1] == Digits(n / 10);
    }
  }

  /** `str(n)` for an int. */
  function ShowInt(n: int): (r: string)
  {
    if n < 0 then "-" + Digits(-n) else Digits(n)
  }

  /** `int(s)` for a str: optional surrounding white space, an optional
      sign, then ASCII digits; None where Python raises ValueError. */
  function DecimalValue(s: string): (r: Option<int>)
  {
    var t := Strip(s);
    var (negative, body) :=
      if t != [] && (t[0] == '-' || t[0] == '+') then (t[0] == '-', t[1..]) else (false, t);
    if body != [] && forall i :: 0 <= i < |body| ==> IsDigit(body[i]) then
      var v: int := DigitsValue(body);
      Some(if negative then -v else v)
    else None
  }

  /** `int(str(n)) == n`. */
  lemma DecimalRoundTrip(n: int)
    ensures DecimalValue(ShowInt(n)) == Some(n)
  {
    var s := ShowInt(n);
    assert !IsSpace(s[0]) && !IsSpace(s[|s| - 1]);
    StripUnpadded(s);
    if n < 0 {
      var body := s[1..];
      assert body == Digits(-n);
      DigitsRoundTrip(-n);
      DecimalValueSigned(s, true, body);
    } else {
      assert IsDigit(s[0]);
      DigitsRoundTrip(n);
      DecimalValueSigned(s, false, s);
    }
  }

  /** A stripped text made of an optional minus and ASCII digits reads as
      the digits' value, negated after the minus. */
  lemma DecimalValueSigned(s: string, negative: bool, body: string)
    requires Strip(s) == s
    requires body != [] && forall i :: 0 <= i < |body| ==> IsDigit(body[i])
    requires s == (if negative then "-" else "") + body
    ensures DecimalValue(s) == Some(if negative then -(DigitsValue(body) as int) else DigitsValue(body) as int)
  {
    if !negative {
      assert s == body && IsDigit(s[0]);
    } else {
      assert s[0] == '-' && s[1..] == body;
    }
  }

  /** `int(v)` on a JSON value: a bool counts as 0 or 1; a list, an object
      or null raises TypeError (None here). */
  function IntValue(v: Value): (r: Option<int>)
    ensures v.Int? ==> r == Some(v.i)
    ensures v.Null? || v.List? || v.Obj? ==> r.None?
  {
    match v
    case Int(i) => Some(i)
    case Bool(b) => Some(if b then 1 else 0)
    case Str(s) => DecimalValue(s)
    case _ => None
  }

  /** `data.get(key)`: the member, or None when absent. */
  function Member(fields: map<string, Value>, key: string): Value
  {
    if key in fields then fields[key] else Null
  }

  /** How the redownload route reads its JSON body. */
  datatype RedownloadRequest =
    | Unreadable                        // not an object: `.get` raises
    | Missing                           // id or downloader falsy
    | BadId                             // `int(id)` raises
    | Call(id: int, downloader: string)

  /** The body as redownload_item reads it. A downloader that is not a str
      equals neither name, as does the empty name it is read as; it is
      truthy either way, since falsy values are answered 400 first. */
  function ReadRequest(body: Value): (r: RedownloadRequest)
    ensures r.Missing? <==> body.Obj? && !(Truthy(Member(body.fields, "id")) && Truthy(Member(body.fields, "downloader")))
    ensures r.Call? ==> body.Obj? && IntValue(Member(body.fields, "id")) == Some(r.id)
                        && DownloaderNamed(r.downloader).Some?
                           == (Member(body.fields, "downloader") in {Str("aria2"), Str("qbittorrent")})
  {
    if !body.Obj? then Unreadable
    else
      var id := Member(body.fields, "id");
      var downloader := Member(body.fields, "downloader");
      if !(Truthy(id) && Truthy(downloader)) then Missing
      else match IntValue(id)
        case None => BadId
        case Some(n) => Call(n, if downloader.Str? then downloader.s else "")
  }

  /** The route's answer: 200 with a success message, 400 for a missing
      parameter, 500 "任务发送失败" when redownload returns a falsy value, 500
      "服务器发生意外错误" when anything raises. */
  datatype RouteReply = Success | BadRequest | SendFailed | UnexpectedError

  function StatusCode(r: RouteReply): int
  {
    match r
    case Success => 200
    case BadRequest => 400
    case _ => 500
  }

  /** The answer for a request and, when redownload was called, how it ended.
      redownload returns None when the send returned and raises in every
      other case (no record, no URL, a failed send, a record that does not
      validate); None is falsy. */
  function RouteAnswer(req: RedownloadRequest, outcome: Option<RedownloadOutcome>): RouteReply
  {
    match req
    case Missing => BadRequest
    case Call(_, _) =>
      if outcome.Some? && outcome.value.Resent? && outcome.value.result.Sent? then SendFailed
      else UnexpectedError
    case _ => UnexpectedError
  }

  /** As written the route never answers 200, and answers 400 exactly for a
      readable body missing id or downloader. */
  lemma RouteNeverSucceeds(body: Value, outcome: Option<RedownloadOutcome>)
    ensures StatusCode(RouteAnswer(ReadRequest(body), outcome)) != 200
    ensures StatusCode(RouteAnswer(ReadRequest(body), outcome)) == 400
            <==> body.Obj? && !(Truthy(Member(body.fields, "id")) && Truthy(Member(body.fields, "downloader")))
  {
  }

  /** web.py `redownload_item`: read the body, answer 400 when a parameter
      is missing, otherwise convert the id and call redownload; every other
      ending is a 500. redownload runs only for a readable request, and
      only then can the table change. */
  method RedownloadRoute(rss: RSSDownloader, body: Value, inp: SendInputs)
    returns (reply: RouteReply, called: Option<RedownloadOutcome>)
    requires rss.Valid()
    modifies rss.db
    ensures rss.Valid()
    ensures reply == RouteAnswer(ReadRequest(body), called)
    ensures called.Some? <==> ReadRequest(body).Call?
    ensures called.Some? ==>
              (called.value, rss.db.rows, rss.db.nextId)
              == RedownloadStep(old(rss.db.rows), old(rss.db.nextId), ReadRequest(body).id, ReadRequest(body).downloader,
                                rss.aria2.Some?, rss.qbittorrent != null, inp)
    ensures called.None? ==> rss.db.rows == old(rss.db.rows) && rss.db.nextId == old(rss.db.nextId)
    ensures called.Some? && !called.value.Resent? ==> rss.db.rows == old(rss.db.rows)
    ensures old(rss.db.rows) <= rss.db.rows && |rss.db.rows| <= |old(rss.db.rows)| + 1
  {
    var req := ReadRequest(body);
    called := None;
    if req.Call? {
      var outcome := rss.Redownload(req.id, req.downloader, inp);
      called := Some(outcome);
    }
    reply := RouteAnswer(req, called);
  }
}
