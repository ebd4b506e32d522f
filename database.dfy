/** database.py: the `downloads` table, modelled in memory. Rows are
    appended with AUTOINCREMENT ids; `is_downloaded` looks for a successful
    row with the URL; `search_downloads` filters conjunctively, counts the
    filtered rows, sorts them by download time, newest first, and returns one
    LIMIT/OFFSET page. Whether SQLite accepts an insert is an input. */
module Ledger {
  import opened Common
  import opened Models

  /** A stored row: its id and the record. */
  datatype Row = Row(id: nat, rec: DownloadRecord)

  /** The filters of `search_downloads`; `None` is an argument left out. */
  datatype Query = Query(
    title: Option<string>,
    feedName: Option<string>,
    downloader: Option<string>,
    status: Option<int>,
    mode: Option<int>,
    publishedStart: Option<int>,
    publishedEnd: Option<int>,
    downloadStart: Option<int>,
    downloadEnd: Option<int>)

  /** A query without filters. */
  const NoFilters: Query := Query(None, None, None, None, None, None, None, None, None)

  /** A text filter applies only when given and non-empty (`if title:`). */
  predicate TextGiven(o: Option<string>)
  {
    o.Some? && o.value != ""
  }

  /** The WHERE clause: every applicable filter holds. The title and
      feed-name LIKE filters are substring tests; status and mode filter
      whenever given, 0 included; the time bounds are inclusive. */
  predicate Selects(q: Query, r: DownloadRecord)
  {
    && (TextGiven(q.title) ==> Contains(r.title, q.title.value))
    && (TextGiven(q.feedName) ==> Contains(r.feedName, q.feedName.value))
    && (TextGiven(q.downloader) ==> r.downloader == q.downloader.value)
    && (q.status.Some? ==> r.status == q.status.value)
    && (q.mode.Some? ==> r.mode == q.mode.value)
    && (q.publishedStart.Some? ==> r.publishedTime >= q.publishedStart.value)
    && (q.publishedEnd.Some? ==> r.publishedTime <= q.publishedEnd.value)
    && (q.downloadStart.Some? ==> r.downloadTime >= q.downloadStart.value)
    && (q.downloadEnd.Some? ==> r.downloadTime <= q.downloadEnd.value)
  }

  /** The rows the WHERE clause keeps, in table order. */
  function Filter(rows: seq<Row>, q: Query): (r: seq<Row>)
    ensures |r| <= |rows|
    ensures forall x :: x in r <==> x in rows && Selects(q, x.rec)
  {
    if rows == [] then []
    else
      var rest := Filter(rows[..|rows| - 1], q);
      var last := rows[|rows| - 1];
      assert forall x :: x in rows <==> x in rows[..|rows| - 1] || x == last;
      if Selects(q, last.rec) then rest + [last] else rest
  }

  /** Rows ordered by download time, newest first. */
  predicate SortedByTimeDesc(s: seq<Row>)
  {
    forall i, j :: 0 <= i < j < |s| ==> s[i].rec.downloadTime >= s[j].rec.downloadTime
  }

  /** A sequence with the same rows as `s` plus `x` keeps an upper bound
      on the download time that `s` and `x` respect. */
  lemma TimeBoundKept(r: seq<Row>, s: seq<Row>, x: Row, t: int)
    requires multiset(r) == multiset(s) + multiset{x}
    requires forall k :: 0 <= k < |s| ==> s[k].rec.downloadTime <= t
    requires x.rec.downloadTime <= t
    ensures forall k :: 0 <= k < |r| ==> r[k].rec.downloadTime <= t
  {
    forall k | 0 <= k < |r| ensures r[k].rec.downloadTime <= t {
      assert r[k] in multiset(r);
      if r[k] != x {
        assert r[k] in multiset(s);
        var j :| 0 <= j < |s| && s[j] == r[k];
      }
    }
  }

  /** A row at least as recent as every row of a sorted sequence can lead it. */
  lemma ConsSorted(h: Row, s: seq<Row>)
    requires SortedByTimeDesc(s)
    requires forall k :: 0 <= k < |s| ==> s[k].rec.downloadTime <= h.rec.downloadTime
    ensures SortedByTimeDesc([h] + s)
  {
    var r := [h] + s;
    forall i, j | 0 <= i < j < |r| ensures r[i].rec.downloadTime >= r[j].rec.downloadTime {
      assert r[j] == s[j - 1];
      if i > 0 {
        assert r[i] == s[i - 1];
      }
    }
  }

  /** Places `x` after every row at least as recent. */
  function InsertByTime(x: Row, s: seq<Row>): (r: seq<Row>)
    requires SortedByTimeDesc(s)
    ensures SortedByTimeDesc(r)
    ensures multiset(r) == multiset(s) + multiset{x}
    ensures |r| == |s| + 1
  {
    if s == [] then [x]
    else if s[0].rec.downloadTime >= x.rec.downloadTime then
      var rest := InsertByTime(x, s[1..]);
      assert s == [s[0]] + s[1..];
      TimeBoundKept(rest, s[1..], x, s[0].rec.downloadTime);
      ConsSorted(s[0], rest);
      [s[0]] + rest
    else
      ConsSorted(x, s);
      [x] + s
  }

  /** `ORDER BY download_time DESC`; rows with equal times keep table order. */
  function SortByTimeDesc(s: seq<Row>): (r: seq<Row>)
    ensures SortedByTimeDesc(r)
    ensures multiset(r) == multiset(s)
    ensures |r| == |s|
  {
    if s == [] then []
    else
      assert s == s[..|s| - 1] + [s[|s| - 1]];
      InsertByTime(s[|s| - 1], SortByTimeDesc(s[..|s| - 1]))
  }

  /** `LIMIT limit OFFSET offset` as SQLite reads them: a negative limit is
      no limit, a negative offset is 0. */
  function Page(s: seq<Row>, limit: int, offset: int): (r: seq<Row>)
    ensures |r| <= |s|
    ensures limit >= 0 ==> |r| <= limit
    ensures forall x :: x in r ==> x in s
  {
    var from := if offset < 0 then 0 else if offset > |s| then |s| else offset;
    var to := if limit < 0 || from + limit > |s| then |s| else from + limit;
    s[from..to]
  }

  /** The record stored under `id`. */
  function RecordWithId(rows: seq<Row>, id: int): (r: Option<Row>)
    ensures r.Some? ==> r.value in rows && r.value.id == id
    ensures r.None? <==> forall i :: 0 <= i < |rows| ==> rows[i].id != id
  {
    if rows == [] then None
    else if rows[0].id == id then Some(rows[0])
    else
      assert forall i :: 1 <= i < |rows| ==> rows[i] == rows[1..][i - 1];
      RecordWithId(rows[1..], id)
  }

  /** Some successful row carries `url` as its download URL. */
  predicate HasSuccess(rows: seq<Row>, url: string)
  {
    exists i :: 0 <= i < |rows| && rows[i].rec.downloadUrl == url && rows[i].rec.status == 1
  }

  /** The rows a table can hold below `bound`, read from the newest back:
      each id is positive and smaller than the next one (or than `bound`
      for the newest), and each record passed DownloadRecord's validation. */
  predicate StoredRows(rows: seq<Row>, bound: int)
  {
    rows == []
    || (var last := rows[|rows| - 1];
        && 0 < last.id < bound
        && ValidRecord(last.rec)
        && StoredRows(rows[..|rows| - 1], last.id))
  }

  /** Every record of StoredRows passed validation. */
  lemma {:induction false} StoredRowsValid(rows: seq<Row>, bound: int)
    requires StoredRows(rows, bound)
    ensures forall i :: 0 <= i < |rows| ==> ValidRecord(rows[i].rec)
  {
    if rows != [] {
      var p := rows[..|rows| - 1];
      StoredRowsValid(p, rows[|rows| - 1].id);
      forall i | 0 <= i < |rows| - 1 ensures ValidRecord(rows[i].rec) {
        assert rows[i] == p[i];
      }
    }
  }

  /** Every id of StoredRows is positive and below the bound. */
  lemma {:induction false} StoredRowsBelow(rows: seq<Row>, bound: int)
    requires StoredRows(rows, bound)
    ensures forall i :: 0 <= i < |rows| ==> 0 < rows[i].id < bound
  {
    if rows != [] {
      var p := rows[..|rows| - 1];
      StoredRowsBelow(p, rows[|rows| - 1].id);
      forall i | 0 <= i < |rows| - 1 ensures 0 < rows[i].id < bound {
        assert rows[i] == p[i];
      }
    }
  }

  /** Ids increase along StoredRows: an earlier row has a smaller id. */
  lemma {:induction false} StoredRowsIncreasing(rows: seq<Row>, bound: int, i: nat, j: nat)
    requires StoredRows(rows, bound) && i < j < |rows|
    ensures rows[i].id < rows[j].id
  {
    var p := rows[..|rows| - 1];
    assert rows[i] == p[i];
    if j == |rows| - 1 {
      StoredRowsBelow(p, rows[j].id);
    } else {
      assert rows[j] == p[j];
      StoredRowsIncreasing(p, rows[|rows| - 1].id, i, j);
    }
  }

  /** In StoredRows the row with a given id is the only one. */
  lemma RecordWithIdUnique(rows: seq<Row>, bound: int, k: nat)
    requires StoredRows(rows, bound) && k < |rows|
    ensures RecordWithId(rows, rows[k].id) == Some(rows[k])
  {
    var r := RecordWithId(rows, rows[k].id);
    var i :| 0 <= i < |rows| && rows[i] == r.value;
    if i < k {
      StoredRowsIncreasing(rows, bound, i, k);
    } else if k < i {
      StoredRowsIncreasing(rows, bound, k, i);
    }
  }

  class Database {
    var rows: seq<Row>
    /** The next AUTOINCREMENT id. */
    var nextId: nat

    /** Ids are increasing and every stored row passed DownloadRecord's
        validation, which `insert`'s parameter type guarantees. */
    predicate Valid()
      reads this
    {
      nextId >= 1 && StoredRows(rows, nextId)
    }

    /** Database(db_path): CREATE TABLE IF NOT EXISTS keeps whatever the
        file already holds. `stored` and `next` are that file's rows and
        AUTOINCREMENT sequence; a new file has `[]` and 1. */
    constructor (stored: seq<Row>, next: nat)
      requires next >= 1 && StoredRows(stored, next)
      ensures Valid() && rows == stored && nextId == next
    {
      rows := stored;
      nextId := next;
    }

    /** Database.reset: DROP TABLE, then CREATE TABLE; dropping the table
        also forgets its AUTOINCREMENT sequence. */
    method Reset()
      modifies this
      ensures Valid() && rows == [] && nextId == 1
    {
      rows := [];
      nextId := 1;
    }

    /** Database.insert: on success one row is appended under a fresh id,
        larger than every earlier id, which is returned; on failure 0 is
        returned and the table is unchanged. */
    method Insert(rec: DownloadRecord, storageOk: bool) returns (id: nat)
      requires Valid() && ValidRecord(rec)
      modifies this
      ensures Valid()
      ensures storageOk ==> id > 0 && rows == old(rows) + [Row(id, rec)]
                            && forall i :: 0 <= i < |old(rows)| ==> old(rows)[i].id < id
      ensures storageOk ==> id == old(nextId) && nextId == old(nextId) + 1
      ensures !storageOk ==> id == 0 && rows == old(rows) && nextId == old(nextId)
    {
      if !storageOk {
        return 0;
      }
      StoredRowsBelow(rows, nextId);
      id := nextId;
      assert (rows + [Row(id, rec)])[..|rows|] == rows;
      rows := rows + [Row(id, rec)];
      nextId := nextId + 1;
    }

    /** Database.is_downloaded: `COUNT(*) > 0` over successful rows with
        this download URL. */
    method IsDownloaded(url: string) returns (b: bool)
      ensures b <==> HasSuccess(rows, url)
    {
      var count := 0;
      var i := 0;
      while i < |rows|
        invariant 0 <= i <= |rows|
        invariant count > 0 <==> HasSuccess(rows[..i], url)
      {
        if rows[i].rec.status == 1 && rows[i].rec.downloadUrl == url {
          count := count + 1;
        }
        assert forall j :: 0 <= j < i ==> rows[..i + 1][j] == rows[..i][j];
        i := i + 1;
      }
      assert rows[..i] == rows;
      b := count > 0;
    }

    /** Database.search_download_by_id. */
    method SearchById(id: int) returns (r: Option<Row>)
      ensures r == RecordWithId(rows, id)
    {
      var i := 0;
      while i < |rows|
        invariant 0 <= i <= |rows|
        invariant RecordWithId(rows, id) == RecordWithId(rows[i..], id)
      {
        if rows[i].id == id {
          return Some(rows[i]);
        }
        assert rows[i..][1..] == rows[i + 1..];
        i := i + 1;
      }
      return None;
    }

    /** Database.search_downloads: the WHERE clause collected row by row,
        the count before paging, then one page of the rows sorted newest
        first. */
    method SearchDownloads(q: Query, limit: int, offset: int) returns (results: seq<Row>, total: nat)
      ensures total == |Filter(rows, q)|
      ensures results == Page(SortByTimeDesc(Filter(rows, q)), limit, offset)
      ensures |results| <= total && (limit >= 0 ==> |results| <= limit)
      ensures forall x :: x in results ==> x in rows && Selects(q, x.rec)
    {
      var filtered: seq<Row> := [];
      var i := 0;
      while i < |rows|
        invariant 0 <= i <= |rows|
        invariant filtered == Filter(rows[..i], q)
      {
        assert rows[..i + 1][..i] == rows[..i];
        if Selects(q, rows[i].rec) {
          filtered := filtered + [rows[i]];
        }
        i := i + 1;
      }
      assert rows[..i] == rows;
      total := |filtered|;
      var sorted := SortByTimeDesc(filtered);
      results := Page(sorted, limit, offset);
      forall x | x in results ensures x in rows && Selects(q, x.rec) {
        assert x in multiset(sorted);
      }
    }
  }

  /** After an insert that returned `id`, the table still holds StoredRows
      and looking `id` up gives the record. */
  lemma InsertedIsFound(rows: seq<Row>, nextId: nat, rec: DownloadRecord)
    requires StoredRows(rows, nextId) && nextId >= 1 && ValidRecord(rec)
    ensures StoredRows(rows + [Row(nextId, rec)], nextId + 1)
    ensures RecordWithId(rows + [Row(nextId, rec)], nextId) == Some(Row(nextId, rec))
  {
    var s := rows + [Row(nextId, rec)];
    assert s[..|rows|] == rows;
    RecordWithIdUnique(s, nextId + 1, |rows|);
  }

  /** Appending a row makes a URL count as downloaded iff it already did or
      the row is a success for it; in particular failed rows never count. */
  lemma HasSuccessAppend(rows: seq<Row>, r: Row, url: string)
    ensures HasSuccess(rows + [r], url) <==> HasSuccess(rows, url) || (r.rec.downloadUrl == url && r.rec.status == 1)
  {
    var s := rows + [r];
    if HasSuccess(s, url) {
      var i :| 0 <= i < |s| && s[i].rec.downloadUrl == url && s[i].rec.status == 1;
      if i < |rows| {
        assert rows[i] == s[i];
      }
    }
    if HasSuccess(rows, url) {
      var i :| 0 <= i < |rows| && rows[i].rec.downloadUrl == url && rows[i].rec.status == 1;
      assert s[i] == rows[i];
    }
    if r.rec.downloadUrl == url && r.rec.status == 1 {
      assert s[|rows|] == r;
    }
  }

  /** Without filters every row is counted. */
  lemma {:induction false} NoFiltersSelectAll(rows: seq<Row>)
    ensures Filter(rows, NoFilters) == rows
  {
    if rows != [] {
      NoFiltersSelectAll(rows[..|rows| - 1]);
      assert rows == rows[..|rows| - 1] + [rows[|rows| - 1]];
    }
  }
}
