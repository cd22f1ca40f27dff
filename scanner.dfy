/**
 * The market scan of app.py: keep the snapshot rows that rose more than 3%
 * on more than 2000 lots, turn each into a display record and drop the rows
 * whose record could not be built.
 */
module Scanner {
  import opened Wrappers
  import opened Rounding

  /**
   * One row of the whole-market snapshot, as a record of `to_dict('records')`.
   * The filter reads `return_rate` and `Volume` outside any error handler, so
   * those columns must exist; the other three may be missing (`None`), which
   * makes building the display record fail.
   */
  datatype SnapshotRow = SnapshotRow(
    stockId: Option<string>,
    stockName: Option<string>,
    close: Option<real>,
    returnRate: real,
    volume: real)

  /** The display record: code, name, price, change in percent, volume. */
  datatype ScanRecord = ScanRecord(code: string, name: string, price: real, changePct: real, volume: real)

  const MinReturnRate: real := 3.0
  const MinVolume: real := 2000.0

  /** Both thresholds are strict. */
  predicate PassesFilter(row: SnapshotRow) {
    row.returnRate > MinReturnRate && row.volume > MinVolume
  }

  /**
   * `df_all[(return_rate > 3) & (Volume > 2000)]`: the passing rows, in
   * their snapshot order.
   */
  function Potential(rows: seq<SnapshotRow>): (r: seq<SnapshotRow>)
    ensures |r| <= |rows|
    ensures forall k :: 0 <= k < |r| ==> r[k] in rows && PassesFilter(r[k])
    ensures forall row :: row in rows && PassesFilter(row) ==> row in r
  {
    if rows == [] then []
    else (if PassesFilter(rows[0]) then [rows[0]] else []) + Potential(rows[1..])
  }

  /**
   * `fetch_scanner_data(row)`: the display record with the return rounded to
   * two decimals (the nearest multiple of 0.01, an exact tie going to an even
   * last digit), or `None` when a column it reads is missing.
   */
  function FetchScannerData(row: SnapshotRow): (r: Option<ScanRecord>)
    ensures r.Some? <==> row.stockId.Some? && row.stockName.Some? && row.close.Some?
    ensures r.Some? ==> r.value.code == row.stockId.value && r.value.name == row.stockName.value
    ensures r.Some? ==> r.value.price == row.close.value && r.value.volume == row.volume
    ensures r.Some? ==> (r.value.changePct * 100.0).Floor as real == r.value.changePct * 100.0
    ensures r.Some? ==> Abs(r.value.changePct - row.returnRate) <= 0.005
    ensures r.Some? && Abs(r.value.changePct - row.returnRate) == 0.005 ==>
      (r.value.changePct * 100.0).Floor % 2 == 0
  {
    if row.stockId.None? || row.stockName.None? || row.close.None? then None
    else Some(ScanRecord(row.stockId.value, row.stockName.value, row.close.value,
                         Round2(row.returnRate), row.volume))
  }

  /** `executor.map(fetch_scanner_data, potential)`: one result per row, in order. */
  function FetchAll(rows: seq<SnapshotRow>): (results: seq<Option<ScanRecord>>)
    ensures |results| == |rows|
    ensures forall k :: 0 <= k < |rows| ==> results[k] == FetchScannerData(rows[k])
  {
    seq(|rows|, k requires 0 <= k < |rows| => FetchScannerData(rows[k]))
  }

  /** `[r for r in results if r is not None]`. */
  function DropFailed(results: seq<Option<ScanRecord>>): (r: seq<ScanRecord>)
    ensures |r| <= |results|
    ensures forall rec :: rec in r ==> Some(rec) in results
    ensures forall k :: 0 <= k < |results| && results[k].Some? ==> results[k].value in r
  {
    if results == [] then []
    else (if results[0].Some? then [results[0].value] else []) + DropFailed(results[1..])
  }

  /** The scan of a snapshot (app.py lines 103-108). */
  function Scan(rows: seq<SnapshotRow>): seq<ScanRecord> {
    DropFailed(FetchAll(Potential(rows)))
  }

  /**
   * A one-pass reference for the scan: a row contributes its record exactly
   * when it passes the filter and its record can be built.
   */
  function ScanOnePass(rows: seq<SnapshotRow>): seq<ScanRecord> {
    if rows == [] then []
    else
      var rec := FetchScannerData(rows[0]);
      (if PassesFilter(rows[0]) && rec.Some? then [rec.value] else []) + ScanOnePass(rows[1..])
  }

  lemma {:induction false} FetchAllConcat(a: seq<SnapshotRow>, b: seq<SnapshotRow>)
    ensures FetchAll(a + b) == FetchAll(a) + FetchAll(b)
  {
  }

  lemma {:induction false} DropFailedConcat(a: seq<Option<ScanRecord>>, b: seq<Option<ScanRecord>>)
    ensures DropFailed(a + b) == DropFailed(a) + DropFailed(b)
  {
    if a != [] {
      assert (a + b)[1..] == a[1..] + b;
      DropFailedConcat(a[1..], b);
    } else {
      assert a + b == b;
    }
  }

  /** The filter-map-drop pipeline equals the one-pass reference. */
  lemma {:induction false} ScanIsOnePass(rows: seq<SnapshotRow>)
    ensures Scan(rows) == ScanOnePass(rows)
  {
    if rows != [] {
      var head := if PassesFilter(rows[0]) then [rows[0]] else [];
      assert Potential(rows) == head + Potential(rows[1..]);
      FetchAllConcat(head, Potential(rows[1..]));
      DropFailedConcat(FetchAll(head), FetchAll(Potential(rows[1..])));
      ScanIsOnePass(rows[1..]);
    }
  }

  lemma {:induction false} ScanOnePassConcat(a: seq<SnapshotRow>, b: seq<SnapshotRow>)
    ensures ScanOnePass(a + b) == ScanOnePass(a) + ScanOnePass(b)
  {
    if a != [] {
      assert (a + b)[1..] == a[1..] + b;
      ScanOnePassConcat(a[1..], b);
    } else {
      assert a + b == b;
    }
  }

  /**
   * The scan keeps snapshot order: scanning two consecutive parts of a
   * snapshot and joining the results is scanning the whole.
   */
  lemma ScanPreservesOrder(a: seq<SnapshotRow>, b: seq<SnapshotRow>)
    ensures Scan(a + b) == Scan(a) + Scan(b)
  {
    ScanIsOnePass(a + b);
    ScanIsOnePass(a);
    ScanIsOnePass(b);
    ScanOnePassConcat(a, b);
  }

  /**
   * A record is in the scan exactly when some snapshot row passes both
   * strict thresholds and builds that record.
   */
  lemma {:induction false} ScanMembership(rows: seq<SnapshotRow>, rec: ScanRecord)
    ensures rec in Scan(rows) <==>
      exists k :: 0 <= k < |rows| && PassesFilter(rows[k]) && FetchScannerData(rows[k]) == Some(rec)
  {
    ScanIsOnePass(rows);
    OnePassMembership(rows, rec);
  }

  lemma {:induction false} OnePassMembership(rows: seq<SnapshotRow>, rec: ScanRecord)
    ensures rec in ScanOnePass(rows) <==>
      exists k :: 0 <= k < |rows| && PassesFilter(rows[k]) && FetchScannerData(rows[k]) == Some(rec)
  {
    if rows != [] {
      OnePassMembership(rows[1..], rec);
      if exists k :: 0 <= k < |rows| && PassesFilter(rows[k]) && FetchScannerData(rows[k]) == Some(rec) {
        var k :| 0 <= k < |rows| && PassesFilter(rows[k]) && FetchScannerData(rows[k]) == Some(rec);
        if k > 0 {
          assert rows[1..][k - 1] == rows[k];
        }
      }
      if exists k :: 0 <= k < |rows| - 1 && PassesFilter(rows[1..][k]) && FetchScannerData(rows[1..][k]) == Some(rec) {
        var k :| 0 <= k < |rows| - 1 && PassesFilter(rows[1..][k]) && FetchScannerData(rows[1..][k]) == Some(rec);
        assert rows[k + 1] == rows[1..][k];
      }
    }
  }

  /**
   * Every listed stock rose more than 3% on more than 2000 lots; after
   * rounding to two decimals its displayed change is at least 3.00.
   */
  lemma ScanRecordsMeetThresholds(rows: seq<SnapshotRow>, rec: ScanRecord)
    requires rec in Scan(rows)
    ensures rec.volume > MinVolume && rec.changePct >= MinReturnRate
  {
    ScanMembership(rows, rec);
    var k :| 0 <= k < |rows| && PassesFilter(rows[k]) && FetchScannerData(rows[k]) == Some(rec);
    Round2KeepsGridBound(rows[k].returnRate, 300);
  }

  /** A snapshot in which no row passes both thresholds gives an empty list, not an error. */
  lemma ScanOfQuietMarket(rows: seq<SnapshotRow>)
    requires forall k :: 0 <= k < |rows| ==> !PassesFilter(rows[k])
    ensures Scan(rows) == []
  {
    if Scan(rows) != [] {
      ScanMembership(rows, Scan(rows)[0]);
    }
  }
}
