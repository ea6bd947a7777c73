/**
 * collector/locks.go: one gauge per held or awaited lock, valued at the
 * start time of the holding statement or transaction.
 */
module LocksScraper {
  import opened Samples
  import opened Oracle
  import opened RowPolicies

  /** The nine label values of a lock, in the order of the Desc's label names. */
  function LockLabels(r: LockRow): seq<string>
  {
    [r.pid, r.datname, r.usename, r.locktype, r.mode, r.applicationName, r.state, r.lockStatus, r.query]
  }

  function LockSamples(r: LockRow): seq<Sample>
  {
    [Sample(LocksTableDetail, Gauge, r.startTime as real, LockLabels(r))]
  }

  /** Scrape: the version-gated lock query under the abort policy. */
  function Scraped(db: Database, ver: int): ScrapeResult
  {
    Abort(ForVersion(db.locks, ver), LockSamples)
  }

  method Scrape(db: Database, ver: int) returns (out: seq<Sample>, err: Error)
    ensures ScrapeResult(out, err) == Scraped(db, ver)
  {
    var q := ForVersion(db.locks, ver);
    if q.QueryError? {
      return [], Some(q.msg);
    }
    out, err := ScanUntilFailure(q.rows, LockSamples);
  }

  /** Over rows that all decode, the i-th sample is the i-th row's lock. */
  lemma {:induction false} OnePerRow(rows: seq<Row<LockRow>>)
    requires forall i :: 0 <= i < |rows| ==> rows[i].Decoded?
    ensures |EmitDecoded(rows, LockSamples)| == |rows|
    ensures forall i :: 0 <= i < |rows| ==> EmitDecoded(rows, LockSamples)[i] == LockSamples(rows[i].value)[0]
  {
    if rows != [] {
      var init := rows[..|rows| - 1];
      OnePerRow(init);
      assert EmitDecoded(rows, LockSamples) == EmitDecoded(init, LockSamples) + LockSamples(rows[|rows| - 1].value);
    }
  }

  /**
   * The rows before the first one Scan rejects each send one sample, valued
   * at the start time in Unix seconds and labelled with the nine columns;
   * that row's error is returned, or nil when every row decoded (no rows at
   * all included).
   */
  lemma SamplesBeforeFailure(db: Database, ver: int)
    requires ForVersion(db.locks, ver).Rows?
    ensures var rs := ForVersion(db.locks, ver).rows;
      var k := FailureIndex(rs);
      var r := Scraped(db, ver);
      && |r.samples| == k
      && (forall i :: 0 <= i < k ==>
            r.samples[i].metric == LocksTableDetail
            && r.samples[i].value == rs[i].value.startTime as real
            && r.samples[i].labels == LockLabels(rs[i].value))
      && (r.err.Some? <==> k < |rs|)
      && (k < |rs| ==> r.err == Some(rs[k].msg))
  {
    var rs := ForVersion(db.locks, ver).rows;
    var k := FailureIndex(rs);
    OnePerRow(rs[..k]);
  }

  /** A failed query sends nothing and returns its error. */
  lemma QueryFailureSendsNothing(db: Database, ver: int)
    requires ForVersion(db.locks, ver).QueryError?
    ensures Scraped(db, ver) == ScrapeResult([], Some(ForVersion(db.locks, ver).msg))
  {
  }

  /** Every sample carries as many label values as its Desc has label names. */
  lemma WellFormedSamples(db: Database, ver: int)
    ensures AllWellFormed(Scraped(db, ver).samples)
  {
    var q := ForVersion(db.locks, ver);
    if q.Rows? {
      var k := FailureIndex(q.rows);
      EmitDecodedWellFormed(q.rows[..k], LockSamples);
    }
  }
}
