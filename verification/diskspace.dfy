/**
 * collector/diskspace.go: total, used and available bytes of every file
 * system of every host, from the gpperfmon diskspace_now table.
 */
module DiskSpaceScraper {
  import opened Samples
  import opened Errors
  import opened Oracle
  import opened RowPolicies

  /** The three gauges of one file system, labelled hostname then file system. */
  function DiskSamples(r: DiskSpaceRow): seq<Sample>
  {
    [ Sample(FsTotal, Gauge, r.total, [r.hostname, r.fs]),
      Sample(FsUsed, Gauge, r.used, [r.hostname, r.fs]),
      Sample(FsAvailable, Gauge, r.available, [r.hostname, r.fs]) ]
  }

  /** Scrape: the accumulate policy. */
  function Scraped(db: Database): ScrapeResult
  {
    Accumulate(db.diskSpace, DiskSamples)
  }

  method Scrape(db: Database) returns (out: seq<Sample>, err: Error)
    ensures ScrapeResult(out, err) == Scraped(db)
  {
    if db.diskSpace.QueryError? {
      return [], Some(db.diskSpace.msg);
    }
    var errs, decoded;
    out, errs, decoded := ScanAll(db.diskSpace.rows, DiskSamples);
    err := CombineErr(errs);
  }

  /**
   * Three gauges per decoded row, labelled (hostname, file system); the
   * error combines the failed rows' errors, so no rows gives nil; a failed
   * query sends nothing.
   */
  lemma Outcomes(db: Database)
    ensures db.diskSpace.QueryError? ==> Scraped(db) == ScrapeResult([], Some(db.diskSpace.msg))
    ensures db.diskSpace.Rows? ==>
      && |Scraped(db).samples| == 3 * DecodedCount(db.diskSpace.rows)
      && Scraped(db).err == Combined(DecodeErrors(db.diskSpace.rows))
    ensures db.diskSpace == Rows([]) ==> Scraped(db) == ScrapeResult([], None)
  {
    if db.diskSpace.Rows? {
      EmitDecodedLength(db.diskSpace.rows, DiskSamples, 3);
    }
  }

  /**
   * Every sample carries as many label values as its Desc has label names,
   * and those values are the hostname and file system of the row that sent it.
   */
  lemma WellFormedSamples(db: Database)
    ensures AllWellFormed(Scraped(db).samples)
    ensures db.diskSpace.Rows? ==>
      forall k :: 0 <= k < |Scraped(db).samples| ==>
        exists i :: 0 <= i < |db.diskSpace.rows| && db.diskSpace.rows[i].Decoded?
          && Scraped(db).samples[k].labels == [db.diskSpace.rows[i].value.hostname, db.diskSpace.rows[i].value.fs]
  {
    if db.diskSpace.Rows? {
      var rows := db.diskSpace.rows;
      var out := EmitDecoded(rows, DiskSamples);
      assert Scraped(db).samples == out;
      EmitDecodedWellFormed(rows, DiskSamples);
      forall k | 0 <= k < |out|
        ensures exists i :: 0 <= i < |rows| && rows[i].Decoded? && out[k].labels == [rows[i].value.hostname, rows[i].value.fs]
      {
        var i := EmitDecodedSource(rows, DiskSamples, k);
      }
    }
  }
}
