/**
 * collector/dynamic_memory.go: dynamic memory used and available to query
 * processes on each host, from the gpperfmon memory_info table.
 */
module DynamicMemoryScraper {
  import opened Samples
  import opened Errors
  import opened Oracle
  import opened RowPolicies

  /** The used and available gauges of one host, labelled with its hostname. */
  function MemorySamples(r: DynamicMemoryRow): seq<Sample>
  {
    [ Labelled(DynamicMemoryUsed, r.used, r.hostname),
      Labelled(DynamicMemoryAvailable, r.available, r.hostname) ]
  }

  /** Scrape: the accumulate policy. */
  function Scraped(db: Database): ScrapeResult
  {
    Accumulate(db.dynamicMemory, MemorySamples)
  }

  method Scrape(db: Database) returns (out: seq<Sample>, err: Error)
    ensures ScrapeResult(out, err) == Scraped(db)
  {
    if db.dynamicMemory.QueryError? {
      return [], Some(db.dynamicMemory.msg);
    }
    var errs, decoded;
    out, errs, decoded := ScanAll(db.dynamicMemory.rows, MemorySamples);
    err := CombineErr(errs);
  }

  /**
   * Two gauges per decoded row; the error combines the failed rows' errors;
   * a failed query sends nothing.
   */
  lemma Outcomes(db: Database)
    ensures db.dynamicMemory.QueryError? ==> Scraped(db) == ScrapeResult([], Some(db.dynamicMemory.msg))
    ensures db.dynamicMemory.Rows? ==>
      && |Scraped(db).samples| == 2 * DecodedCount(db.dynamicMemory.rows)
      && Scraped(db).err == Combined(DecodeErrors(db.dynamicMemory.rows))
  {
    if db.dynamicMemory.Rows? {
      EmitDecodedLength(db.dynamicMemory.rows, MemorySamples, 2);
    }
  }

  /**
   * Every sample carries as many label values as its Desc has label names,
   * and that value is the hostname of the row that sent it.
   */
  lemma WellFormedSamples(db: Database)
    ensures AllWellFormed(Scraped(db).samples)
    ensures db.dynamicMemory.Rows? ==>
      forall k :: 0 <= k < |Scraped(db).samples| ==>
        exists i :: 0 <= i < |db.dynamicMemory.rows| && db.dynamicMemory.rows[i].Decoded?
          && Scraped(db).samples[k].labels == [db.dynamicMemory.rows[i].value.hostname]
  {
    if db.dynamicMemory.Rows? {
      var rows := db.dynamicMemory.rows;
      var out := EmitDecoded(rows, MemorySamples);
      assert Scraped(db).samples == out;
      EmitDecodedWellFormed(rows, MemorySamples);
      forall k | 0 <= k < |out|
        ensures exists i :: 0 <= i < |rows| && rows[i].Decoded? && out[k].labels == [rows[i].value.hostname]
      {
        var i := EmitDecodedSource(rows, MemorySamples, k);
      }
    }
  }
}
