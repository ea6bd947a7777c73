/**
 * collector/queries.go: total, running and queued queries from the first
 * row of the gpperfmon database_now table.
 */
module QueriesScraper {
  import opened Samples
  import opened Oracle
  import opened RowPolicies

  const QueriesNotFound := "queries info not found"

  /** NULL columns are sent as 0. */
  function QueriesSamples(r: QueriesRow): seq<Sample>
  {
    [ Plain(TotalQueries, NullFloat(r.total)),
      Plain(RunningQueries, NullFloat(r.running)),
      Plain(QueuedQueries, NullFloat(r.queued)) ]
  }

  /** Scrape: the first-row policy. */
  function Scraped(db: Database): ScrapeResult
  {
    FirstRowOnly(db.queries, QueriesSamples, QueriesNotFound)
  }

  method Scrape(db: Database) returns (out: seq<Sample>, err: Error)
    ensures ScrapeResult(out, err) == Scraped(db)
  {
    out, err := ReadFirstRow(db.queries, QueriesSamples, QueriesNotFound);
  }

  /**
   * A decoded first row sends three gauges and returns nil, a NULL column
   * being 0; any other outcome sends nothing and returns an error: the
   * query's, the first row's, or "queries info not found".
   */
  lemma Outcomes(db: Database)
    ensures var r := Scraped(db);
      && (r.err == None <==> db.queries.Rows? && db.queries.rows != [] && db.queries.rows[0].Decoded?)
      && (r.err == None ==>
            var q := db.queries.rows[0].value;
            && |r.samples| == 3
            && r.samples[0] == Plain(TotalQueries, if q.total.Some? then q.total.value else 0.0)
            && r.samples[1] == Plain(RunningQueries, if q.running.Some? then q.running.value else 0.0)
            && r.samples[2] == Plain(QueuedQueries, if q.queued.Some? then q.queued.value else 0.0))
      && (r.err != None ==> r.samples == [])
      && (db.queries == Rows([]) ==> r.err == Some(QueriesNotFound))
  {
  }

  /** The sample time column is read but sent nowhere. */
  lemma SampleTimeIgnored(r: QueriesRow, t: string)
    ensures QueriesSamples(r.(cTime := t)) == QueriesSamples(r)
  {
  }

  /** Every sample carries as many label values as its Desc has label names. */
  lemma WellFormedSamples(db: Database)
    ensures AllWellFormed(Scraped(db).samples)
  {
  }
}
