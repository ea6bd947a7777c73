/**
 * collector/max_connections.go: the connections left to ordinary users,
 * max_connections minus superuser_reserved_connections.
 */
module MaxConnectionsScraper {
  import opened Samples
  import opened Oracle
  import opened RowPolicies

  const MaxConnectionsSql := "show max_connections"
  const SuReservedSql := "show superuser_reserved_connections"

  /** showConnections: the first row's value, or "<sql> not found" when there are no rows. */
  function ShowConnections(q: QueryResult<real>, sql: string): Lookup<real>
  {
    FirstValue(q, 0.0, Some(sql + " not found"))
  }

  /**
   * Scrape: a failed max_connections lookup is returned with nothing sent;
   * a failed reserved lookup is only logged, and its zero is subtracted.
   */
  function Scraped(db: Database): ScrapeResult
  {
    var maxConn := ShowConnections(db.maxConnections, MaxConnectionsSql);
    if maxConn.err.Some? then ScrapeResult([], maxConn.err)
    else
      var reserved := ShowConnections(db.reservedConnections, SuReservedSql);
      ScrapeResult([Plain(MaxConnections, maxConn.value - reserved.value)], None)
  }

  method Scrape(db: Database) returns (out: seq<Sample>, err: Error)
    ensures ScrapeResult(out, err) == Scraped(db)
  {
    var maxConn, errM := ReadFirstValue(db.maxConnections, 0.0, Some(MaxConnectionsSql + " not found"));
    if errM.Some? {
      return [], errM;
    }
    var reserved, errR := ReadFirstValue(db.reservedConnections, 0.0, Some(SuReservedSql + " not found"));
    out := [Plain(MaxConnections, maxConn - reserved)];
    err := None;
  }

  /** The lookup: the query's error, the first row's value or error, or "<sql> not found"; zero unless it succeeds. */
  lemma ShowConnectionsCases(q: QueryResult<real>, sql: string)
    ensures q.QueryError? ==> ShowConnections(q, sql) == Lookup(0.0, Some(q.msg))
    ensures q == Rows([]) ==> ShowConnections(q, sql) == Lookup(0.0, Some(sql + " not found"))
    ensures q.Rows? && q.rows != [] && q.rows[0].Decoded? ==> ShowConnections(q, sql) == Lookup(q.rows[0].value, None)
    ensures q.Rows? && q.rows != [] && q.rows[0].DecodeError? ==> ShowConnections(q, sql) == Lookup(0.0, Some(q.rows[0].msg))
  {
  }

  /** A failed max_connections lookup is the scrape's error and nothing is sent. */
  lemma MaxFailureSendsNothing(db: Database)
    requires ShowConnections(db.maxConnections, MaxConnectionsSql).err.Some?
    ensures Scraped(db) == ScrapeResult([], ShowConnections(db.maxConnections, MaxConnectionsSql).err)
  {
  }

  /**
   * Once max_connections is read the scrape returns nil with one sample:
   * max minus reserved when both are read, and max itself when the reserved
   * lookup fails for any reason.
   */
  lemma AvailableConnections(db: Database)
    requires db.maxConnections.Rows? && db.maxConnections.rows != [] && db.maxConnections.rows[0].Decoded?
    ensures var mx := db.maxConnections.rows[0].value;
      var rq := db.reservedConnections;
      && Scraped(db).err == None
      && |Scraped(db).samples| == 1
      && Scraped(db).samples[0].metric == MaxConnections
      && (rq.Rows? && rq.rows != [] && rq.rows[0].Decoded? ==>
            Scraped(db).samples[0].value == mx - rq.rows[0].value)
      && (!(rq.Rows? && rq.rows != [] && rq.rows[0].Decoded?) ==>
            Scraped(db).samples[0].value == mx)
  {
  }

  /** Every sample carries as many label values as its Desc has label names. */
  lemma WellFormedSamples(db: Database)
    ensures AllWellFormed(Scraped(db).samples)
  {
  }
}
