/**
 * collector/connections.go: total, idle, active, running and waiting
 * sessions of the whole cluster, from the first row of one query.
 */
module ConnectionsScraper {
  import opened Samples
  import opened Oracle
  import opened RowPolicies

  const ConnectionsNotFound := "connections not found"

  function ConnectionSamples(r: ConnectionsRow): seq<Sample>
  {
    [ Plain(TotalConnections, r.total),
      Plain(IdleConnections, r.idle),
      Plain(ActiveConnections, r.active),
      Plain(RunningConnections, r.running),
      Plain(WaitingConnections, r.waiting) ]
  }

  /** Scrape: the first-row policy. The source's Scrape takes no version; this one has none to ignore. */
  function Scraped(db: Database): ScrapeResult
  {
    FirstRowOnly(db.connections, ConnectionSamples, ConnectionsNotFound)
  }

  method Scrape(db: Database) returns (out: seq<Sample>, err: Error)
    ensures ScrapeResult(out, err) == Scraped(db)
  {
    out, err := ReadFirstRow(db.connections, ConnectionSamples, ConnectionsNotFound);
  }

  /**
   * A decoded first row sends five gauges, total, idle, active, running and
   * waiting, and returns nil; any other outcome sends nothing and returns an
   * error: the query's, the first row's, or "connections not found".
   */
  lemma Outcomes(db: Database)
    ensures var r := Scraped(db);
      && (r.err == None <==> db.connections.Rows? && db.connections.rows != [] && db.connections.rows[0].Decoded?)
      && (r.err == None ==>
            var c := db.connections.rows[0].value;
            r.samples == [ Plain(TotalConnections, c.total), Plain(IdleConnections, c.idle),
                           Plain(ActiveConnections, c.active), Plain(RunningConnections, c.running),
                           Plain(WaitingConnections, c.waiting) ])
      && (r.err != None ==> r.samples == [])
      && (db.connections == Rows([]) ==> r.err == Some(ConnectionsNotFound))
  {
  }

  /** Rows after the first are never read. */
  lemma LaterRowsIgnored(db: Database, extra: seq<Row<ConnectionsRow>>)
    requires db.connections.Rows? && db.connections.rows != []
    ensures Scraped(db.(connections := Rows(db.connections.rows[..1] + extra))) == Scraped(db)
  {
  }

  /** Every sample carries as many label values as its Desc has label names. */
  lemma WellFormedSamples(db: Database)
    ensures AllWellFormed(Scraped(db).samples)
  {
  }
}
