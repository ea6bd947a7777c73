/**
 * collector/connections_detail.go: total, idle and active sessions per user
 * and per client address, with the number of users and clients seen.
 */
module ConnectionsDetailScraper {
  import opened Samples
  import opened Errors
  import opened Oracle
  import opened RowPolicies

  function UserSamples(r: UserLoadRow): seq<Sample>
  {
    [ Labelled(TotalConnectionsPerUser, r.total, r.usename),
      Labelled(IdleConnectionsPerUser, r.idle, r.usename),
      Labelled(ActiveConnectionsPerUser, r.active, r.usename) ]
  }

  /** The three gauges of one client address; a NULL address is the empty label. */
  function ClientSamples(r: ClientLoadRow): seq<Sample>
  {
    [ Labelled(TotalConnectionsPerClient, r.total, NullString(r.client)),
      Labelled(IdleConnectionsPerClient, r.idle, NullString(r.client)),
      Labelled(ActiveConnectionsPerClient, r.active, NullString(r.client)) ]
  }

  /**
   * The per-client loop has no `continue` after a failed Scan: every row is
   * sent, a failed one with whatever Scan had stored before it gave up.
   */
  function AllClientSamples(rows: seq<Row<ClientLoadRow>>): seq<Sample>
  {
    if rows == [] then [] else AllClientSamples(rows[..|rows| - 1]) + ClientSamples(Scanned(rows[|rows| - 1]))
  }

  /** scrapeLoadByUser: the accumulate policy, then the count of decoded users. */
  function LoadByUser(db: Database): ScrapeResult
  {
    match db.loadByUser
    case QueryError(m) => ScrapeResult([], Some(m))
    case Rows(rs) =>
      ScrapeResult(EmitDecoded(rs, UserSamples) + [Plain(TotalOnlineUserCount, DecodedCount(rs) as real)],
                   Combined(DecodeErrors(rs)))
  }

  /** scrapeLoadByClient: every row is sent and counted; the failed ones' errors are combined. */
  function LoadByClient(db: Database): ScrapeResult
  {
    match db.loadByClient
    case QueryError(m) => ScrapeResult([], Some(m))
    case Rows(rs) =>
      ScrapeResult(AllClientSamples(rs) + [Plain(TotalClientCount, |rs| as real)], Combined(DecodeErrors(rs)))
  }

  /** Scrape: both lookups always run; the client error comes first in the combined error. */
  function Scraped(db: Database): ScrapeResult
  {
    var u := LoadByUser(db);
    var c := LoadByClient(db);
    ScrapeResult(u.samples + c.samples, Combined([c.err, u.err]))
  }

  method ScrapeLoadByUser(db: Database) returns (out: seq<Sample>, err: Error)
    ensures ScrapeResult(out, err) == LoadByUser(db)
  {
    if db.loadByUser.QueryError? {
      return [], Some(db.loadByUser.msg);
    }
    var errs, totalOnlineUserCount;
    out, errs, totalOnlineUserCount := ScanAll(db.loadByUser.rows, UserSamples);
    out := out + [Plain(TotalOnlineUserCount, totalOnlineUserCount as real)];
    err := CombineErr(errs);
  }

  method ScrapeLoadByClient(db: Database) returns (out: seq<Sample>, err: Error)
    ensures ScrapeResult(out, err) == LoadByClient(db)
  {
    if db.loadByClient.QueryError? {
      return [], Some(db.loadByClient.msg);
    }
    var rows := db.loadByClient.rows;
    var errs: seq<Error> := [];
    var totalClientCount: nat := 0;
    out := [];
    for i := 0 to |rows|
      invariant out == AllClientSamples(rows[..i])
      invariant errs == DecodeErrors(rows[..i])
      invariant totalClientCount == i
    {
      assert rows[..i + 1][..i] == rows[..i];
      if rows[i].DecodeError? {
        errs := errs + [Some(rows[i].msg)];
      }
      out := out + ClientSamples(Scanned(rows[i]));
      totalClientCount := totalClientCount + 1;
    }
    assert rows[..|rows|] == rows;
    out := out + [Plain(TotalClientCount, totalClientCount as real)];
    err := CombineErr(errs);
  }

  method Scrape(db: Database) returns (out: seq<Sample>, err: Error)
    ensures ScrapeResult(out, err) == Scraped(db)
  {
    var outU, errU := ScrapeLoadByUser(db);
    var outC, errC := ScrapeLoadByClient(db);
    out := outU + outC;
    err := CombineErr([errC, errU]);
  }

  lemma {:induction false} AllClientSamplesLength(rows: seq<Row<ClientLoadRow>>)
    ensures |AllClientSamples(rows)| == 3 * |rows|
    ensures AllWellFormed(AllClientSamples(rows))
  {
    if rows != [] {
      AllClientSamplesLength(rows[..|rows| - 1]);
      WellFormedAppend(AllClientSamples(rows[..|rows| - 1]), ClientSamples(Scanned(rows[|rows| - 1])));
    }
  }

  /**
   * Per user: three gauges per decoded row, then one count equal to the
   * number of decoded rows. A failed query sends nothing, not even the count.
   */
  lemma UserCounts(db: Database)
    ensures db.loadByUser.QueryError? ==> LoadByUser(db) == ScrapeResult([], Some(db.loadByUser.msg))
    ensures db.loadByUser.Rows? ==>
      var ss := LoadByUser(db).samples;
      var n := DecodedCount(db.loadByUser.rows);
      && |ss| == 3 * n + 1
      && ss[|ss| - 1] == Plain(TotalOnlineUserCount, n as real)
  {
    if db.loadByUser.Rows? {
      EmitDecodedLength(db.loadByUser.rows, UserSamples, 3);
    }
  }

  /**
   * Per client: three gauges for every row, decoded or not, then one count
   * equal to the number of rows. A failed query sends nothing.
   */
  lemma ClientCounts(db: Database)
    ensures db.loadByClient.QueryError? ==> LoadByClient(db) == ScrapeResult([], Some(db.loadByClient.msg))
    ensures db.loadByClient.Rows? ==>
      var ss := LoadByClient(db).samples;
      var rs := db.loadByClient.rows;
      && |ss| == 3 * |rs| + 1
      && ss[|ss| - 1] == Plain(TotalClientCount, |rs| as real)
  {
    if db.loadByClient.Rows? {
      AllClientSamplesLength(db.loadByClient.rows);
    }
  }

  /** A client row Scan rejects still sends its three gauges, from the partially scanned values, and leaves its error. */
  lemma FailedClientRowStillSent(a: seq<Row<ClientLoadRow>>, m: string, p: ClientLoadRow)
    ensures AllClientSamples(a + [DecodeError(m, p)]) == AllClientSamples(a) + ClientSamples(p)
    ensures DecodeErrors(a + [DecodeError(m, p)]) == DecodeErrors(a) + [Some(m)]
  {
    assert (a + [DecodeError(m, p)])[..|a|] == a;
  }

  /** A NULL client address is sent as the empty label. */
  lemma NullClientIsEmptyLabel(r: ClientLoadRow)
    requires r.client.None?
    ensures forall i :: 0 <= i < |ClientSamples(r)| ==> ClientSamples(r)[i].labels == [""]
  {
  }

  /** Every sample carries as many label values as its Desc has label names. */
  lemma WellFormedSamples(db: Database)
    ensures AllWellFormed(Scraped(db).samples)
  {
    UserSamplesWellFormed(db);
    ClientSamplesWellFormed(db);
    WellFormedAppend(LoadByUser(db).samples, LoadByClient(db).samples);
  }

  lemma UserSamplesWellFormed(db: Database)
    ensures AllWellFormed(LoadByUser(db).samples)
  {
    if db.loadByUser.Rows? {
      var rs := db.loadByUser.rows;
      EmitDecodedWellFormed(rs, UserSamples);
      WellFormedAppend(EmitDecoded(rs, UserSamples), [Plain(TotalOnlineUserCount, DecodedCount(rs) as real)]);
    }
  }

  lemma ClientSamplesWellFormed(db: Database)
    ensures AllWellFormed(LoadByClient(db).samples)
  {
    if db.loadByClient.Rows? {
      var rs := db.loadByClient.rows;
      AllClientSamplesLength(rs);
      WellFormedAppend(AllClientSamples(rs), [Plain(TotalClientCount, |rs| as real)]);
    }
  }

  /** The error of Scrape: nil when neither lookup reports one; otherwise the client error, then the user error after "; ". */
  lemma ErrorOrder(db: Database)
    ensures var c := LoadByClient(db).err;
      var u := LoadByUser(db).err;
      Scraped(db).err ==
        if Silent(c) then (if Silent(u) then None else u)
        else if u.None? then c
        else Some(c.value + "; " + u.value)
  {
    CombinedPair(LoadByClient(db).err, LoadByUser(db).err);
  }
}
