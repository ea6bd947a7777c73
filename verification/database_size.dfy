/**
 * collector/database_size.go: the size of every database, the number of user
 * tables in each (read over a connection to that database), the buffer cache
 * hit rate and the transaction commit rate.
 */
module DatabaseSizeScraper {
  import opened Samples
  import opened Errors
  import opened Oracle
  import opened RowPolicies

  /** pat occurs in s at index j. */
  predicate OccursAt(s: string, pat: string, j: nat)
  {
    j + |pat| <= |s| && s[j..j + |pat|] == pat
  }

  /**
   * The first index at or after i where pat occurs in s. An empty pattern
   * occurs at i itself.
   */
  function FindFrom(s: string, pat: string, i: nat): (k: Option<nat>)
    requires i <= |s|
    decreases |s| - i
    ensures k.Some? ==> i <= k.value && OccursAt(s, pat, k.value)
    ensures k.Some? ==> forall j :: i <= j < k.value ==> !OccursAt(s, pat, j)
    ensures k.None? ==> forall j :: i <= j ==> !OccursAt(s, pat, j)
  {
    if i + |pat| > |s| then None
    else if s[i..i + |pat|] == pat then Some(i)
    else FindFrom(s, pat, i + 1)
  }

  /** strings.Replace(s, pat, rep, 1): only the first occurrence is replaced. */
  function ReplaceFirst(s: string, pat: string, rep: string): string
  {
    match FindFrom(s, pat, 0)
    case None => s
    case Some(k) => s[..k] + rep + s[k + |pat|..]
  }

  /** Without an occurrence the string is left as it is. */
  lemma ReplaceFirstAbsent(s: string, pat: string, rep: string)
    requires forall j :: !OccursAt(s, pat, j)
    ensures ReplaceFirst(s, pat, rep) == s
  {
  }

  /**
   * With an occurrence at k and none before it, the result is the text before
   * k, the replacement, and everything after the occurrence untouched (later
   * occurrences included).
   */
  lemma ReplaceFirstAt(s: string, pat: string, rep: string, k: nat)
    requires OccursAt(s, pat, k)
    requires forall j :: 0 <= j < k ==> !OccursAt(s, pat, j)
    ensures ReplaceFirst(s, pat, rep) == s[..k] + rep + s[k + |pat|..]
  {
    var f := FindFrom(s, pat, 0);
    assert f == Some(k);
  }

  /** The connection string used to count the tables of `dbname`. */
  function DataSourceFor(dataSourceName: string, dbname: string): string
  {
    ReplaceFirst(dataSourceName, "/postgres", "/" + dbname)
  }

  /** In "postgres://postgres:pw@h/postgres" the first "/postgres" starts at index 10, inside "://postgres:". */
  lemma FirstOccurrenceInUserPart()
    ensures OccursAt("postgres://postgres:pw@h/postgres", "/postgres", 10)
    ensures forall j :: 0 <= j < 10 ==> !OccursAt("postgres://postgres:pw@h/postgres", "/postgres", j)
  {
    var s := "postgres://postgres:pw@h/postgres";
    var pat := "/postgres";
    assert s == "postgres:/" + pat + ":pw@h/postgres";
    forall j | 0 <= j < 10
      ensures !OccursAt(s, pat, j)
    {
      assert s[j..j + |pat|][0] == s[j];
      assert s[j..j + |pat|][1] == s[j + 1];
    }
  }

  lemma RewriteAtIndex10(dsn: string, dbname: string)
    requires dsn == "postgres://postgres:pw@h/postgres"
    ensures ReplaceFirst(dsn, "/postgres", "/" + dbname) == "postgres:/" + ("/" + dbname) + ":pw@h/postgres"
  {
    var user, host := "postgres:/", ":pw@h/postgres";
    assert dsn[..10] == user && dsn[19..] == host by {
      assert dsn == user + "/postgres" + host;
    }
    FirstOccurrenceInUserPart();
    ReplaceFirstAt(dsn, "/postgres", "/" + dbname, 10);
  }

  /** When the user name is postgres, the rewrite hits the user part of the URL, not the database. */
  lemma RewriteHitsUserSegment(dsn: string, dbname: string)
    requires dsn == "postgres://postgres:pw@h/postgres" && dbname == "sales"
    ensures DataSourceFor(dsn, dbname) == "postgres://sales:pw@h/postgres"
  {
    RewriteAtIndex10(dsn, dbname);
    SalesUrl(dbname);
  }

  lemma SalesUrl(dbname: string)
    requires dbname == "sales"
    ensures "postgres:/" + ("/" + dbname) + ":pw@h/postgres" == "postgres://sales:pw@h/postgres"
  {
  }

  /** The value of the last of the given rows (a single-column Scan keeps the previous value when it fails); 0 for none. */
  function LastValue(rows: seq<Row<real>>): real
  {
    if rows == [] then 0.0 else Scanned(rows[|rows| - 1])
  }

  /**
   * queryTablesCount: the count column of the last row; 0 and nil when there
   * are no rows; the first row Scan rejects ends the lookup with its error.
   */
  function TablesCount(q: QueryResult<real>): Lookup<real>
  {
    match q
    case QueryError(m) => Lookup(0.0, Some(m))
    case Rows(rs) =>
      var k := FailureIndex(rs);
      Lookup(LastValue(rs[..k]), if k < |rs| then Some(rs[k].msg) else None)
  }

  /** The table count of one database, over the rewritten connection string. */
  function TablesCountOf(db: Database, dbname: string): Lookup<real>
  {
    TablesCount(db.tableCount(DataSourceFor(db.dataSourceName, dbname)))
  }

  method QueryTablesCount(db: Database, dbname: string) returns (count: real, err: Error)
    ensures Lookup(count, err) == TablesCountOf(db, dbname)
  {
    var q := db.tableCount(DataSourceFor(db.dataSourceName, dbname));
    count := 0.0;
    if q.QueryError? {
      return count, Some(q.msg);
    }
    var rows := q.rows;
    var i := 0;
    while i < |rows|
      invariant i <= |rows|
      invariant forall j :: 0 <= j < i ==> rows[j].Decoded?
      invariant count == LastValue(rows[..i])
    {
      match rows[i] {
        case DecodeError(m, _) =>
          return count, Some(m);
        case Decoded(v) =>
          count := v;
      }
      i := i + 1;
    }
    assert rows[..|rows|] == rows;
    err := None;
  }

  /** No rows: a count of 0 and no error. All rows decoded: the last row's count. */
  lemma TablesCountCases(rs: seq<Row<real>>)
    ensures TablesCount(Rows([])) == Lookup(0.0, None)
    ensures (forall i :: 0 <= i < |rs| ==> rs[i].Decoded?) && rs != [] ==>
      TablesCount(Rows(rs)) == Lookup(rs[|rs| - 1].value, None)
    ensures FailureIndex(rs) < |rs| ==> TablesCount(Rows(rs)).err == Some(rs[FailureIndex(rs)].msg)
  {
    if (forall i :: 0 <= i < |rs| ==> rs[i].Decoded?) && rs != [] {
      assert rs[..|rs|] == rs;
    }
  }

  function SizeSamples(r: DatabaseSizeRow): seq<Sample>
  {
    [Labelled(DatabaseSize, r.mbSize, r.dbname)]
  }

  function RowName(r: Row<DatabaseSizeRow>): seq<string>
  {
    if r.Decoded? then [r.value.dbname] else []
  }

  /** The names of the databases whose size row decoded, in row order. */
  function DecodedNames(rows: seq<Row<DatabaseSizeRow>>): seq<string>
  {
    if rows == [] then []
    else DecodedNames(rows[..|rows| - 1]) + RowName(rows[|rows| - 1])
  }

  /** The table-count samples of the given databases; a failed lookup sends none. */
  function CountSamples(db: Database, names: seq<string>): seq<Sample>
  {
    if names == [] then []
    else
      var name := names[|names| - 1];
      var c := TablesCountOf(db, name);
      CountSamples(db, names[..|names| - 1]) + if c.err.None? then [Labelled(TableCount, c.value, name)] else []
  }

  /** The errors of the failed table-count lookups, in name order. */
  function CountErrors(db: Database, names: seq<string>): seq<Error>
  {
    if names == [] then []
    else
      var c := TablesCountOf(db, names[|names| - 1]);
      CountErrors(db, names[..|names| - 1]) + if c.err.None? then [] else [c.err]
  }

  /**
   * queryHitCacheRate and queryTxCommitRate: one sample from the first row,
   * even when Scan rejected it (the rate then stays 0); only a failed query
   * is an error.
   */
  function RateScraped(q: QueryResult<real>, m: Metric): ScrapeResult
  {
    match q
    case QueryError(msg) => ScrapeResult([], Some(msg))
    case Rows(rs) =>
      if rs == [] then ScrapeResult([], None)
      else ScrapeResult([Plain(m, FirstValue(q, 0.0, None).value)], None)
  }

  /** The error as appended to errs: only a non-nil one is. */
  function NonNil(e: Error): seq<Error>
  {
    if e.None? then [] else [e]
  }

  /**
   * Scrape: sizes first, then table counts for the decoded names in row
   * order, then the two rates; all errors are combined in that order.
   */
  function Scraped(db: Database): ScrapeResult
  {
    match db.databaseSize
    case QueryError(m) => ScrapeResult([], Some(m))
    case Rows(rs) =>
      var names := DecodedNames(rs);
      var hit := RateScraped(db.hitCacheRate, HitCacheRate);
      var tx := RateScraped(db.txCommitRate, TxCommitRate);
      ScrapeResult(
        EmitDecoded(rs, SizeSamples) + CountSamples(db, names) + hit.samples + tx.samples,
        Combined(DecodeErrors(rs) + CountErrors(db, names) + NonNil(hit.err) + NonNil(tx.err)))
  }

  /** The shared body of queryHitCacheRate and queryTxCommitRate. */
  method QueryRate(q: QueryResult<real>, m: Metric) returns (out: seq<Sample>, err: Error)
    ensures ScrapeResult(out, err) == RateScraped(q, m)
  {
    if q.QueryError? {
      return [], Some(q.msg);
    }
    out := [];
    var rows := q.rows;
    if rows != [] {
      var rate := 0.0;
      if rows[0].Decoded? {
        rate := rows[0].value;
      }
      out := [Plain(m, rate)];
    }
    err := None;
  }

  /** The first row loop: size samples, row errors and the names of the decoded databases. */
  method ScanSizes(rows: seq<Row<DatabaseSizeRow>>) returns (out: seq<Sample>, errs: seq<Error>, names: seq<string>)
    ensures out == EmitDecoded(rows, SizeSamples)
    ensures errs == DecodeErrors(rows)
    ensures names == DecodedNames(rows)
  {
    out, errs, names := [], [], [];
    for i := 0 to |rows|
      invariant out == EmitDecoded(rows[..i], SizeSamples)
      invariant errs == DecodeErrors(rows[..i])
      invariant names == DecodedNames(rows[..i])
    {
      assert rows[..i + 1][..i] == rows[..i];
      match rows[i] {
        case DecodeError(m, _) =>
          errs := errs + [Some(m)];
        case Decoded(r) =>
          out := out + SizeSamples(r);
          names := names + [r.dbname];
      }
    }
    assert rows[..|rows|] == rows;
  }

  /** The second loop, over the recorded names: one table count per database. */
  method QueryTablesCounts(db: Database, names: seq<string>) returns (out: seq<Sample>, errs: seq<Error>)
    ensures out == CountSamples(db, names)
    ensures errs == CountErrors(db, names)
  {
    out, errs := [], [];
    for j := 0 to |names|
      invariant out == CountSamples(db, names[..j])
      invariant errs == CountErrors(db, names[..j])
    {
      assert names[..j + 1][..j] == names[..j];
      var count, e := QueryTablesCount(db, names[j]);
      if e.Some? {
        errs := errs + [e];
      } else {
        out := out + [Labelled(TableCount, count, names[j])];
      }
    }
    assert names[..|names|] == names;
  }

  method Scrape(db: Database) returns (out: seq<Sample>, err: Error)
    ensures ScrapeResult(out, err) == Scraped(db)
  {
    if db.databaseSize.QueryError? {
      return [], Some(db.databaseSize.msg);
    }
    var sizes, rowErrs, names := ScanSizes(db.databaseSize.rows);
    var counts, countErrs := QueryTablesCounts(db, names);
    var hitOut, errM := QueryRate(db.hitCacheRate, HitCacheRate);
    var txOut, errN := QueryRate(db.txCommitRate, TxCommitRate);
    out := sizes + counts + hitOut + txOut;
    var errs := rowErrs + countErrs;
    if errM.Some? {
      errs := errs + [errM];
    }
    if errN.Some? {
      errs := errs + [errN];
    }
    assert errs == rowErrs + countErrs + NonNil(errM) + NonNil(errN);
    err := CombineErr(errs);
  }

  lemma {:induction false} DecodedNamesCount(rows: seq<Row<DatabaseSizeRow>>)
    ensures |DecodedNames(rows)| == DecodedCount(rows)
    ensures |EmitDecoded(rows, SizeSamples)| == DecodedCount(rows)
    ensures forall i :: 0 <= i < |DecodedNames(rows)| ==>
      EmitDecoded(rows, SizeSamples)[i] == Labelled(DatabaseSize, EmitDecoded(rows, SizeSamples)[i].value, DecodedNames(rows)[i])
  {
    if rows != [] {
      DecodedNamesCount(rows[..|rows| - 1]);
    }
  }

  lemma {:induction false} CountsAppend(db: Database, a: seq<string>, b: seq<string>)
    ensures CountSamples(db, a + b) == CountSamples(db, a) + CountSamples(db, b)
    ensures CountErrors(db, a + b) == CountErrors(db, a) + CountErrors(db, b)
  {
    if b == [] {
      assert a + b == a;
    } else {
      assert (a + b)[..|a + b| - 1] == a + b[..|b| - 1];
      CountsAppend(db, a, b[..|b| - 1]);
    }
  }

  /**
   * A database whose table count fails adds its error and no count sample;
   * one whose count succeeds adds exactly its sample; the others are unaffected.
   */
  lemma CountLookupIsolated(db: Database, a: seq<string>, name: string, b: seq<string>)
    ensures var c := TablesCountOf(db, name);
      && CountSamples(db, a + [name] + b) ==
           CountSamples(db, a) + (if c.err.None? then [Labelled(TableCount, c.value, name)] else []) + CountSamples(db, b)
      && CountErrors(db, a + [name] + b) ==
           CountErrors(db, a) + (if c.err.None? then [] else [c.err]) + CountErrors(db, b)
  {
    CountsAppend(db, a + [name], b);
    CountsAppend(db, a, [name]);
    assert [name][..0] == [];
  }

  /** Each rate lookup sends at most one sample and reports an error only when its query fails. */
  lemma RateAtMostOne(q: QueryResult<real>, m: Metric)
    ensures |RateScraped(q, m).samples| <= 1
    ensures RateScraped(q, m).err.Some? <==> q.QueryError?
    ensures q.Rows? && q.rows != [] && q.rows[0].DecodeError? ==> RateScraped(q, m).samples == [Plain(m, 0.0)]
  {
  }

  /** A failed size query sends nothing, runs no other lookup, and returns its error. */
  lemma SizeQueryFailure(db: Database)
    requires db.databaseSize.QueryError?
    ensures Scraped(db) == ScrapeResult([], Some(db.databaseSize.msg))
  {
  }

  /** Every sample carries as many label values as its Desc has label names. */
  lemma WellFormedSamples(db: Database)
    ensures AllWellFormed(Scraped(db).samples)
  {
    if db.databaseSize.Rows? {
      var rs := db.databaseSize.rows;
      var sizes := EmitDecoded(rs, SizeSamples);
      var counts := CountSamples(db, DecodedNames(rs));
      var hit := RateScraped(db.hitCacheRate, HitCacheRate).samples;
      var tx := RateScraped(db.txCommitRate, TxCommitRate).samples;
      EmitDecodedWellFormed(rs, SizeSamples);
      CountSamplesWellFormed(db, DecodedNames(rs));
      WellFormedAppend(sizes, counts);
      WellFormedAppend(sizes + counts, hit);
      WellFormedAppend(sizes + counts + hit, tx);
    }
  }

  lemma {:induction false} CountSamplesWellFormed(db: Database, names: seq<string>)
    ensures AllWellFormed(CountSamples(db, names))
  {
    if names != [] {
      var name := names[|names| - 1];
      var c := TablesCountOf(db, name);
      CountSamplesWellFormed(db, names[..|names| - 1]);
      WellFormedAppend(CountSamples(db, names[..|names| - 1]),
        if c.err.None? then [Labelled(TableCount, c.value, name)] else []);
    }
  }
}
