/**
 * collector/users.go: one gauge per database account and the number of
 * accounts.
 */
module UsersScraper {
  import opened Samples
  import opened Errors
  import opened Oracle
  import opened RowPolicies

  function UserNameSamples(username: string): seq<Sample>
  {
    [Labelled(UsersNameList, 1.0, username)]
  }

  /**
   * Scrape: the accumulate policy, then the total. The counter starts at 1
   * and is incremented once per decoded row, so the total is one more than
   * the accounts read.
   */
  function Scraped(db: Database): ScrapeResult
  {
    match db.users
    case QueryError(m) => ScrapeResult([], Some(m))
    case Rows(rs) =>
      ScrapeResult(EmitDecoded(rs, UserNameSamples) + [Plain(UsersTotalCount, (DecodedCount(rs) + 1) as real)],
                   Combined(DecodeErrors(rs)))
  }

  method Scrape(db: Database) returns (out: seq<Sample>, err: Error)
    ensures ScrapeResult(out, err) == Scraped(db)
  {
    if db.users.QueryError? {
      return [], Some(db.users.msg);
    }
    var rows := db.users.rows;
    var errs: seq<Error> := [];
    var count: nat := 1;
    out := [];
    for i := 0 to |rows|
      invariant out == EmitDecoded(rows[..i], UserNameSamples)
      invariant errs == DecodeErrors(rows[..i])
      invariant count == DecodedCount(rows[..i]) + 1
    {
      assert rows[..i + 1][..i] == rows[..i];
      match rows[i] {
        case DecodeError(m, _) =>
          errs := errs + [Some(m)];
        case Decoded(username) =>
          count := count + 1;
          out := out + UserNameSamples(username);
      }
    }
    assert rows[..|rows|] == rows;
    out := out + [Plain(UsersTotalCount, count as real)];
    err := CombineErr(errs);
  }

  /**
   * One name gauge of value 1 per decoded row, then the total, which is sent
   * even when rows failed and is the number of name gauges plus one. A failed
   * query sends nothing.
   */
  lemma TotalIsNamesPlusOne(db: Database)
    ensures db.users.QueryError? ==> Scraped(db) == ScrapeResult([], Some(db.users.msg))
    ensures db.users.Rows? ==>
      var ss := Scraped(db).samples;
      && |ss| >= 1
      && ss[|ss| - 1] == Plain(UsersTotalCount, |ss| as real)
      && forall i :: 0 <= i < |ss| - 1 ==> ss[i].metric == UsersNameList && ss[i].value == 1.0
  {
    if db.users.Rows? {
      var rs := db.users.rows;
      EmitDecodedLength(rs, UserNameSamples, 1);
      NameSamplesAreOnes(rs);
    }
  }

  lemma {:induction false} NameSamplesAreOnes(rows: seq<Row<string>>)
    ensures forall i :: 0 <= i < |EmitDecoded(rows, UserNameSamples)| ==>
      EmitDecoded(rows, UserNameSamples)[i].metric == UsersNameList && EmitDecoded(rows, UserNameSamples)[i].value == 1.0
  {
    if rows != [] {
      NameSamplesAreOnes(rows[..|rows| - 1]);
    }
  }

  /** Every sample carries as many label values as its Desc has label names. */
  lemma WellFormedSamples(db: Database)
    ensures AllWellFormed(Scraped(db).samples)
  {
    if db.users.Rows? {
      var rs := db.users.rows;
      EmitDecodedWellFormed(rs, UserNameSamples);
      WellFormedAppend(EmitDecoded(rs, UserNameSamples), [Plain(UsersTotalCount, (DecodedCount(rs) + 1) as real)]);
    }
  }
}
