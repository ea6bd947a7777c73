/**
 * collector/bgwriter_state.go: the checkpoint and buffer counters of
 * pg_stat_bgwriter, read from the version-gated query's first row.
 */
module BgWriterScraper {
  import opened Samples
  import opened Oracle
  import opened RowPolicies
  import ClusterStateScraper

  const BgWriterNotFound := "bgwriter not found"

  function CounterSample(m: Metric, v: real): Sample
  {
    Sample(m, Counter, v, [])
  }

  /** The eleven samples of one row; write and sync times go from milliseconds to seconds. */
  function BgWriterSamples(r: BgWriterRow): seq<Sample>
  {
    [ CounterSample(CheckpointsTimed, r.checkpointsTimed as real),
      CounterSample(CheckpointsReq, r.checkpointsReq as real),
      CounterSample(CheckpointWriteTime, r.checkpointWriteTime / 1000.0),
      CounterSample(CheckpointSyncTime, r.checkpointSyncTime / 1000.0),
      CounterSample(BuffersCheckpoint, r.buffersCheckpoint as real),
      CounterSample(BuffersClean, r.buffersClean as real),
      CounterSample(MaxWrittenClean, r.maxWrittenClean as real),
      CounterSample(BuffersBackend, r.buffersBackend as real),
      CounterSample(BuffersBackendFsync, r.buffersBackendFsync as real),
      CounterSample(BuffersAlloc, r.buffersAlloc as real),
      Plain(StatsReset, r.statsReset as real) ]
  }

  /** Scrape as written: a failed query sends the malformed cluster-state sample before returning its error. */
  function ScrapedAsWritten(db: Database, ver: int): ScrapeResult
  {
    match ForVersion(db.bgWriter, ver)
    case QueryError(m) => ClusterStateScraper.CheckFailedAsWritten(m)
    case Rows(rs) => FirstRowOnly(Rows(rs), BgWriterSamples, BgWriterNotFound)
  }

  /** Scrape: a failed query sends the cluster-state-down sample and returns its error; otherwise the first row only. */
  function Scraped(db: Database, ver: int): ScrapeResult
  {
    match ForVersion(db.bgWriter, ver)
    case QueryError(m) => ClusterStateScraper.CheckFailed(m)
    case Rows(rs) => FirstRowOnly(Rows(rs), BgWriterSamples, BgWriterNotFound)
  }

  method Scrape(db: Database, ver: int) returns (out: seq<Sample>, err: Error)
    ensures ScrapeResult(out, err) == Scraped(db, ver)
  {
    var q := ForVersion(db.bgWriter, ver);
    if q.QueryError? {
      return [ClusterStateScraper.StateDown()], Some(q.msg);
    }
    out, err := ReadFirstRow(q, BgWriterSamples, BgWriterNotFound);
  }

  /**
   * A decoded row gives ten counters and one gauge, in the order of the
   * columns; write and sync times are divided by 1000; none carries labels.
   */
  lemma RowSamples(r: BgWriterRow)
    ensures var ss := BgWriterSamples(r);
      && |ss| == 11 && AllWellFormed(ss)
      && (forall i :: 0 <= i < 10 ==> ss[i].kind == Counter)
      && ss[10].kind == Gauge && ss[10].metric == StatsReset && ss[10].value == r.statsReset as real
      && ss[2].metric == CheckpointWriteTime && ss[2].value * 1000.0 == r.checkpointWriteTime
      && ss[3].metric == CheckpointSyncTime && ss[3].value * 1000.0 == r.checkpointSyncTime
  {
  }

  /**
   * Only the first row is read: a decoded first row sends its eleven samples
   * and nil whatever follows; a failed first row sends nothing and returns
   * its error; no rows is "bgwriter not found".
   */
  lemma FirstRowDecides(db: Database, ver: int)
    requires ForVersion(db.bgWriter, ver).Rows?
    ensures var rs := ForVersion(db.bgWriter, ver).rows;
      && (rs == [] ==> Scraped(db, ver) == ScrapeResult([], Some(BgWriterNotFound)))
      && (rs != [] && rs[0].Decoded? ==> Scraped(db, ver) == ScrapeResult(BgWriterSamples(rs[0].value), None))
      && (rs != [] && rs[0].DecodeError? ==> Scraped(db, ver) == ScrapeResult([], Some(rs[0].msg)))
  {
  }

  /** The legacy query is asked below major version 6 and the current one from 6 on. */
  lemma VersionGate(db: Database, ver: int)
    ensures ver < 6 ==> Scraped(db, ver) == Scraped(db, 5)
    ensures ver >= 6 ==> Scraped(db, ver) == Scraped(db, 6)
  {
  }

  /**
   * A failed query sends exactly one cluster-state sample of value 0; as
   * written it is malformed, in the corrected model it is well formed.
   */
  lemma QueryFailureState(db: Database, ver: int)
    requires ForVersion(db.bgWriter, ver).QueryError?
    ensures var w := ScrapedAsWritten(db, ver);
      |w.samples| == 1 && w.samples[0].metric == ClusterState && w.samples[0].value == 0.0
      && !AllWellFormed(w.samples)
    ensures Scraped(db, ver).err == ScrapedAsWritten(db, ver).err == Some(ForVersion(db.bgWriter, ver).msg)
    ensures AllWellFormed(Scraped(db, ver).samples)
  {
    ClusterStateScraper.StateDownLabelCount();
    assert !WellFormed(ScrapedAsWritten(db, ver).samples[0]);
  }

  /** Except on a failed query, the corrected and as-written scrapes agree. */
  lemma AsWrittenAgreesOtherwise(db: Database, ver: int)
    requires ForVersion(db.bgWriter, ver).Rows?
    ensures ScrapedAsWritten(db, ver) == Scraped(db, ver)
  {
  }

  /** Every sample carries as many label values as its Desc has label names. */
  lemma WellFormedSamples(db: Database, ver: int)
    ensures AllWellFormed(Scraped(db, ver).samples)
  {
    var q := ForVersion(db.bgWriter, ver);
    if q.Rows? && q.rows != [] && q.rows[0].Decoded? {
      RowSamples(q.rows[0].value);
    }
  }
}
