/**
 * collector/segment.go: one status, role and mode gauge per segment of
 * gp_segment_configuration, and the free disk space of each segment host.
 */
module SegmentScraper {
  import opened Samples
  import opened Errors
  import opened Oracle
  import opened RowPolicies
  import opened SegmentCodes

  /** The seven label values of a segment, in the order of the Desc's label names. */
  function ConfigLabels(r: SegmentConfigRow): seq<string>
  {
    [r.hostname, r.address, r.dbId, r.content, r.preferredRole, r.port, NullString(r.dataDir)]
  }

  /** The status, role and mode gauges of one configuration row. */
  function ConfigSamples(r: SegmentConfigRow): seq<Sample>
  {
    [ Sample(SegmentStatus, Gauge, GetStatus(r.status), ConfigLabels(r)),
      Sample(SegmentRole, Gauge, GetRole(r.role), ConfigLabels(r)),
      Sample(SegmentMode, Gauge, GetMode(r.mode), ConfigLabels(r)) ]
  }

  function DiskFreeSamples(r: DiskFreeRow): seq<Sample>
  {
    [Labelled(SegmentDiskFree, r.gbFree, r.hostname)]
  }

  /** scrapeSegmentConfig: the version-gated configuration query under the accumulate policy. */
  function ConfigScraped(db: Database, ver: int): ScrapeResult
  {
    Accumulate(ForVersion(db.segmentConfig, ver), ConfigSamples)
  }

  /** scrapeSegmentDiskFree: the disk-free query under the accumulate policy. */
  function DiskFreeScraped(db: Database): ScrapeResult
  {
    Accumulate(db.segmentDiskFree, DiskFreeSamples)
  }

  /** Scrape: both lookups always run; the disk-free error comes first in the combined error. */
  function Scraped(db: Database, ver: int): ScrapeResult
  {
    var u := ConfigScraped(db, ver);
    var c := DiskFreeScraped(db);
    ScrapeResult(u.samples + c.samples, Combined([c.err, u.err]))
  }

  method ScrapeSegmentConfig(db: Database, ver: int) returns (out: seq<Sample>, err: Error)
    ensures ScrapeResult(out, err) == ConfigScraped(db, ver)
  {
    var q := ForVersion(db.segmentConfig, ver);
    if q.QueryError? {
      return [], Some(q.msg);
    }
    var errs, decoded;
    out, errs, decoded := ScanAll(q.rows, ConfigSamples);
    err := CombineErr(errs);
  }

  method ScrapeSegmentDiskFree(db: Database) returns (out: seq<Sample>, err: Error)
    ensures ScrapeResult(out, err) == DiskFreeScraped(db)
  {
    var q := db.segmentDiskFree;
    if q.QueryError? {
      return [], Some(q.msg);
    }
    var errs, decoded;
    out, errs, decoded := ScanAll(q.rows, DiskFreeSamples);
    err := CombineErr(errs);
  }

  method Scrape(db: Database, ver: int) returns (out: seq<Sample>, err: Error)
    ensures ScrapeResult(out, err) == Scraped(db, ver)
  {
    var outU, errU := ScrapeSegmentConfig(db, ver);
    var outC, errC := ScrapeSegmentDiskFree(db);
    out := outU + outC;
    err := CombineErr([errC, errU]);
  }

  /**
   * The three gauges of a segment share its seven labels; a NULL data
   * directory is the empty label; the values are the decoded codes.
   */
  lemma ConfigRowSamples(r: SegmentConfigRow)
    ensures var ss := ConfigSamples(r);
      && |ss| == 3 && AllWellFormed(ss)
      && ss[0].labels == ss[1].labels == ss[2].labels == ConfigLabels(r)
      && (r.dataDir.None? ==> ss[0].labels[6] == "")
      && (ss[0].value == 0.0 || ss[0].value == 1.0)
      && (ss[1].value == 1.0 || ss[1].value == 2.0)
      && 1.0 <= ss[2].value <= 4.0
  {
  }

  /** A failed query sends nothing and returns its error unchanged. */
  lemma QueryFailureSendsNothing(db: Database, ver: int)
    ensures ForVersion(db.segmentConfig, ver).QueryError? ==>
      ConfigScraped(db, ver) == ScrapeResult([], Some(ForVersion(db.segmentConfig, ver).msg))
    ensures db.segmentDiskFree.QueryError? ==>
      DiskFreeScraped(db) == ScrapeResult([], Some(db.segmentDiskFree.msg))
  {
  }

  /** Three gauges per decoded configuration row and one per decoded disk-free row. */
  lemma SampleCounts(db: Database, ver: int)
    ensures var q := ForVersion(db.segmentConfig, ver);
      q.Rows? ==> |ConfigScraped(db, ver).samples| == 3 * DecodedCount(q.rows)
    ensures db.segmentDiskFree.Rows? ==>
      |DiskFreeScraped(db).samples| == DecodedCount(db.segmentDiskFree.rows)
  {
    var q := ForVersion(db.segmentConfig, ver);
    if q.Rows? {
      EmitDecodedLength(q.rows, ConfigSamples, 3);
    }
    if db.segmentDiskFree.Rows? {
      EmitDecodedLength(db.segmentDiskFree.rows, DiskFreeSamples, 1);
    }
  }

  /** Every sample carries as many label values as its Desc has label names. */
  lemma WellFormedSamples(db: Database, ver: int)
    ensures AllWellFormed(Scraped(db, ver).samples)
  {
    var q := ForVersion(db.segmentConfig, ver);
    forall r ensures AllWellFormed(ConfigSamples(r)) {
      ConfigRowSamples(r);
    }
    if q.Rows? {
      EmitDecodedWellFormed(q.rows, ConfigSamples);
    }
    if db.segmentDiskFree.Rows? {
      EmitDecodedWellFormed(db.segmentDiskFree.rows, DiskFreeSamples);
    }
  }

  /**
   * The error of Scrape: nil when neither lookup reports one; otherwise the
   * disk-free error, then the configuration error after "; ".
   */
  lemma ErrorOrder(db: Database, ver: int)
    ensures var c := DiskFreeScraped(db).err;
      var u := ConfigScraped(db, ver).err;
      Scraped(db, ver).err ==
        if Silent(c) then (if Silent(u) then None else u)
        else if u.None? then c
        else Some(c.value + "; " + u.value)
  {
    CombinedPair(DiskFreeScraped(db).err, ConfigScraped(db, ver).err);
  }
}
