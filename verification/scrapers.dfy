/**
 * The Scraper interface of collector/scrapers.go: every scraper has a name
 * and a Scrape that sends samples and returns an error, given the database
 * and the major version.
 */
module Scrapers {
  import Samples
  import Oracle
  import ClusterStateScraper
  import SegmentScraper
  import DatabaseSizeScraper
  import LocksScraper
  import ConnectionsScraper
  import MaxConnectionsScraper
  import ConnectionsDetailScraper
  import UsersScraper
  import BgWriterScraper
  import SystemScraper
  import QueriesScraper
  import DynamicMemoryScraper
  import DiskSpaceScraper

  /** The thirteen implementations, one per New...Scraper constructor. */
  datatype Scraper =
    | ClusterState | Segment | DatabaseSize | Locks | Connections | MaxConn | ConnDetail
    | Users | BgWriterState | System | Query | DynamicMemory | Disk

  /** Name(), as each implementation returns it. */
  function Name(s: Scraper): string
  {
    match s
    case ClusterState => "cluster_state_scraper"
    case Segment => "segment_scraper"
    case DatabaseSize => "database_size_scraper"
    case Locks => "locks_scraper"
    case Connections => "connections_scraper"
    case MaxConn => "max_connection_scraper"
    case ConnDetail => "connections_detail_scraper"
    case Users => "users_scraper"
    case BgWriterState => "bg_writer_state_scraper"
    case System => "systemScraper"
    case Query => "queriesScraper"
    case DynamicMemory => "dynamic_mem_scraper"
    case Disk => "filesystem_scraper"
  }

  /**
   * What one Scrape call sends and returns. The connections and connection
   * detail scrapers are declared without the version parameter; here they
   * receive it and ignore it.
   */
  function Scraped(s: Scraper, db: Oracle.Database, ver: int): Samples.ScrapeResult
  {
    match s
    case ClusterState => ClusterStateScraper.Scraped(db, ver)
    case Segment => SegmentScraper.Scraped(db, ver)
    case DatabaseSize => DatabaseSizeScraper.Scraped(db)
    case Locks => LocksScraper.Scraped(db, ver)
    case Connections => ConnectionsScraper.Scraped(db)
    case MaxConn => MaxConnectionsScraper.Scraped(db)
    case ConnDetail => ConnectionsDetailScraper.Scraped(db)
    case Users => UsersScraper.Scraped(db)
    case BgWriterState => BgWriterScraper.Scraped(db, ver)
    case System => SystemScraper.Scraped(db, ver)
    case Query => QueriesScraper.Scraped(db)
    case DynamicMemory => DynamicMemoryScraper.Scraped(db)
    case Disk => DiskSpaceScraper.Scraped(db)
  }

  /** Scrape through the interface: the implementation's own Scrape. */
  method Scrape(s: Scraper, db: Oracle.Database, ver: int) returns (out: seq<Samples.Sample>, err: Samples.Error)
    ensures Samples.ScrapeResult(out, err) == Scraped(s, db, ver)
  {
    match s {
      case ClusterState => out, err := ClusterStateScraper.Scrape(db, ver);
      case Segment => out, err := SegmentScraper.Scrape(db, ver);
      case DatabaseSize => out, err := DatabaseSizeScraper.Scrape(db);
      case Locks => out, err := LocksScraper.Scrape(db, ver);
      case Connections => out, err := ConnectionsScraper.Scrape(db);
      case MaxConn => out, err := MaxConnectionsScraper.Scrape(db);
      case ConnDetail => out, err := ConnectionsDetailScraper.Scrape(db);
      case Users => out, err := UsersScraper.Scrape(db);
      case BgWriterState => out, err := BgWriterScraper.Scrape(db, ver);
      case System => out, err := SystemScraper.Scrape(db, ver);
      case Query => out, err := QueriesScraper.Scrape(db);
      case DynamicMemory => out, err := DynamicMemoryScraper.Scrape(db);
      case Disk => out, err := DiskSpaceScraper.Scrape(db);
    }
  }

  /** The version-gated scrapers: cluster state, segment, locks and bgwriter. */
  predicate VersionGated(s: Scraper)
  {
    s == ClusterState || s == Segment || s == Locks || s == BgWriterState
  }

  /**
   * Only which side of 6 the major version falls on matters: every gate
   * picks the legacy query below 6 and the current one from 6 on, and the
   * other scrapers do not look at the version at all.
   */
  lemma OnlyDialectMatters(s: Scraper, db: Oracle.Database, ver: int)
    ensures Scraped(s, db, ver) == Scraped(s, db, if ver < 6 then 5 else 6)
    ensures !VersionGated(s) ==> Scraped(s, db, ver) == Scraped(s, db, 0)
  {
  }

  /** In the corrected model no scraper sends a sample MustNewConstMetric would reject. */
  lemma WellFormedSamples(s: Scraper, db: Oracle.Database, ver: int)
    ensures Samples.AllWellFormed(Scraped(s, db, ver).samples)
  {
    match s {
      case ClusterState => ClusterStateScraper.WellFormedSamples(db, ver);
      case Segment => SegmentScraper.WellFormedSamples(db, ver);
      case DatabaseSize => DatabaseSizeScraper.WellFormedSamples(db);
      case Locks => LocksScraper.WellFormedSamples(db, ver);
      case Connections => ConnectionsScraper.WellFormedSamples(db);
      case MaxConn => MaxConnectionsScraper.WellFormedSamples(db);
      case ConnDetail => ConnectionsDetailScraper.WellFormedSamples(db);
      case Users => UsersScraper.WellFormedSamples(db);
      case BgWriterState => BgWriterScraper.WellFormedSamples(db, ver);
      case System => SystemScraper.WellFormedSamples(db, ver);
      case Query => QueriesScraper.WellFormedSamples(db);
      case DynamicMemory => DynamicMemoryScraper.WellFormedSamples(db);
      case Disk => DiskSpaceScraper.WellFormedSamples(db);
    }
  }

  /** Scraper names are unique, as the interface asks. */
  lemma NamesUnique(a: Scraper, b: Scraper)
    requires Name(a) == Name(b)
    ensures a == b
  {
  }
}
