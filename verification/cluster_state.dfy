/**
 * collector/cluster_state.go: whether the cluster answers, its version, the
 * master and standby hosts, uptime, replication sync and the time of the last
 * configuration reload.
 */
module ClusterStateScraper {
  import opened Samples
  import opened Errors
  import opened Oracle
  import opened RowPolicies

  const UpTimeNotFound := "start time of greenPlum not found"
  const VersionNotFound := "greenPlum version not found"
  const MasterNotFound := "hostname for master node not found"
  const SyncNotFound := "greenPlum sync status not found"
  const ConfigLoadTimeNotFound := "greenPlum Config last load time not found"

  /**
   * The "cluster down" state sample exactly as it is built: value 0 with two
   * label values, although the state Desc declares three label names.
   */
  function StateDownAsWritten(): Sample
  {
    Sample(ClusterState, Gauge, 0.0, ["", ""])
  }

  /** The state sample the failure paths evidently intend: value 0 with three empty labels. */
  function StateDown(): (s: Sample)
    ensures s.metric == ClusterState && s.value == 0.0
    ensures WellFormed(s)
    ensures forall i :: 0 <= i < |s.labels| ==> s.labels[i] == ""
  {
    Sample(ClusterState, Gauge, 0.0, ["", "", ""])
  }

  /** The as-written sample breaks MustNewConstMetric's label-count precondition (it panics), the corrected one keeps it. */
  lemma StateDownLabelCount()
    ensures !WellFormed(StateDownAsWritten())
    ensures |StateDownAsWritten().labels| + 1 == Arity(ClusterState)
    ensures WellFormed(StateDown())
  {
  }

  /** What a failed check leaves behind as written: the malformed state sample and the error. */
  function CheckFailedAsWritten(msg: string): ScrapeResult
  {
    ScrapeResult([StateDownAsWritten()], Some(msg))
  }

  /** What a failed check leaves behind in the corrected model. */
  function CheckFailed(msg: string): ScrapeResult
  {
    ScrapeResult([StateDown()], Some(msg))
  }

  /** The check query itself has no samples of its own: its rows are only scanned. */
  function NoSamples(count: int): seq<Sample>
  {
    []
  }

  /** scrapeUpTime, scrapeVersion, scrapeMaster, scrapeStandby, scrapeSync, scrapeConfigLoadTime. */
  function UpTime(db: Database): Lookup<real>
  {
    FirstValue(db.upTime, 0.0, Some(UpTimeNotFound))
  }

  function Version(db: Database): Lookup<string>
  {
    FirstValue(db.version, "", Some(VersionNotFound))
  }

  function Master(db: Database): Lookup<string>
  {
    FirstValue(db.masterName, "", Some(MasterNotFound))
  }

  /** A cluster without a standby has no row here, which is not an error. */
  function Standby(db: Database): Lookup<string>
  {
    FirstValue(db.standbyName, "", None)
  }

  function Sync(db: Database): Lookup<real>
  {
    FirstValue(db.sync, 0.0, Some(SyncNotFound))
  }

  /** The reload time in Unix seconds, from the version-gated query; the zero time when it is missing. */
  function ConfigLoadTime(db: Database, ver: int): Lookup<int>
  {
    FirstValue(ForVersion(db.configLoadTime, ver), ZeroTimeUnix, Some(ConfigLoadTimeNotFound))
  }

  /** The four samples of a cluster that answered the check. */
  function UpSamples(db: Database, ver: int): seq<Sample>
  {
    [ Sample(ClusterState, Gauge, 1.0, [Version(db).value, Master(db).value, Standby(db).value]),
      Plain(ClusterUptime, UpTime(db).value),
      Plain(ClusterSync, Sync(db).value),
      Plain(ClusterConfigLoadTime, ConfigLoadTime(db, ver).value as real) ]
  }

  /** The lookup errors in the order combineErr receives them. */
  function LookupErrors(db: Database, ver: int): seq<Error>
  {
    [Master(db).err, Version(db).err, UpTime(db).err, Sync(db).err, Standby(db).err, ConfigLoadTime(db, ver).err]
  }

  /**
   * Scrape: a failed check query, or a check row Scan rejects, sends the
   * state-down sample and returns that error; otherwise all six lookups run
   * and four samples are sent.
   */
  function Scraped(db: Database, ver: int): ScrapeResult
  {
    match db.checkState
    case QueryError(m) => CheckFailed(m)
    case Rows(rs) =>
      var check := AbortOnFailure(rs, NoSamples);
      if check.err.Some? then CheckFailed(check.err.value)
      else ScrapeResult(UpSamples(db, ver), Combined(LookupErrors(db, ver)))
  }

  method Scrape(db: Database, ver: int) returns (out: seq<Sample>, err: Error)
    ensures ScrapeResult(out, err) == Scraped(db, ver)
  {
    if db.checkState.QueryError? {
      return [StateDown()], Some(db.checkState.msg);
    }
    var scanned, checkErr := ScanUntilFailure(db.checkState.rows, NoSamples);
    if checkErr.Some? {
      return [StateDown()], checkErr;
    }
    var version, errV := ReadFirstValue(db.version, "", Some(VersionNotFound));
    var master, errM := ReadFirstValue(db.masterName, "", Some(MasterNotFound));
    var standby, errX := ReadFirstValue(db.standbyName, "", None);
    var upTime, errU := ReadFirstValue(db.upTime, 0.0, Some(UpTimeNotFound));
    var sync, errW := ReadFirstValue(db.sync, 0.0, Some(SyncNotFound));
    var configLoadTime, errY := ReadFirstValue(ForVersion(db.configLoadTime, ver), ZeroTimeUnix, Some(ConfigLoadTimeNotFound));
    out := [ Sample(ClusterState, Gauge, 1.0, [version, master, standby]),
             Plain(ClusterUptime, upTime),
             Plain(ClusterSync, sync),
             Plain(ClusterConfigLoadTime, configLoadTime as real) ];
    err := CombineErr([errM, errV, errU, errW, errX, errY]);
  }

  /** A failed check sends only the state-down sample and returns the check's own error. */
  lemma CheckFailureStops(db: Database, ver: int)
    ensures db.checkState.QueryError? ==>
      Scraped(db, ver) == ScrapeResult([StateDown()], Some(db.checkState.msg))
    ensures db.checkState.Rows? && FailureIndex(db.checkState.rows) < |db.checkState.rows| ==>
      Scraped(db, ver) == ScrapeResult([StateDown()], Some(db.checkState.rows[FailureIndex(db.checkState.rows)].msg))
  {
  }

  /**
   * A check that decodes every row sends four samples whatever the lookups
   * return: state 1 labelled version, master and standby, then the uptime,
   * sync and reload-time values the lookups read (zero where one failed);
   * every sample is well formed.
   */
  lemma CheckSuccessSendsFour(db: Database, ver: int)
    requires db.checkState.Rows?
    requires forall i :: 0 <= i < |db.checkState.rows| ==> db.checkState.rows[i].Decoded?
    ensures var r := Scraped(db, ver);
      && |r.samples| == 4
      && r.samples[0].metric == ClusterState && r.samples[0].value == 1.0
      && r.samples[0].labels == [Version(db).value, Master(db).value, Standby(db).value]
      && r.samples[1].metric == ClusterUptime && r.samples[1].value == UpTime(db).value
      && r.samples[2].metric == ClusterSync && r.samples[2].value == Sync(db).value
      && r.samples[3].metric == ClusterConfigLoadTime && r.samples[3].value == ConfigLoadTime(db, ver).value as real
      && AllWellFormed(r.samples)
      && r.err == Combined(LookupErrors(db, ver))
  {
    assert FailureIndex(db.checkState.rows) == |db.checkState.rows|;
    UpSamplesWellFormed(db, ver);
  }

  lemma UpSamplesWellFormed(db: Database, ver: int)
    ensures AllWellFormed(UpSamples(db, ver))
  {
  }

  /** Each lookup reads the first row's value; an empty result is its "... not found" error, except for the standby. */
  lemma EmptyLookups(db: Database, ver: int)
    ensures db.upTime == Rows([]) ==> UpTime(db) == Lookup(0.0, Some(UpTimeNotFound))
    ensures db.version == Rows([]) ==> Version(db) == Lookup("", Some(VersionNotFound))
    ensures db.masterName == Rows([]) ==> Master(db) == Lookup("", Some(MasterNotFound))
    ensures db.standbyName == Rows([]) ==> Standby(db) == Lookup("", None)
    ensures db.sync == Rows([]) ==> Sync(db) == Lookup(0.0, Some(SyncNotFound))
    ensures ForVersion(db.configLoadTime, ver) == Rows([]) ==>
      ConfigLoadTime(db, ver) == Lookup(ZeroTimeUnix, Some(ConfigLoadTimeNotFound))
  {
  }

  /** A missing standby is never an error: the standby lookup fails only when its query or its first row does. */
  lemma StandbyOptional(db: Database)
    ensures Standby(db).err.Some? <==>
      db.standbyName.QueryError? || (db.standbyName.rows != [] && db.standbyName.rows[0].DecodeError?)
  {
  }

  /**
   * The errors are combined master first, then version, uptime, sync, standby
   * and reload time: with only the master and version lookups failing, the
   * result is the master's message, "; ", then the version's, and a check
   * that decodes every row returns exactly that.
   */
  lemma MasterBeforeVersion(db: Database, ver: int, m: string, v: string)
    requires Master(db).err == Some(m) && m != ""
    requires Version(db).err == Some(v)
    requires UpTime(db).err == None && Sync(db).err == None
    requires Standby(db).err == None && ConfigLoadTime(db, ver).err == None
    ensures Combined(LookupErrors(db, ver)) == Some(m + "; " + v)
    ensures db.checkState.Rows? && (forall i :: 0 <= i < |db.checkState.rows| ==> db.checkState.rows[i].Decoded?) ==>
      Scraped(db, ver).err == Some(m + "; " + v)
  {
    var two := [Some(m), Some(v)];
    var nils: seq<Error> := [None, None, None, None];
    assert LookupErrors(db, ver) == two + nils;
    MessagesAppend(two, nils);
    MessagesOfNils(nils);
    assert Messages(LookupErrors(db, ver)) == Messages(two);
    CombinedPair(Some(m), Some(v));
    if db.checkState.Rows? && (forall i :: 0 <= i < |db.checkState.rows| ==> db.checkState.rows[i].Decoded?) {
      assert FailureIndex(db.checkState.rows) == |db.checkState.rows|;
    }
  }

  /** Every sample carries as many label values as its Desc has label names. */
  lemma WellFormedSamples(db: Database, ver: int)
    ensures AllWellFormed(Scraped(db, ver).samples)
  {
  }
}
