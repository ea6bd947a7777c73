/**
 * collector/collector.go: the GreenPlumCollector. Every collection cycle
 * counts itself, checks (or reopens) its database handle with a version
 * probe, runs every enabled scraper in order and then sends the four
 * exporter metrics.
 */
module Collector {
  import opened Samples
  import opened RowPolicies
  import Oracle
  import Scrapers
  import Stopwatch

  /** `c.db`: nil, an open pool, or a pool that was closed but not set back to nil. */
  datatype Handle = NoHandle | OpenHandle | ClosedHandle

  /** What database/sql's Ping answers on a pool that was closed. */
  const ClosedError := "sql: database is closed"

  /** How the server answers the version probe on a pool that is open: Ping's error, then the version query. */
  datatype Probe = Probe(ping: Error, version: QueryResult<int>)

  /** A fresh connection: sql.Open's error, then how the new pool answers the probe. */
  datatype Dial = Dial(open: Error, probe: Probe)

  /**
   * What one cycle depends on besides the collector's state: the probe of
   * the current pool, a fresh connection should one be needed, the
   * database the scrapers read, the elapsed nanoseconds of the cycle's
   * i-th stopwatch task, and the cycle's duration in seconds.
   */
  datatype Cycle = Cycle(existing: Probe, dial: Dial, db: Oracle.Database, elapsed: nat -> nat, seconds: real)

  datatype ProbeResult = ProbeResult(ver: int, err: Error)

  /**
   * getGreenplumMajorVersion: a closed pool fails to ping; a failed ping or
   * query is returned; each decoded row overwrites the version, and the
   * first row Scan rejects ends the probe with its error after the rows
   * before it were stored. No rows leaves the version as it was.
   */
  function VersionProbe(h: Handle, ver: int, p: Probe): (r: ProbeResult)
    requires h != NoHandle
    ensures h == ClosedHandle ==> r == ProbeResult(ver, Some(ClosedError))
    ensures p.version == Rows([]) && h == OpenHandle && p.ping.None? ==> r == ProbeResult(ver, None)
  {
    if h == ClosedHandle then ProbeResult(ver, Some(ClosedError))
    else if p.ping.Some? then ProbeResult(ver, p.ping)
    else match p.version
      case QueryError(m) => ProbeResult(ver, Some(m))
      case Rows(rs) =>
        var k := FailureIndex(rs);
        ProbeResult(if k == 0 then ver else rs[k - 1].value, if k < |rs| then Some(rs[k].msg) else None)
  }

  datatype ConnState = ConnState(handle: Handle, ver: int, err: Error)

  /** getGreenPlumConnection: the new pool is kept only when it answers the probe; otherwise `c.db` stays as it was. */
  function Connect(h: Handle, ver: int, d: Dial): ConnState
  {
    if d.open.Some? then ConnState(h, ver, d.open)
    else
      var p := VersionProbe(OpenHandle, ver, d.probe);
      if p.err.Some? then ConnState(h, p.ver, p.err) else ConnState(OpenHandle, p.ver, None)
  }

  /** checkGreenPlumConn: connect when there is no pool; reprobe it otherwise, and on failure drop it and connect afresh. */
  function Check(h: Handle, ver: int, existing: Probe, d: Dial): ConnState
  {
    if h == NoHandle then Connect(h, ver, d)
    else
      var p := VersionProbe(h, ver, existing);
      if p.err.None? then ConnState(h, p.ver, None) else Connect(NoHandle, p.ver, d)
  }

  /** A fresh connection fails: sql.Open fails or the new pool does not answer the probe. */
  predicate FreshFails(d: Dial)
  {
    d.open.Some? || VersionProbe(OpenHandle, 0, d.probe).err.Some?
  }

  /** What the scrapers send, one after the other in list order. */
  function ScrapersOutput(scrapers: seq<Scrapers.Scraper>, db: Oracle.Database, ver: int): seq<Sample>
  {
    if scrapers == [] then []
    else ScrapersOutput(scrapers[..|scrapers| - 1], db, ver) + Scrapers.Scraped(scrapers[|scrapers| - 1], db, ver).samples
  }

  /** The four exporter metrics Collect sends after the cycle, in this order. */
  function MetaSamples(totalScraped: nat, totalError: nat, scrapeDuration: real, up: real): seq<Sample>
  {
    [ Sample(ExporterTotalScraped, Counter, totalScraped as real, []),
      Sample(ExporterTotalError, Counter, totalError as real, []),
      Plain(ExporterScrapeDuration, scrapeDuration),
      Plain(Up, up) ]
  }

  /** The report row of the i-th scraper's task names that scraper. */
  predicate ScraperRow(report: seq<Stopwatch.ReportLine>, scrapers: seq<Scrapers.Scraper>, i: nat)
    requires i < |scrapers| && |report| == 5 + |scrapers|
  {
    report[5 + i].TaskRow? && report[5 + i].taskName == "scraping: " + Scrapers.Name(scrapers[i])
  }

  /** The number of failed connection checks. */
  function Failures(checks: seq<bool>): nat
  {
    if checks == [] then 0 else Failures(checks[..|checks| - 1]) + if checks[|checks| - 1] then 0 else 1
  }

  class GreenPlumCollector {
    var handle: Handle
    var ver: int
    var scrapers: seq<Scrapers.Scraper>
    var totalScraped: nat
    var totalError: nat
    var scrapeDuration: real
    var up: real
    /** The outcome of every connection check so far, true for a success. */
    ghost var checks: seq<bool>

    /** totalScraped counts the cycles and totalError the failed connection checks. */
    ghost predicate Valid()
      reads this
    {
      totalScraped == |checks| && totalError == Failures(checks)
    }

    /** NewCollector: no pool, version 0, zeroed metrics. */
    constructor NewCollector(enabledScrapers: seq<Scrapers.Scraper>)
      ensures Valid() && checks == []
      ensures handle == NoHandle && ver == 0 && scrapers == enabledScrapers
      ensures totalScraped == 0 && totalError == 0 && scrapeDuration == 0.0 && up == 0.0
    {
      handle := NoHandle;
      ver := 0;
      scrapers := enabledScrapers;
      totalScraped := 0;
      totalError := 0;
      scrapeDuration := 0.0;
      up := 0.0;
      checks := [];
    }

    /** getGreenplumMajorVersion on pool `h`. */
    method GetGreenplumMajorVersion(h: Handle, p: Probe) returns (err: Error)
      requires h != NoHandle
      modifies this`ver
      ensures ProbeResult(ver, err) == VersionProbe(h, old(ver), p)
    {
      if h == ClosedHandle {
        return Some(ClosedError);
      }
      if p.ping.Some? {
        return p.ping;
      }
      if p.version.QueryError? {
        return Some(p.version.msg);
      }
      var rows := p.version.rows;
      var i := 0;
      while i < |rows|
        invariant i <= |rows|
        invariant forall j :: 0 <= j < i ==> rows[j].Decoded?
        invariant ver == if i == 0 then old(ver) else rows[i - 1].value
      {
        match rows[i] {
          case DecodeError(m, _) =>
            return Some(m);
          case Decoded(verMajor) =>
            ver := verMajor;
        }
        i := i + 1;
      }
      err := None;
    }

    /** getGreenPlumConnection. */
    method GetGreenPlumConnection(d: Dial) returns (err: Error)
      modifies this`handle, this`ver
      ensures ConnState(handle, ver, err) == Connect(old(handle), old(ver), d)
    {
      if d.open.Some? {
        return d.open;
      }
      err := GetGreenplumMajorVersion(OpenHandle, d.probe);
      if err.Some? {
        return;
      }
      handle := OpenHandle;
    }

    /** checkGreenPlumConn. */
    method CheckGreenPlumConn(existing: Probe, d: Dial) returns (err: Error)
      modifies this`handle, this`ver
      ensures ConnState(handle, ver, err) == Check(old(handle), old(ver), existing, d)
    {
      if handle == NoHandle {
        err := GetGreenPlumConnection(d);
        return;
      }
      err := GetGreenplumMajorVersion(handle, existing);
      if err.None? {
        return;
      }
      handle := NoHandle;
      err := GetGreenPlumConnection(d);
    }

    /**
     * scrape: counts the cycle; a failed check counts an error, sets up to 0
     * and runs no scraper; otherwise up is 1, every scraper runs once in
     * list order whatever the others return, and the pool is closed but kept.
     * `report` is the stopwatch table that is logged, one row per task.
     */
    method Scrape(cycle: Cycle) returns (out: seq<Sample>, report: seq<Stopwatch.ReportLine>)
      requires Valid()
      modifies this
      ensures Valid()
      ensures var c := Check(old(handle), old(ver), cycle.existing, cycle.dial);
        && ver == c.ver
        && scrapers == old(scrapers)
        && totalScraped == old(totalScraped) + 1
        && checks == old(checks) + [c.err.None?]
        && scrapeDuration == cycle.seconds
        && (c.err.Some? ==>
              totalError == old(totalError) + 1 && up == 0.0 && handle == c.handle && out == [] && report == [])
        && (c.err.None? ==>
              && totalError == old(totalError) && up == 1.0 && handle == ClosedHandle
              && out == ScrapersOutput(scrapers, cycle.db, c.ver)
              && |report| == 5 + |scrapers|
              && report[4].TaskRow? && report[4].taskName == "check connections"
              && forall i :: 0 <= i < |scrapers| ==> ScraperRow(report, scrapers, i))
    {
      var watch := new Stopwatch.StopWatch.New("scrape");
      totalScraped := totalScraped + 1;
      var err := TimedCheck(watch, cycle);
      if err.Some? {
        totalError := totalError + 1;
        checks := checks + [false];
        assert checks[..|checks| - 1] == old(checks);
        scrapeDuration := cycle.seconds;
        up := 0.0;
        return [], [];
      }
      checks := checks + [true];
      assert checks[..|checks| - 1] == old(checks);
      up := 1.0;
      out := RunScrapers(watch, cycle);
      scrapeDuration := cycle.seconds;
      report := watch.PrettyPrint();
      TaskRows(watch, report, scrapers);
      handle := ClosedHandle;
    }

    /** checkGreenPlumConn timed as the stopwatch's first task. */
    method TimedCheck(watch: Stopwatch.StopWatch, cycle: Cycle) returns (err: Error)
      requires watch.Valid() && !watch.Running() && watch.taskList == []
      modifies this`handle, this`ver, watch
      ensures ConnState(handle, ver, err) == Check(old(handle), old(ver), cycle.existing, cycle.dial)
      ensures watch.Valid() && !watch.Running()
      ensures |watch.taskList| == 1 && watch.taskList[0].taskName == "check connections"
    {
      watch.MustStart("check connections");
      err := CheckGreenPlumConn(cycle.existing, cycle.dial);
      watch.MustStop(cycle.elapsed(0));
    }

    /** The loop of scrape over `c.scrapers`: each is timed on the stopwatch, its error only logged. */
    method RunScrapers(watch: Stopwatch.StopWatch, cycle: Cycle) returns (out: seq<Sample>)
      requires watch.Valid() && !watch.Running() && |watch.taskList| == 1
      modifies watch
      ensures watch.Valid() && !watch.Running()
      ensures |watch.taskList| == 1 + |scrapers| && watch.taskList[0] == old(watch.taskList[0])
      ensures forall j :: 0 <= j < |scrapers| ==> watch.taskList[1 + j].taskName == "scraping: " + Scrapers.Name(scrapers[j])
      ensures out == ScrapersOutput(scrapers, cycle.db, ver)
    {
      out := [];
      for i := 0 to |scrapers|
        invariant watch.Valid() && !watch.Running()
        invariant |watch.taskList| == 1 + i && watch.taskList[0] == old(watch.taskList[0])
        invariant forall j :: 0 <= j < i ==> watch.taskList[1 + j].taskName == "scraping: " + Scrapers.Name(scrapers[j])
        invariant out == ScrapersOutput(scrapers[..i], cycle.db, ver)
      {
        var scraper := scrapers[i];
        watch.MustStart("scraping: " + Scrapers.Name(scraper));
        var samples, scrapeErr := Scrapers.Scrape(scraper, cycle.db, ver);
        ScrapersOutputStep(scrapers, i, cycle.db, ver);
        out := out + samples;
        watch.MustStop(cycle.elapsed(i + 1));
      }
      assert scrapers[..|scrapers|] == scrapers;
    }

    /** Collect: one cycle, then totalScraped, totalError, scrapeDuration and up. */
    method Collect(cycle: Cycle) returns (out: seq<Sample>)
      requires Valid()
      modifies this
      ensures Valid()
      ensures var c := Check(old(handle), old(ver), cycle.existing, cycle.dial);
        && ver == c.ver
        && scrapers == old(scrapers)
        && checks == old(checks) + [c.err.None?]
        && totalScraped == old(totalScraped) + 1
        && totalError == old(totalError) + (if c.err.Some? then 1 else 0)
        && up == (if c.err.Some? then 0.0 else 1.0)
        && handle == (if c.err.Some? then c.handle else ClosedHandle)
        && out == (if c.err.Some? then [] else ScrapersOutput(scrapers, cycle.db, c.ver))
                  + MetaSamples(totalScraped, totalError, cycle.seconds, up)
    {
      var scraped, report := Scrape(cycle);
      out := scraped + MetaSamples(totalScraped, totalError, scrapeDuration, up);
    }
  }

  /** The report rows of a cycle's tasks: the check first, then one per scraper in list order. */
  lemma TaskRows(watch: Stopwatch.StopWatch, report: seq<Stopwatch.ReportLine>, scrapers: seq<Scrapers.Scraper>)
    requires |watch.taskList| == 1 + |scrapers| && watch.taskList[0].taskName == "check connections"
    requires forall j :: 0 <= j < |scrapers| ==> watch.taskList[1 + j].taskName == "scraping: " + Scrapers.Name(scrapers[j])
    requires |report| == 4 + |watch.taskList|
    requires forall i :: 0 <= i < |watch.taskList| ==> report[4 + i] == Stopwatch.RowOf(watch.taskList[i], watch.totalElapsed)
    ensures |report| == 5 + |scrapers|
    ensures report[4].TaskRow? && report[4].taskName == "check connections"
    ensures forall i :: 0 <= i < |scrapers| ==> ScraperRow(report, scrapers, i)
  {
    assert report[4 + 0] == Stopwatch.RowOf(watch.taskList[0], watch.totalElapsed);
    forall i | 0 <= i < |scrapers|
      ensures ScraperRow(report, scrapers, i)
    {
      var t := watch.taskList[1 + i];
      assert report[4 + (1 + i)] == Stopwatch.RowOf(t, watch.totalElapsed);
    }
  }

  /** A closed pool never answers, so every cycle after a successful one connects afresh. */
  lemma ClosedHandleReopens(ver: int, existing: Probe, d: Dial)
    ensures Check(ClosedHandle, ver, existing, d) == Connect(NoHandle, ver, d)
  {
  }

  /** Whether a probe fails does not depend on the version held before it. */
  lemma ProbeErrorIgnoresVersion(h: Handle, v1: int, v2: int, p: Probe)
    requires h != NoHandle
    ensures VersionProbe(h, v1, p).err == VersionProbe(h, v2, p).err
  {
  }

  /**
   * The check fails exactly when a fresh connection was needed (no pool, or
   * the pool failed its probe) and that fresh connection failed; then the
   * error returned is the fresh connection's. A check that succeeds leaves
   * an open pool.
   */
  lemma CheckFailsOnlyOnFreshFailure(h: Handle, ver: int, existing: Probe, d: Dial)
    ensures var c := Check(h, ver, existing, d);
      c.err.Some? <==> (h == NoHandle || VersionProbe(h, ver, existing).err.Some?) && FreshFails(d)
    ensures Check(h, ver, existing, d).err.None? ==> Check(h, ver, existing, d).handle == OpenHandle
  {
    var v := if h == NoHandle then ver else VersionProbe(h, ver, existing).ver;
    ProbeErrorIgnoresVersion(OpenHandle, v, 0, d.probe);
  }

  /** A failed fresh connection leaves `c.db` as it was. */
  lemma FailedConnectKeepsHandle(h: Handle, ver: int, d: Dial)
    requires Connect(h, ver, d).err.Some?
    ensures Connect(h, ver, d).handle == h
  {
  }

  /** A probe whose rows all decode stores the last row's version; with no rows the version is kept. */
  lemma LastRowWins(ver: int, rs: seq<Row<int>>)
    requires forall i :: 0 <= i < |rs| ==> rs[i].Decoded?
    ensures VersionProbe(OpenHandle, ver, Probe(None, Rows(rs))) ==
      ProbeResult(if rs == [] then ver else rs[|rs| - 1].value, None)
  {
    var k := FailureIndex(rs);
    assert k == |rs|;
  }

  /** One more scraper adds its own samples after those already sent. */
  lemma ScrapersOutputStep(scrapers: seq<Scrapers.Scraper>, i: nat, db: Oracle.Database, ver: int)
    requires i < |scrapers|
    ensures ScrapersOutput(scrapers[..i + 1], db, ver) == ScrapersOutput(scrapers[..i], db, ver) + Scrapers.Scraped(scrapers[i], db, ver).samples
  {
    assert scrapers[..i + 1][..i] == scrapers[..i];
  }

  /** The scrapers' samples follow the list order: splitting the list splits the output. */
  lemma {:induction false} ScrapersOutputAppend(a: seq<Scrapers.Scraper>, b: seq<Scrapers.Scraper>, db: Oracle.Database, ver: int)
    ensures ScrapersOutput(a + b, db, ver) == ScrapersOutput(a, db, ver) + ScrapersOutput(b, db, ver)
  {
    if b == [] {
      assert a + b == a;
    } else {
      assert (a + b)[..|a + b| - 1] == a + b[..|b| - 1];
      ScrapersOutputAppend(a, b[..|b| - 1], db, ver);
    }
  }

  /** A cycle's scrapers send only samples MustNewConstMetric accepts. */
  lemma {:induction false} ScrapersOutputWellFormed(scrapers: seq<Scrapers.Scraper>, db: Oracle.Database, ver: int)
    ensures AllWellFormed(ScrapersOutput(scrapers, db, ver))
  {
    if scrapers != [] {
      var last := scrapers[|scrapers| - 1];
      ScrapersOutputWellFormed(scrapers[..|scrapers| - 1], db, ver);
      Scrapers.WellFormedSamples(last, db, ver);
      WellFormedAppend(ScrapersOutput(scrapers[..|scrapers| - 1], db, ver), Scrapers.Scraped(last, db, ver).samples);
    }
  }

  /** There are never more failed checks than cycles, and none exactly when every check succeeded. */
  lemma {:induction false} FailuresBound(checks: seq<bool>)
    ensures Failures(checks) <= |checks|
    ensures Failures(checks) == 0 <==> forall i :: 0 <= i < |checks| ==> checks[i]
  {
    if checks != [] {
      var init := checks[..|checks| - 1];
      FailuresBound(init);
      if forall i :: 0 <= i < |checks| ==> checks[i] {
        assert forall i :: 0 <= i < |init| ==> init[i] == checks[i];
      }
      if Failures(checks) == 0 {
        assert forall i :: 0 <= i < |init| ==> init[i] == checks[i];
      }
    }
  }
}
