/**
 * collector/system.go: memory, swap, CPU, disk and network readings of
 * every host, from the gpperfmon system_now table.
 */
module SystemScraper {
  import opened Samples
  import opened Oracle
  import opened RowPolicies

  function MemorySamples(r: SystemRow): seq<Sample>
  {
    [ Labelled(MemTotal, r.memTotal, r.hostname), Labelled(MemUsed, r.memUsed, r.hostname),
      Labelled(MemActualUsed, r.memActualUsed, r.hostname), Labelled(MemActualFree, r.memActualFree, r.hostname) ]
  }

  function SwapSamples(r: SystemRow): seq<Sample>
  {
    [ Labelled(SwapTotal, r.swapTotal, r.hostname), Labelled(SwapUsed, r.swapUsed, r.hostname),
      Labelled(SwapPageIn, r.swapPageIn, r.hostname), Labelled(SwapPageOut, r.swapPageOut, r.hostname) ]
  }

  function CpuSamples(r: SystemRow): seq<Sample>
  {
    [ Labelled(CpuUser, r.cpuUser, r.hostname), Labelled(CpuSys, r.cpuSys, r.hostname),
      Labelled(CpuIdle, r.cpuIdle, r.hostname), Labelled(CpuAvg1m, r.load1m, r.hostname),
      Labelled(CpuAvg5m, r.load5m, r.hostname), Labelled(CpuAvg15m, r.load15m, r.hostname) ]
  }

  function DiskSamples(r: SystemRow): seq<Sample>
  {
    [ Labelled(DiskRo, r.diskRo, r.hostname), Labelled(DiskWo, r.diskWo, r.hostname),
      Labelled(DiskRb, r.diskRb, r.hostname), Labelled(DiskWb, r.diskWb, r.hostname) ]
  }

  function NetSamples(r: SystemRow): seq<Sample>
  {
    [ Labelled(NetRp, r.netRp, r.hostname), Labelled(NetWp, r.netWp, r.hostname),
      Labelled(NetRb, r.netRb, r.hostname), Labelled(NetWb, r.netWb, r.hostname) ]
  }

  /** The 22 gauges of one host in the order they are sent; `quantum` is read but not sent. */
  function SystemSamples(r: SystemRow): seq<Sample>
  {
    MemorySamples(r) + SwapSamples(r) + CpuSamples(r) + DiskSamples(r) + NetSamples(r)
  }

  /** Every sample is a gauge labelled with `h` alone. */
  predicate HostGauges(ss: seq<Sample>, h: string)
  {
    forall i :: 0 <= i < |ss| ==> ss[i].kind == Gauge && ss[i].labels == [h]
  }

  lemma HostGaugesAppend(a: seq<Sample>, b: seq<Sample>, h: string)
    requires HostGauges(a, h) && HostGauges(b, h)
    ensures HostGauges(a + b, h)
  {
    forall i | 0 <= i < |a + b|
      ensures (a + b)[i].kind == Gauge && (a + b)[i].labels == [h]
    {
      if i < |a| {
        assert (a + b)[i] == a[i];
      } else {
        assert (a + b)[i] == b[i - |a|];
      }
    }
  }

  /** Scrape: the abort policy; the version argument is not used. */
  function Scraped(db: Database, ver: int): ScrapeResult
  {
    Abort(db.system, SystemSamples)
  }

  method Scrape(db: Database, ver: int) returns (out: seq<Sample>, err: Error)
    ensures ScrapeResult(out, err) == Scraped(db, ver)
  {
    if db.system.QueryError? {
      return [], Some(db.system.msg);
    }
    out, err := ScanUntilFailure(db.system.rows, SystemSamples);
  }

  /** Each host sends 22 gauges, all labelled with its hostname alone. */
  lemma HostSamples(r: SystemRow)
    ensures |SystemSamples(r)| == 22
    ensures HostGauges(SystemSamples(r), r.hostname)
  {
    var h := r.hostname;
    HostGaugesAppend(MemorySamples(r), SwapSamples(r), h);
    HostGaugesAppend(MemorySamples(r) + SwapSamples(r), CpuSamples(r), h);
    HostGaugesAppend(MemorySamples(r) + SwapSamples(r) + CpuSamples(r), DiskSamples(r), h);
    HostGaugesAppend(MemorySamples(r) + SwapSamples(r) + CpuSamples(r) + DiskSamples(r), NetSamples(r), h);
  }

  /** The families of the 22 gauges each declare the single label name hostname. */
  lemma HostSamplesWellFormed(r: SystemRow)
    ensures AllWellFormed(SystemSamples(r))
  {
    MemoryWellFormed(r);
    SwapWellFormed(r);
    CpuWellFormed(r);
    DiskWellFormed(r);
    NetWellFormed(r);
    WellFormedAppend(MemorySamples(r), SwapSamples(r));
    WellFormedAppend(MemorySamples(r) + SwapSamples(r), CpuSamples(r));
    WellFormedAppend(MemorySamples(r) + SwapSamples(r) + CpuSamples(r), DiskSamples(r));
    WellFormedAppend(MemorySamples(r) + SwapSamples(r) + CpuSamples(r) + DiskSamples(r), NetSamples(r));
  }

  /** Each group of gauges is well formed on its own. */
  lemma MemoryWellFormed(r: SystemRow)
    ensures AllWellFormed(MemorySamples(r))
  {
  }

  lemma SwapWellFormed(r: SystemRow)
    ensures AllWellFormed(SwapSamples(r))
  {
  }

  lemma CpuWellFormed(r: SystemRow)
    ensures AllWellFormed(CpuSamples(r))
  {
  }

  lemma DiskWellFormed(r: SystemRow)
    ensures AllWellFormed(DiskSamples(r))
  {
  }

  lemma NetWellFormed(r: SystemRow)
    ensures AllWellFormed(NetSamples(r))
  {
  }

  /** Neither the sample time nor `quantum` shows in what a host sends. */
  lemma UnsentColumns(r: SystemRow, t: string, x: real)
    ensures SystemSamples(r.(cTime := t, quantum := x)) == SystemSamples(r)
  {
  }

  /**
   * The rows before the first one Scan rejects send 22 gauges each; that
   * row's error is returned, or nil when every row decoded (no rows at all
   * included); a failed query sends nothing.
   */
  lemma Outcomes(db: Database, ver: int)
    ensures db.system.QueryError? ==> Scraped(db, ver) == ScrapeResult([], Some(db.system.msg))
    ensures db.system.Rows? ==>
      var rs := db.system.rows;
      var k := FailureIndex(rs);
      && |Scraped(db, ver).samples| == 22 * k
      && (Scraped(db, ver).err.Some? <==> k < |rs|)
      && (k < |rs| ==> Scraped(db, ver).err == Some(rs[k].msg))
  {
    if db.system.Rows? {
      var rs := db.system.rows;
      var k := FailureIndex(rs);
      EmitDecodedLength(rs[..k], SystemSamples, 22);
      AllDecodedNoErrors(rs[..k]);
    }
  }

  /** The version argument changes nothing. */
  lemma VersionIgnored(db: Database, v1: int, v2: int)
    ensures Scraped(db, v1) == Scraped(db, v2)
  {
  }

  /** Every sample carries as many label values as its Desc has label names. */
  lemma WellFormedSamples(db: Database, ver: int)
    ensures AllWellFormed(Scraped(db, ver).samples)
  {
    if db.system.Rows? {
      var k := FailureIndex(db.system.rows);
      forall r ensures AllWellFormed(SystemSamples(r)) {
        HostSamplesWellFormed(r);
      }
      EmitDecodedWellFormed(db.system.rows[..k], SystemSamples);
    }
  }
}
