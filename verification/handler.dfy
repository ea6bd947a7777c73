/**
 * main.go: the scraper registration table and the filter in newHandler
 * that hands the switched-on scrapers to the collector.
 */
module Handler {
  import opened Scrapers
  import Collector

  /** The registration table: seven scrapers switched on, six off. */
  const Registry: map<Scraper, bool> :=
    map[ ClusterState := true, Segment := true, DatabaseSize := true, Locks := true,
         Connections := true, MaxConn := true, ConnDetail := true,
         Users := false, BgWriterState := false,
         System := false, Query := false, DynamicMemory := false, Disk := false ]

  /** The scrapers whose flag is true. */
  function EnabledSet(registry: map<Scraper, bool>): set<Scraper>
  {
    set s | s in registry && registry[s]
  }

  /**
   * The filter loop of newHandler: every key whose flag is true is appended
   * once. Go walks a map in no fixed order, so each step picks any key not
   * yet visited.
   */
  method EnabledScrapers(registry: map<Scraper, bool>) returns (enabled: seq<Scraper>)
    ensures forall s :: s in enabled <==> s in registry && registry[s]
    ensures forall i, j :: 0 <= i < j < |enabled| ==> enabled[i] != enabled[j]
    ensures |enabled| == |EnabledSet(registry)|
  {
    enabled := [];
    ghost var seen: set<Scraper> := {};
    var remaining := registry.Keys;
    while remaining != {}
      invariant remaining <= registry.Keys
      invariant forall s :: s in enabled <==> s in registry && registry[s] && s !in remaining
      invariant forall i, j :: 0 <= i < j < |enabled| ==> enabled[i] != enabled[j]
      invariant seen == set s | s in enabled
      invariant |seen| == |enabled|
      decreases |remaining|
    {
      var scraper :| scraper in remaining;
      if registry[scraper] {
        enabled := enabled + [scraper];
        seen := seen + {scraper};
      }
      remaining := remaining - {scraper};
    }
    assert seen == EnabledSet(registry);
  }

  /** The collector newHandler registers: it runs exactly the switched-on scrapers, each once. */
  method NewHandler(registry: map<Scraper, bool>) returns (c: Collector.GreenPlumCollector)
    ensures fresh(c) && c.Valid()
    ensures forall s :: s in c.scrapers <==> s in registry && registry[s]
    ensures |c.scrapers| == |EnabledSet(registry)|
  {
    var enabledScrapers := EnabledScrapers(registry);
    c := new Collector.GreenPlumCollector.NewCollector(enabledScrapers);
  }

  /** With the table as shipped, exactly the seven scrapers below are switched on. */
  lemma SevenEnabled()
    ensures EnabledSet(Registry) == {ClusterState, Segment, DatabaseSize, Locks, Connections, MaxConn, ConnDetail}
    ensures |EnabledSet(Registry)| == 7
  {
    var seven := {ClusterState, Segment, DatabaseSize, Locks, Connections, MaxConn, ConnDetail};
    assert EnabledSet(Registry) == seven;
    assert |seven| == 7;
  }

  /** No switched-off scraper reaches the collector. */
  lemma DisabledNeverRun(s: Scraper)
    requires s in Registry && !Registry[s]
    ensures s !in EnabledSet(Registry)
  {
  }
}
