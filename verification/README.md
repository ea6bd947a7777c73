# Greenplum exporter collection logic in Dafny

This project models the collection logic of a Prometheus exporter for
Greenplum, written in Go. The model covers five parts:

- **The collector.** `GreenPlumCollector` counts every collection cycle. It checks its database
  handle with a version probe, or reopens it, and then runs the enabled scrapers in list order.
  Last, it sends four exporter metrics: cycles, failed checks, duration and `up`.
- **The thirteen scrapers.** Each one turns query results into metric samples and returns one
  error. They walk rows in three ways:
  - *accumulate*: skip a row that fails to decode and combine the errors;
  - *abort*: stop at the first row that fails to decode;
  - *first row*: read one row, and report "... not found" when there is none.
- **The pure helpers.** `combineErr`, the segment code tables and the connection-string rewrite.
- **The stopwatch.** It times each task of a cycle and prints a report of them.
- **The handler filter.** It picks the enabled scrapers out of the registration table.

The database is an oracle, `Oracle.Database`. It holds one `QueryResult` per query. A result is
either `QueryError(msg)` or `Rows` of `Decoded(value)` / `DecodeError(msg, partial)`. `partial` is
what Scan left in the destination variables.

Where the source chooses a query by version, `Versioned(legacy, current)` stands for the choice,
and `ver < 6` picks the legacy query. A metric sent on the channel is a `Sample`: metric family,
kind, value and label values. A Go `error` is `Option<string>`.

Every scraper has two parts:

- a specification function `Scraped`, which gives the samples sent and the error returned;
- a `Scrape` method that walks the rows the way the Go loop does, proved equal to `Scraped`.

The collector and the stopwatch are classes whose methods update fields. Their contracts state the
new state, and each keeps an invariant:

- the stopwatch: the task count and the running total agree with the task list;
- the collector: the counters equal the number of cycles and of failed checks.

A few behaviours of the code are easy to miss, and the model keeps them:

- **A version probe with no rows.** A probe that returns no rows succeeds and keeps the previous
  version. A probe that fails on its k-th row keeps the version of the row before.
- **Order of the scrapers.** The enabled list is built by walking a Go map, so its order is
  unspecified. Once built, the list is run in its own order.
- **The handle after a successful cycle.** A successful cycle closes the pool without setting it
  to nil, so the next cycle finds a closed pool. Its probe fails and it connects again.
- **Samples on failure paths.** The abort-policy scrapers keep the samples of the rows before the
  failing one. The cluster-state and bgwriter scrapers mean to send a state sample of value 0 on
  their failure paths; that sample is the corrected behaviour. As written, those calls pass two
  label values to a three-label family, so `MustNewConstMetric` panics and nothing is sent (see
  "## Findings").

## Model

| member | source | states |
|---|---|---|
| Errors.CombineErr | collector/error.go:9-27 | the loop returns exactly `Combined(errs)`: the non-nil messages, empty leading ones dropped, joined by "; ", or nil when that is empty |
| Errors.CombinedSnoc | collector/error.go:11-20 | one more argument: nil leaves the result alone; a message is appended after "; " to a non-empty accumulator, or becomes the result when the accumulator is empty (an empty one then stays nil) |
| Errors.AllNilCombinesToNil | collector/error.go:11-23 | nothing but nil arguments gives nil |
| Errors.CombinedJoinsMessages | collector/error.go:11-19 | when no message is empty, the result is the non-nil messages joined by "; " in argument order, nil when there are none |
| Errors.SingleErrorKept | collector/error.go:13-25 | one non-nil argument with a non-empty message, all others nil: the result is that message |
| Errors.CombinedNilIff | collector/error.go:13-23 | the result is nil if and only if every argument is nil or has an empty message |
| Errors.EmptyAfterNonEmptyAddsSeparator | collector/error.go:15-16 | an empty message after a non-empty one still appends "; " |
| Errors.CombinedPair | collector/segment.go:61-66 | the two-argument call: a silent first argument leaves the second (or nil); otherwise the second follows after "; " |
| SegmentCodes.GetRole | collector/segment_utils.go:12-20 | the role value is 1 or 2 |
| SegmentCodes.GetMode | collector/segment_utils.go:22-30 | the mode value lies in 1..4 |
| SegmentCodes.GetStatus | collector/segment_utils.go:32-40 | the status value is 0 or 1 |
| SegmentCodes.RoleTable | collector/segment_utils.go:12-20 | lower-cased "p" is 1; every other string is 2 |
| SegmentCodes.ModeTable | collector/segment_utils.go:22-30 | lower-cased "s", "r", "c" are 1, 2, 3; every other string is 4 |
| SegmentCodes.StatusTable | collector/segment_utils.go:32-40 | lower-cased "u" is 1; every other string is 0 |
| SegmentCodes.CaseInsensitive | collector/segment_utils.go:12-40 | each lookup gives the same value for a code and its lower-cased form |
| SegmentCodes.UpperCaseCodes | collector/segment_utils.go:12-40 | "P" is a primary, "U" is up, "C" is change logging |
| SegmentCodes.LowerIdempotent | collector/segment_utils.go:13 | lower-casing twice is lower-casing once |
| Stopwatch.StopWatch.New | stopwatch/stopwatch.go:25-27 | an idle watch with the given id, no tasks and a zero total |
| Stopwatch.StopWatch.Start | stopwatch/stopwatch.go:29-42 | an empty name, and then a running task, are refused with their messages and change nothing; otherwise the named task runs |
| Stopwatch.StopWatch.MustStart | stopwatch/stopwatch.go:44-50 | callers must start an idle watch with a non-empty name; the task list and total are kept |
| Stopwatch.StopWatch.Stop | stopwatch/stopwatch.go:52-66 | an idle watch refuses and changes nothing; otherwise exactly one (name, elapsed) entry is appended, the count grows by one, the total by elapsed, and the watch is idle |
| Stopwatch.StopWatch.MustStop | stopwatch/stopwatch.go:68-72 | callers must stop a running watch; the running task is appended with its elapsed time |
| Stopwatch.StopWatch.ShortSummary | stopwatch/stopwatch.go:74-76 | the id and the total in whole milliseconds, truncated |
| Stopwatch.StopWatch.PrettyPrint | stopwatch/stopwatch.go:78-100 | the summary and three heading lines, then one row per task in the order they were stopped, with truncated ms and a percentage that never exceeds 100 |
| Stopwatch.StopWatch.Clear | stopwatch/stopwatch.go:102-108 | no tasks, zero total and count, empty id, idle; the invariant holds |
| Stopwatch.TaskWithinTotal | stopwatch/stopwatch.go:59-62 | no task took longer than the running total |
| Stopwatch.PercentInRange | stopwatch/stopwatch.go:90-93 | a task's integer share of the total lies in 0..100 |
| Collector.VersionProbe | collector/collector.go:160-186 | a closed pool fails with "sql: database is closed"; no rows keeps the version and succeeds |
| Collector.GreenPlumCollector.NewCollector | collector/collector.go:31-36 | no pool, version 0, the given scrapers, zeroed metrics, invariant established |
| Collector.GreenPlumCollector.GetGreenplumMajorVersion | collector/collector.go:160-186 | the loop stores each decoded row's version and stops at the first Scan error, ending equal to `VersionProbe` |
| Collector.GreenPlumCollector.GetGreenPlumConnection | collector/collector.go:132-154 | the new pool is stored only after a successful probe; otherwise the handle is unchanged and the error returned |
| Collector.GreenPlumCollector.CheckGreenPlumConn | collector/collector.go:114-126 | no pool: connect; a pool that fails its probe is dropped and a fresh connection made |
| Collector.GreenPlumCollector.Scrape | collector/collector.go:69-108 | counts the cycle; a failed check counts an error, sets up 0 and runs no scraper; otherwise up 1, every scraper once in list order whatever they return, the pool closed but kept, and one report row per task |
| Collector.GreenPlumCollector.TimedCheck | collector/collector.go:75-77 | the check runs as the stopwatch's first task, "check connections" |
| Collector.GreenPlumCollector.RunScrapers | collector/collector.go:94-103 | every scraper runs once in list order, timed as "scraping: " + its name; the samples are all scrapers' samples in that order |
| Collector.GreenPlumCollector.Collect | collector/collector.go:42-52 | one cycle, then totalScraped, totalError, scrapeDuration and up in that order; the counters stay equal to cycles and failed checks |
| Collector.TaskRows | collector/collector.go:75-107 | the logged report lists the check first, then one row per scraper in list order |
| Collector.ClosedHandleReopens | collector/collector.go:119-125 | after a successful cycle the closed pool fails its probe, so the next check connects afresh |
| Collector.ProbeErrorIgnoresVersion | collector/collector.go:160-178 | whether a probe fails does not depend on the version held before it |
| Collector.CheckFailsOnlyOnFreshFailure | collector/collector.go:114-126 | the check fails if and only if a fresh connection was needed and it failed; a successful check leaves an open pool |
| Collector.FailedConnectKeepsHandle | collector/collector.go:137-153 | a failed fresh connection leaves `c.db` as it was |
| Collector.LastRowWins | collector/collector.go:173-185 | with every row decoded the last row's version is stored; with none the version is kept |
| Collector.ScrapersOutputAppend | collector/collector.go:94-103 | the scrapers' samples follow list order: splitting the list splits the output |
| Collector.ScrapersOutputWellFormed | collector/collector.go:94-103 | in the corrected model no scraper of a cycle sends a sample with the wrong number of labels |
| Collector.FailuresBound | collector/collector.go:74-79 | failed checks never outnumber cycles, and are zero if and only if every check succeeded |
| Handler.EnabledScrapers | main.go:66-72 | in any map order: exactly the keys whose flag is true, each once |
| Handler.NewHandler | main.go:66-74 | the collector gets exactly the enabled scrapers, each once |
| Handler.SevenEnabled | main.go:25-40 | the shipped table enables exactly cluster state, segment, database size, locks, connections, max connections and connection detail |
| Handler.DisabledNeverRun | main.go:68-74 | no scraper whose flag is false reaches the collector |
| Scrapers.Scrape | collector/scrapers.go:12-19 | the interface call is the implementation's own Scrape |
| Scrapers.OnlyDialectMatters | collector/scrapers.go:18 | only which side of 6 the version falls on matters, and the ungated scrapers ignore it |
| Scrapers.WellFormedSamples | collector/scrapers.go:18 | in the corrected model every scraper sends only samples with as many label values as label names |
| Scrapers.NamesUnique | collector/scrapers.go:15 | two scrapers with the same name are the same scraper |
| RowPolicies.ScanAll | collector/diskspace.go:60-76 | the accumulate loop: samples of the decoded rows, errors of the failed rows, and the decoded count |
| RowPolicies.EmitDecodedSource | collector/diskspace.go:60-76 | every sample the accumulate loop sends comes from the values of a row that decoded; the lemma names that row |
| RowPolicies.FailedRowSendsNothing | collector/segment.go:96-99 | a failed row sends nothing and adds its error; the rows after it are still read |
| RowPolicies.RowsAccounted | collector/segment.go:90-104 | every row is counted once, as decoded or as an error |
| RowPolicies.AccumulateError | collector/segment.go:88-106 | all rows decoded gives nil; a failed row with a message gives an error |
| RowPolicies.FailureIndex | collector/locks.go:105-124 | the rows before the index decoded and the row at it did not |
| RowPolicies.ScanUntilFailure | collector/locks.go:105-129 | the abort loop: samples of the rows before the first failure, then that failure's error, or nil |
| RowPolicies.AbortAgreesWhenAllDecode | collector/locks.go:105-129 | with every row decoded, aborting and accumulating agree |
| RowPolicies.AbortSendsPrefix | collector/locks.go:121-126 | what the abort policy sends is a prefix of what accumulating would send |
| RowPolicies.ReadFirstRow | collector/connections.go:76-94 | the first-row loop: the query error, the first row's samples or error, or "not found" |
| RowPolicies.FirstRowIsAbortOnHead | collector/connections.go:76-94 | on a non-empty result the first-row policy is the abort policy on the first row alone |
| RowPolicies.FirstValue | collector/cluster_state.go:103-121 | nil only for a decoded first row (when an empty result is an error), whose value is returned; any error leaves the zero value |
| RowPolicies.ReadFirstValue | collector/max_connections.go:57-75 | the single-column lookup loop equals `FirstValue` |
| ClusterStateScraper.StateDown | collector/cluster_state.go:71 | the corrected down sample: state 0 with three empty labels, well formed |
| ClusterStateScraper.StateDownLabelCount | collector/cluster_state.go:28-33 | the down sample as written has one label value fewer than the state family's three names |
| ClusterStateScraper.Scrape | collector/cluster_state.go:66-101 | equals `Scraped`: a failed check sends the down sample with its error; otherwise six lookups, four samples and their combined error |
| ClusterStateScraper.CheckFailureStops | collector/cluster_state.go:70-85 | a failed query or the first check row Scan rejects: only the down sample, with that error |
| ClusterStateScraper.CheckSuccessSendsFour | collector/cluster_state.go:88-100 | a check whose rows all decode sends state 1 labelled version, master, standby, then the uptime, sync and reload-time values the lookups read (zero where one failed), whatever the lookups return; the error is their combination |
| ClusterStateScraper.EmptyLookups | collector/cluster_state.go:103-222 | each lookup with no rows gives its "... not found" error and zero value, except the standby, which gives "" and nil |
| ClusterStateScraper.StandbyOptional | collector/cluster_state.go:163-179 | the standby lookup fails only when its query or first row does |
| ClusterStateScraper.MasterBeforeVersion | collector/cluster_state.go:100 | for any messages, when only the master and version lookups fail (the master's message non-empty), the combined error, and the scrape's error after a check whose rows all decode, is the master's message, "; ", then the version's |
| ClusterStateScraper.WellFormedSamples | collector/cluster_state.go:95-98 | every sample sent is well formed in the corrected model |
| SegmentScraper.ScrapeSegmentConfig | collector/segment.go:68-107 | the version-gated query under the accumulate policy |
| SegmentScraper.ScrapeSegmentDiskFree | collector/segment.go:109-141 | the disk-free query under the accumulate policy |
| SegmentScraper.Scrape | collector/segment.go:61-66 | both sub-scrapes run, their samples in order, and the disk-free error comes first |
| SegmentScraper.ConfigRowSamples | collector/segment.go:101-103 | three gauges: status, role, mode values from the code tables, all with the same seven labels; a NULL data directory is "" |
| SegmentScraper.QueryFailureSendsNothing | collector/segment.go:80-84 | a failed query sends nothing and returns its error, for both sub-scrapes |
| SegmentScraper.SampleCounts | collector/segment.go:90-104 | three gauges per decoded configuration row and one per decoded disk-free row |
| SegmentScraper.WellFormedSamples | collector/segment.go:101-137 | every sample carries seven or one label values, as its family declares |
| SegmentScraper.ErrorOrder | collector/segment.go:65 | the combined error: disk-free first, then configuration after "; " |
| DatabaseSizeScraper.FindFrom | collector/database_size.go:170 | the first occurrence at or after the index, with none before it |
| DatabaseSizeScraper.ReplaceFirstAbsent | collector/database_size.go:170 | without an occurrence the string is unchanged |
| DatabaseSizeScraper.ReplaceFirstAt | collector/database_size.go:170 | only the first occurrence is replaced and the rest is kept, later occurrences included |
| DatabaseSizeScraper.RewriteHitsUserSegment | collector/database_size.go:169-170 | in postgres://postgres:pw@h/postgres the rewrite replaces the user name, not the database |
| DatabaseSizeScraper.QueryTablesCount | collector/database_size.go:168-212 | the loop equals `TablesCountOf` on the rewritten connection string |
| DatabaseSizeScraper.TablesCountCases | collector/database_size.go:191-197 | no rows is 0 and nil; all rows decoded is the last row's count; otherwise the first failure's error |
| DatabaseSizeScraper.QueryRate | collector/database_size.go:268-288 | the rate helper equals `RateScraped` |
| DatabaseSizeScraper.RateAtMostOne | collector/database_size.go:268-310 | at most one rate sample; an error exactly when the query fails; a failed first row still sends 0 |
| DatabaseSizeScraper.ScanSizes | collector/database_size.go:126-142 | the size loop: size samples, row errors and decoded names in row order |
| DatabaseSizeScraper.QueryTablesCounts | collector/database_size.go:144-153 | the name loop: one count sample per successful lookup, one error per failed one |
| DatabaseSizeScraper.Scrape | collector/database_size.go:112-166 | sizes, counts, hit rate, commit rate, with errors combined in that order |
| DatabaseSizeScraper.DecodedNamesCount | collector/database_size.go:129-142 | one recorded name and one size sample per decoded row, the sample labelled with that name |
| DatabaseSizeScraper.CountsAppend | collector/database_size.go:144-153 | the count loop over a split list is the two halves in order |
| DatabaseSizeScraper.CountLookupIsolated | collector/database_size.go:144-153 | a database's failed count adds its error and no sample; a successful one adds its sample; the others are unaffected |
| DatabaseSizeScraper.SizeQueryFailure | collector/database_size.go:119-122 | a failed size query sends nothing and returns its error |
| DatabaseSizeScraper.WellFormedSamples | collector/database_size.go:140-152 | every sample is well formed |
| DatabaseSizeScraper.CountSamplesWellFormed | collector/database_size.go:152 | every count sample is well formed |
| ConnectionsDetailScraper.ScrapeLoadByUser | collector/connections_detail.go:93-127 | equals `LoadByUser`: accumulate, then the decoded count |
| ConnectionsDetailScraper.ScrapeLoadByClient | collector/connections_detail.go:129-161 | equals `LoadByClient`: every row is sent, then the row count |
| ConnectionsDetailScraper.Scrape | collector/connections_detail.go:86-91 | both lookups run; the samples are the user samples, then the client samples |
| ConnectionsDetailScraper.AllClientSamplesLength | collector/connections_detail.go:141-156 | three well-formed samples per row, decoded or not |
| ConnectionsDetailScraper.UserCounts | collector/connections_detail.go:105-124 | three gauges per decoded row, then the count of decoded rows; a failed query sends nothing |
| ConnectionsDetailScraper.ClientCounts | collector/connections_detail.go:140-158 | three gauges per row, then the row count; a failed query sends nothing |
| ConnectionsDetailScraper.FailedClientRowStillSent | collector/connections_detail.go:145-153 | a client row Scan rejects is still sent, from the partly scanned values, and adds its error |
| ConnectionsDetailScraper.NullClientIsEmptyLabel | collector/connections_detail.go:151-153 | a NULL client address is the empty label |
| ConnectionsDetailScraper.WellFormedSamples | collector/connections_detail.go:117-158 | every sample is well formed |
| ConnectionsDetailScraper.ErrorOrder | collector/connections_detail.go:90 | the combined error: client first, then user after "; " |
| UsersScraper.Scrape | collector/users.go:43-73 | equals `Scraped`: one name gauge per decoded row, the total, and the combined row errors |
| UsersScraper.TotalIsNamesPlusOne | collector/users.go:55-70 | the total is sent even when rows fail, and equals the name gauges plus one; every name gauge is 1; a failed query sends nothing |
| UsersScraper.NameSamplesAreOnes | collector/users.go:67 | every name gauge has value 1 |
| UsersScraper.WellFormedSamples | collector/users.go:67-70 | every sample is well formed |
| BgWriterScraper.ScrapedAsWritten | collector/bgwriter_state.go:110-166 | the scrape as written, sending the malformed state sample on a failed query |
| BgWriterScraper.Scrape | collector/bgwriter_state.go:110-166 | equals the corrected `Scraped` |
| BgWriterScraper.RowSamples | collector/bgwriter_state.go:150-160 | ten counters then one gauge; write and sync times divided by 1000; no labels |
| BgWriterScraper.FirstRowDecides | collector/bgwriter_state.go:127-165 | a decoded first row sends its 11 samples and nil whatever follows; a failed one sends nothing and returns its error; no rows is "bgwriter not found" |
| BgWriterScraper.VersionGate | collector/bgwriter_state.go:111-114 | versions below 6 behave as 5, others as 6 |
| BgWriterScraper.QueryFailureState | collector/bgwriter_state.go:119-123 | a failed query sends one state sample of value 0 and returns its error; as written that sample is malformed, corrected it is well formed |
| BgWriterScraper.AsWrittenAgreesOtherwise | collector/bgwriter_state.go:125-165 | except on a failed query, the as-written and corrected scrapes agree |
| BgWriterScraper.WellFormedSamples | collector/bgwriter_state.go:150-160 | every sample is well formed in the corrected model |
| LocksScraper.Scrape | collector/locks.go:89-130 | equals `Scraped`: the version-gated query under the abort policy |
| LocksScraper.OnePerRow | collector/locks.go:126 | with every row decoded, the i-th sample is the i-th row's lock |
| LocksScraper.SamplesBeforeFailure | collector/locks.go:105-129 | one sample per row before the first failure, valued at the start time and labelled with the nine columns; that failure's error, or nil |
| LocksScraper.QueryFailureSendsNothing | collector/locks.go:98-101 | a failed query sends nothing and returns its error |
| LocksScraper.WellFormedSamples | collector/locks.go:126 | every sample carries nine label values |
| ConnectionsScraper.Scrape | collector/connections.go:66-95 | equals `Scraped`, the first-row policy |
| ConnectionsScraper.Outcomes | collector/connections.go:70-94 | nil if and only if the first row decoded, which sends total, idle, active, running and waiting; otherwise nothing; no rows is "connections not found" |
| ConnectionsScraper.LaterRowsIgnored | collector/connections.go:76-91 | rows after the first change nothing |
| ConnectionsScraper.WellFormedSamples | collector/connections.go:85-89 | every sample is well formed |
| MaxConnectionsScraper.Scrape | collector/max_connections.go:38-55 | equals `Scraped` |
| MaxConnectionsScraper.ShowConnectionsCases | collector/max_connections.go:57-75 | the query error, the first row's value or error, or "<sql> not found"; zero unless it succeeds |
| MaxConnectionsScraper.MaxFailureSendsNothing | collector/max_connections.go:39-43 | a failed max_connections lookup sends nothing and returns its error |
| MaxConnectionsScraper.AvailableConnections | collector/max_connections.go:45-54 | once max is read: nil and one sample, max minus reserved, or max itself when the reserved lookup fails |
| MaxConnectionsScraper.WellFormedSamples | collector/max_connections.go:52 | every sample is well formed |
| QueriesScraper.Scrape | collector/queries.go:49-76 | equals `Scraped`, the first-row policy |
| QueriesScraper.Outcomes | collector/queries.go:53-75 | nil if and only if the first row decoded, which sends three gauges with NULL read as 0; otherwise nothing; no rows is "queries info not found" |
| QueriesScraper.SampleTimeIgnored | collector/queries.go:62-70 | the sample time column is not sent |
| QueriesScraper.WellFormedSamples | collector/queries.go:68-70 | every sample is well formed |
| SystemScraper.Scrape | collector/system.go:162-210 | equals `Scraped`, the abort policy |
| SystemScraper.HostSamples | collector/system.go:185-206 | 22 gauges per host, all labelled with its hostname alone |
| SystemScraper.HostSamplesWellFormed | collector/system.go:185-206 | the 22 gauges are well formed |
| SystemScraper.UnsentColumns | collector/system.go:177-206 | the sample time and quantum columns are not sent |
| SystemScraper.Outcomes | collector/system.go:166-209 | 22 gauges per row before the first failure; an error if and only if a row failed, and it is that row's; a failed query sends nothing |
| SystemScraper.VersionIgnored | collector/system.go:162 | the version argument changes nothing |
| SystemScraper.WellFormedSamples | collector/system.go:185-206 | every sample is well formed |
| DiskSpaceScraper.Scrape | collector/diskspace.go:48-77 | equals `Scraped`, the accumulate policy |
| DiskSpaceScraper.Outcomes | collector/diskspace.go:52-76 | three gauges per decoded row; the combined row errors; no rows gives nothing and nil; a failed query sends nothing |
| DiskSpaceScraper.WellFormedSamples | collector/diskspace.go:71-73 | every sample of a decoded row carries exactly that row's hostname and file system, in that order |
| DynamicMemoryScraper.Scrape | collector/dynamic_memory.go:42-68 | equals `Scraped`, the accumulate policy |
| DynamicMemoryScraper.Outcomes | collector/dynamic_memory.go:46-67 | two gauges per decoded row; the combined row errors; a failed query sends nothing |
| DynamicMemoryScraper.WellFormedSamples | collector/dynamic_memory.go:63-64 | every sample of a decoded row carries exactly that row's hostname |

## Left out

- The mutex in `Collect`. The model runs one cycle at a time.
- `Describe` and collector/exporter_metrics.go. They declare metrics through the Prometheus
  library. The four exporter metrics are plain fields of the collector.
- The database driver is replaced by the oracle. This covers `sql.Open`, `Ping`, `Query`, `Scan`,
  `rows.Close` and context deadlines. A timeout counts as a query failure.
- The SQL text and what the server computes are oracle values. This covers the version regex, the
  rate percentages and the constant NULL data directory of the legacy segment query.
- Wall-clock time is a parameter. A stopwatch task's elapsed nanoseconds come from the cycle, and
  so does the cycle's duration in seconds.
- The `GPDB_DATA_SOURCE_URL` environment variable is an input: `Database.dataSourceName` for the
  rewrite, and the `Dial` outcome for the collector.
- Logging, the HTTP server and the command-line flags.
- The column padding of `PrettyPrint`. Report lines are records, not formatted text.
- `queryBloatTables` and `querySkewTables`. Their calls are commented out, so they never run.
- Values are `real` and `int`, not float64 and int64. Rounding and overflow are not modelled. This
  includes the int64 total of the stopwatch and the float64 conversion of counters.
- Stopwatch.StopWatch.ShortSummary and PrettyPrint return the report as records rather than text.
- SegmentCodes.Lower: `strings.ToLower` is modelled on ASCII letters only. No other character
  lowers to one of the table keys.
- ConnectionsScraper.Scraped and ConnectionsDetailScraper.Scraped take no version argument, as
  declared in the source. `Scrapers.Scraped` passes them one and they ignore it. In the source these
  two types lack the version parameter of `Scraper.Scrape` (collector/scrapers.go:18), yet they are
  registered as scrapers (main.go:30, main.go:32).
- Handler.EnabledScrapers: Go walks a map in an unspecified order. The model picks any
  not-yet-visited key at each step, so every order is covered and none is fixed.
- Scrapers.Scraped: the collector cycle runs the corrected cluster-state and bgwriter scrapers,
  which send a well-formed state sample on their failure paths. As written
  (collector/cluster_state.go:71, :82, collector/bgwriter_state.go:120) those paths panic inside
  `MustNewConstMetric`; the panic leaves `Scrape` and `Collect`, and the later scrapers of that
  cycle never run. The cycle contracts of `Collector.GreenPlumCollector.Scrape`, `RunScrapers`
  and `Collect` therefore describe the corrected program.

## Findings

| source | as written | input that shows it | evidently intended | confidence | as-written member | corrected member |
|---|---|---|---|---|---|---|
| collector/cluster_state.go:71 | the state sample on a failed check passes two label values ("", "") to a family declaring three label names (version, master, standby) | a check query that fails, or a check row Scan rejects (line 82) | three empty label values, so that `MustNewConstMetric` does not panic | high (not executed) | ClusterStateScraper.StateDownLabelCount | ClusterStateScraper.StateDown |
| collector/bgwriter_state.go:120 | the same two-label state sample is sent when the bgwriter query fails | a bgwriter query that returns an error | three empty label values | high (not executed) | BgWriterScraper.ScrapedAsWritten | BgWriterScraper.Scraped |
