/**
 * The database as the scrapers see it: for every query they issue, the
 * result the server hands back. Decoded rows carry the destination values of
 * rows.Scan; timestamps are kept as their UTC Unix seconds.
 */
module Oracle {
  import opened Samples

  /** The Unix seconds of Go's zero time.Time (January 1, year 1, UTC). */
  const ZeroTimeUnix: int := -62135596800

  /** A query whose text depends on the major version: `legacy` for Greenplum 5 and older. */
  datatype Versioned<T> = Versioned(legacy: T, current: T)

  /** Every version gate of the scrapers: a major version below 6 selects the legacy query. */
  function ForVersion<T>(v: Versioned<T>, ver: int): (r: T)
    ensures ver < 6 ==> r == v.legacy
    ensures ver >= 6 ==> r == v.current
  {
    if ver < 6 then v.legacy else v.current
  }

  /** gp_segment_configuration: dbid, content, role, preferred_role, mode, status, port, hostname, address, datadir. */
  datatype SegmentConfigRow = SegmentConfigRow(
    dbId: string, content: string, role: string, preferredRole: string, mode: string,
    status: string, port: string, hostname: string, address: string, dataDir: Option<string>)

  datatype DiskFreeRow = DiskFreeRow(hostname: string, gbFree: real)

  datatype DatabaseSizeRow = DatabaseSizeRow(dbname: string, mbSize: real)

  datatype UserLoadRow = UserLoadRow(usename: string, total: real, idle: real, active: real)

  datatype ClientLoadRow = ClientLoadRow(client: Option<string>, total: real, idle: real, active: real)

  /** pg_stat_bgwriter; stats_reset in Unix seconds. */
  datatype BgWriterRow = BgWriterRow(
    checkpointsTimed: int, checkpointsReq: int, checkpointWriteTime: real, checkpointSyncTime: real,
    buffersCheckpoint: int, buffersClean: int, maxWrittenClean: int, buffersBackend: int,
    buffersBackendFsync: int, buffersAlloc: int, statsReset: int)

  /** One lock row; start_time in Unix seconds. */
  datatype LockRow = LockRow(
    pid: string, datname: string, usename: string, locktype: string, mode: string,
    applicationName: string, state: string, lockStatus: string, query: string,
    startTime: int, count: int)

  datatype ConnectionsRow = ConnectionsRow(total: real, idle: real, active: real, running: real, waiting: real)

  datatype QueriesRow = QueriesRow(cTime: string, total: Option<real>, running: Option<real>, queued: Option<real>)

  /** system_now: a sample time, a host and 23 readings (`quantum` is read but never exported). */
  datatype SystemRow = SystemRow(
    cTime: string, hostname: string,
    memTotal: real, memUsed: real, memActualUsed: real, memActualFree: real,
    swapTotal: real, swapUsed: real, swapPageIn: real, swapPageOut: real,
    cpuUser: real, cpuSys: real, cpuIdle: real, load1m: real, load5m: real, load15m: real,
    quantum: real, diskRo: real, diskWo: real, diskRb: real, diskWb: real,
    netRp: real, netWp: real, netRb: real, netWb: real)

  datatype DiskSpaceRow = DiskSpaceRow(cTime: string, hostname: string, fs: string, total: real, used: real, available: real)

  datatype DynamicMemoryRow = DynamicMemoryRow(hostname: string, used: real, available: real)

  /**
   * The answer to every query of one scrape. `dataSourceName` is the
   * GPDB_DATA_SOURCE_URL connection string; `tableCount` answers the table
   * count query on a connection opened with a given connection string (its
   * QueryError stands for a failure of either sql.Open or Query).
   */
  datatype Database = Database(
    // cluster_state.go
    checkState: QueryResult<int>,
    version: QueryResult<string>,
    masterName: QueryResult<string>,
    standbyName: QueryResult<string>,
    upTime: QueryResult<real>,
    sync: QueryResult<real>,
    configLoadTime: Versioned<QueryResult<int>>,
    // segment.go
    segmentConfig: Versioned<QueryResult<SegmentConfigRow>>,
    segmentDiskFree: QueryResult<DiskFreeRow>,
    // database_size.go
    databaseSize: QueryResult<DatabaseSizeRow>,
    dataSourceName: string,
    tableCount: string -> QueryResult<real>,
    hitCacheRate: QueryResult<real>,
    txCommitRate: QueryResult<real>,
    // connections_detail.go
    loadByUser: QueryResult<UserLoadRow>,
    loadByClient: QueryResult<ClientLoadRow>,
    // users.go
    users: QueryResult<string>,
    // bgwriter_state.go
    bgWriter: Versioned<QueryResult<BgWriterRow>>,
    // locks.go
    locks: Versioned<QueryResult<LockRow>>,
    // connections.go
    connections: QueryResult<ConnectionsRow>,
    // max_connections.go
    maxConnections: QueryResult<real>,
    reservedConnections: QueryResult<real>,
    // queries.go
    queries: QueryResult<QueriesRow>,
    // system.go
    system: QueryResult<SystemRow>,
    // diskspace.go
    diskSpace: QueryResult<DiskSpaceRow>,
    // dynamic_memory.go
    dynamicMemory: QueryResult<DynamicMemoryRow>)
}
