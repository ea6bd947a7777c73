/**
 * Values shared by the whole exporter: Go errors, result sets as the database
 * hands them back, and the metric samples that scrapers send on the channel.
 */
module Samples {

  datatype Option<+T> = None | Some(value: T)

  /** A Go `error`: None is nil, Some(msg) is a non-nil error whose Error() is msg. */
  type Error = Option<string>

  /**
   * One row of a result set after rows.Scan. DecodeError carries Scan's error
   * and `partial`, the values the destination variables hold when Scan gave up
   * (zero values, or the columns converted before the failing one).
   */
  datatype Row<+T> = Decoded(value: T) | DecodeError(msg: string, partial: T)

  /** What Query returns: an error, or the rows in the order the server sends them. */
  datatype QueryResult<+T> = QueryError(msg: string) | Rows(rows: seq<Row<T>>)

  /** The value the destination variables hold after Scan, whether or not it failed. */
  function Scanned<T>(r: Row<T>): T
  {
    match r
    case Decoded(v) => v
    case DecodeError(_, p) => p
  }

  /** sql.NullString.String: NULL reads as the empty string. */
  function NullString(s: Option<string>): string
  {
    match s
    case None => ""
    case Some(v) => v
  }

  /** sql.NullFloat64.Float64: NULL reads as 0. */
  function NullFloat(x: Option<real>): real
  {
    match x
    case None => 0.0
    case Some(v) => v
  }

  datatype Kind = Counter | Gauge

  /** Every metric family the exporter declares (one prometheus.Desc each). */
  datatype Metric =
    // cluster_state.go
    | ClusterState | ClusterUptime | ClusterSync | ClusterConfigLoadTime
    // segment.go
    | SegmentStatus | SegmentRole | SegmentMode | SegmentDiskFree
    // database_size.go
    | DatabaseSize | TableCount | HitCacheRate | TxCommitRate
    // connections_detail.go
    | TotalConnectionsPerUser | ActiveConnectionsPerUser | IdleConnectionsPerUser
    | TotalConnectionsPerClient | ActiveConnectionsPerClient | IdleConnectionsPerClient
    | TotalClientCount | TotalOnlineUserCount
    // users.go
    | UsersTotalCount | UsersNameList
    // bgwriter_state.go
    | CheckpointsTimed | CheckpointsReq | CheckpointWriteTime | CheckpointSyncTime
    | BuffersCheckpoint | BuffersClean | MaxWrittenClean | BuffersBackend
    | BuffersBackendFsync | BuffersAlloc | StatsReset
    // locks.go
    | LocksTableDetail
    // connections.go
    | TotalConnections | IdleConnections | ActiveConnections | RunningConnections | WaitingConnections
    // max_connections.go
    | MaxConnections
    // queries.go
    | TotalQueries | RunningQueries | QueuedQueries
    // system.go
    | MemTotal | MemUsed | MemActualUsed | MemActualFree | SwapTotal | SwapUsed
    | SwapPageIn | SwapPageOut | CpuUser | CpuSys | CpuIdle
    | CpuAvg1m | CpuAvg5m | CpuAvg15m | DiskRo | DiskWo | DiskRb | DiskWb
    | NetRp | NetWp | NetRb | NetWb
    // diskspace.go
    | FsTotal | FsUsed | FsAvailable
    // dynamic_memory.go
    | DynamicMemoryUsed | DynamicMemoryAvailable
    // exporter_metrics.go
    | ExporterTotalScraped | ExporterTotalError | ExporterScrapeDuration | Up

  /** BuildFQName("greenplum", subsystem, name). */
  function FullName(subsystem: string, name: string): string
  {
    if subsystem == "" then "greenplum_" + name else "greenplum_" + subsystem + "_" + name
  }

  /** The fully qualified name under which each family is exposed. */
  function Name(m: Metric): string
  {
    match m
    case ClusterState => FullName("cluster", "state")
    case ClusterUptime => FullName("cluster", "uptime")
    case ClusterSync => FullName("cluster", "sync")
    case ClusterConfigLoadTime => FullName("cluster", "config_last_load_time_seconds")
    case SegmentStatus => FullName("node", "segment_status")
    case SegmentRole => FullName("node", "segment_role")
    case SegmentMode => FullName("node", "segment_mode")
    case SegmentDiskFree => FullName("node", "segment_disk_free_gb_size")
    case DatabaseSize => FullName("node", "database_name_mb_size")
    case TableCount => FullName("node", "database_table_total_count")
    case HitCacheRate => FullName("server", "database_hit_cache_percent_rate")
    case TxCommitRate => FullName("server", "database_transition_commit_percent_rate")
    case TotalConnectionsPerUser => FullName("cluster", "total_connections_per_user")
    case ActiveConnectionsPerUser => FullName("cluster", "active_connections_per_user")
    case IdleConnectionsPerUser => FullName("cluster", "idle_connections_per_user")
    case TotalConnectionsPerClient => FullName("cluster", "total_connections_per_client")
    case ActiveConnectionsPerClient => FullName("cluster", "active_connections_per_client")
    case IdleConnectionsPerClient => FullName("cluster", "idle_connections_per_client")
    case TotalClientCount => FullName("cluster", "total_client_count")
    case TotalOnlineUserCount => FullName("cluster", "total_online_user_count")
    case UsersTotalCount => FullName("server", "users_total_count")
    case UsersNameList => FullName("server", "users_name_list")
    case CheckpointsTimed => FullName("server", "bgwriter_checkpoints_timed_total")
    case CheckpointsReq => FullName("server", "bgwriter_checkpoints_req_total")
    case CheckpointWriteTime => FullName("server", "bgwriter_checkpoint_write_time_seconds_total")
    case CheckpointSyncTime => FullName("server", "bgwriter_checkpoint_sync_time_seconds_total")
    case BuffersCheckpoint => FullName("server", "bgwriter_buffers_checkpoint_total")
    case BuffersClean => FullName("server", "bgwriter_buffers_clean_total")
    case MaxWrittenClean => FullName("server", "bgwriter_maxwritten_clean_total")
    case BuffersBackend => FullName("server", "bgwriter_buffers_backend_total")
    case BuffersBackendFsync => FullName("server", "bgwriter_buffers_backend_fsync_total")
    case BuffersAlloc => FullName("server", "bgwriter_buffers_alloc_total")
    case StatsReset => FullName("server", "bgwriter_stats_reset_timestamp")
    case LocksTableDetail => FullName("server", "locks_table_detail")
    case TotalConnections => FullName("cluster", "total_connections")
    case IdleConnections => FullName("cluster", "idle_connections")
    case ActiveConnections => FullName("cluster", "active_connections")
    case RunningConnections => FullName("cluster", "running_connections")
    case WaitingConnections => FullName("cluster", "waiting_connections")
    case MaxConnections => FullName("cluster", "max_connections")
    case TotalQueries => FullName("cluster", "total_queries")
    case RunningQueries => FullName("cluster", "running_queries")
    case QueuedQueries => FullName("cluster", "queued_queries")
    case MemTotal => FullName("node", "mem_total_bytes")
    case MemUsed => FullName("node", "mem_used_bytes")
    case MemActualUsed => FullName("node", "mem_actual_used_bytes")
    case MemActualFree => FullName("node", "mem_actual_free_bytes")
    case SwapTotal => FullName("node", "swap_total_bytes")
    case SwapUsed => FullName("node", "swap_used_bytes")
    case SwapPageIn => FullName("node", "swap_page_in")
    case SwapPageOut => FullName("node", "swap_page_out")
    case CpuUser => FullName("node", "cpu_user_percent")
    case CpuSys => FullName("node", "cpu_sys_percent")
    case CpuIdle => FullName("node", "cpu_idle_percent")
    case CpuAvg1m => FullName("node", "cpu_avg_usage_1m_percent")
    case CpuAvg5m => FullName("node", "cpu_avg_usage_5m_percent")
    case CpuAvg15m => FullName("node", "cpu_avg_usage_15m_percent")
    case DiskRo => FullName("node", "disk_ro_rate")
    case DiskWo => FullName("node", "disk_wo_rate")
    case DiskRb => FullName("node", "disk_rb_rate")
    case DiskWb => FullName("node", "disk_wb_rate")
    case NetRp => FullName("node", "net_rp_rate")
    case NetWp => FullName("node", "net_wp_rate")
    case NetRb => FullName("node", "net_rb_rate")
    case NetWb => FullName("node", "net_wb_rate")
    case FsTotal => FullName("node", "fs_total_bytes")
    case FsUsed => FullName("node", "fs_used_bytes")
    case FsAvailable => FullName("node", "fs_available_bytes")
    case DynamicMemoryUsed => FullName("node", "dynamic_memory_used_mb")
    case DynamicMemoryAvailable => FullName("node", "dynamic_memory_available_mb")
    case ExporterTotalScraped => FullName("exporter", "total_scraped")
    case ExporterTotalError => FullName("exporter", "total_error")
    case ExporterScrapeDuration => FullName("exporter", "scrape_duration_second")
    case Up => FullName("", "up")
  }

  /** The number of variable label names each family's Desc declares. */
  function Arity(m: Metric): nat
  {
    match m
    case ClusterState => 3
    case SegmentStatus | SegmentRole | SegmentMode => 7
    case LocksTableDetail => 9
    case FsTotal | FsUsed | FsAvailable => 2
    case SegmentDiskFree | DatabaseSize | TableCount
      | TotalConnectionsPerUser | ActiveConnectionsPerUser | IdleConnectionsPerUser
      | TotalConnectionsPerClient | ActiveConnectionsPerClient | IdleConnectionsPerClient
      | UsersNameList | DynamicMemoryUsed | DynamicMemoryAvailable
      | MemTotal | MemUsed | MemActualUsed | MemActualFree | SwapTotal | SwapUsed
      | SwapPageIn | SwapPageOut | CpuUser | CpuSys | CpuIdle
      | CpuAvg1m | CpuAvg5m | CpuAvg15m | DiskRo | DiskWo | DiskRb | DiskWb
      | NetRp | NetWp | NetRb | NetWb => 1
    case _ => 0
  }

  /** A constant metric: family, value type, value and label values in Desc order. */
  datatype Sample = Sample(metric: Metric, kind: Kind, value: real, labels: seq<string>)

  /** MustNewConstMetric panics unless as many label values are given as the Desc has label names. */
  predicate WellFormed(s: Sample)
  {
    |s.labels| == Arity(s.metric)
  }

  predicate AllWellFormed(ss: seq<Sample>)
  {
    forall i :: 0 <= i < |ss| ==> WellFormed(ss[i])
  }

  /** What one scraper call leaves behind: the samples it sent, in order, and the error it returned. */
  datatype ScrapeResult = ScrapeResult(samples: seq<Sample>, err: Error)

  /** A gauge without labels. */
  function Plain(m: Metric, v: real): Sample
  {
    Sample(m, Gauge, v, [])
  }

  /** A gauge carrying one label value. */
  function Labelled(m: Metric, v: real, l: string): Sample
  {
    Sample(m, Gauge, v, [l])
  }

  lemma WellFormedAppend(a: seq<Sample>, b: seq<Sample>)
    requires AllWellFormed(a) && AllWellFormed(b)
    ensures AllWellFormed(a + b)
  {
    forall i | 0 <= i < |a + b|
      ensures WellFormed((a + b)[i])
    {
      if i < |a| {
        assert (a + b)[i] == a[i];
      } else {
        assert (a + b)[i] == b[i - |a|];
      }
    }
  }
}
