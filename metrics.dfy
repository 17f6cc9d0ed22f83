/** The three records every front end and the benchmarks exchange
    (shared/src/lib.rs). The `f32` fields are modelled as reals. */
module Metrics {
  import opened Common

  /** One observation of one host. `tags` is a `HashMap<String, String>`:
      unique keys, no order. */
  datatype MetricPoint = MetricPoint(
    timestamp: Int64,
    hostname: string,
    cpuPercent: real,
    memoryBytes: Uint64,
    diskIoOps: Uint32,
    tags: map<string, string>)

  /** A time window and an optional exact hostname. */
  datatype MetricQuery = MetricQuery(
    startTime: Int64,
    endTime: Int64,
    hostnameFilter: Option<string>)

  /** What the statistics endpoint answers. */
  datatype MetricStatistics = MetricStatistics(
    count: Uint64,
    avgCpuPercent: real,
    avgMemoryBytes: Uint64,
    avgDiskIoOps: real,
    timeRangeSeconds: Int64)
}
