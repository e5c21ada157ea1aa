/**
 * Measurement state of the benchmark suite: the latency summary
 * (LatencyMetrics), the benchmark result record, the CPU and memory
 * sampler (CPUMonitor) and the span timer (Timer).
 *
 * Samples are exact reals (milliseconds, percent, megabytes); the clock and
 * the process readings are parameters of the methods that take them.
 */
module Metrics {
  import Statistics
  import opened Wrappers

  /** Nearest-rank index int(n * p / 100) used by both percentile helpers. */
  function PercentIndex(n: nat, p: nat): nat
  {
    n * p / 100
  }

  lemma PercentIndexInRange(n: nat, p: nat)
    requires n >= 1 && p < 100
    ensures PercentIndex(n, p) < n
  {
    var q := n * p / 100;
    assert n * p <= n * 99;
    assert q * 100 <= n * p;
  }

  /** Summary of a list of latencies in milliseconds; every statistic is 0 on an empty list. */
  datatype LatencyMetrics = LatencyMetrics(measurements: seq<real>) {

    function Mean(): (r: real)
      ensures measurements == [] ==> r == 0.0
      ensures measurements != [] ==>
        Statistics.Min(measurements) <= r <= Statistics.Max(measurements)
    {
      if measurements == [] then 0.0
      else
        Statistics.MeanBetween(measurements);
        Statistics.Mean(measurements)
    }

    function Median(): (r: real)
      ensures measurements == [] ==> r == 0.0
      ensures measurements != [] ==>
        Statistics.Min(measurements) <= r <= Statistics.Max(measurements)
    {
      if measurements == [] then 0.0
      else
        Statistics.MedianBetween(measurements);
        Statistics.Median(measurements)
    }

    /** 99th percentile: the maximum below 100 samples, otherwise the sample
        of rank int(n * 0.99) in ascending order. */
    function P99(): (r: real)
      ensures measurements == [] ==> r == 0.0
      ensures 0 < |measurements| < 100 ==> r == Statistics.Max(measurements)
      ensures |measurements| >= 100 ==>
        Statistics.IsOrderStatistic(measurements, PercentIndex(|measurements|, 99), r)
      ensures measurements != [] ==> r in measurements
    {
      RankOrMax(measurements, 100, 99)
    }

    /** 95th percentile: the maximum below 20 samples, otherwise the sample
        of rank int(n * 0.95) in ascending order. */
    function P95(): (r: real)
      ensures measurements == [] ==> r == 0.0
      ensures 0 < |measurements| < 20 ==> r == Statistics.Max(measurements)
      ensures |measurements| >= 20 ==>
        Statistics.IsOrderStatistic(measurements, PercentIndex(|measurements|, 95), r)
      ensures measurements != [] ==> r in measurements
    {
      RankOrMax(measurements, 20, 95)
    }

    function Min(): (r: real)
      ensures measurements == [] ==> r == 0.0
      ensures measurements != [] ==>
        r in measurements && forall x :: x in measurements ==> r <= x
    {
      if measurements == [] then 0.0 else Statistics.Min(measurements)
    }

    function Max(): (r: real)
      ensures measurements == [] ==> r == 0.0
      ensures measurements != [] ==>
        r in measurements && forall x :: x in measurements ==> x <= r
    {
      if measurements == [] then 0.0 else Statistics.Max(measurements)
    }
  }

  /** The shared percentile rule: 0 on no samples, the maximum below
      `threshold` samples, otherwise sorted(data)[int(n * p / 100)]. */
  function RankOrMax(data: seq<real>, threshold: nat, p: nat): (r: real)
    requires p < 100
    ensures data == [] ==> r == 0.0
    ensures 0 < |data| < threshold ==> r == Statistics.Max(data)
    ensures |data| >= threshold && data != [] ==>
      Statistics.IsOrderStatistic(data, PercentIndex(|data|, p), r)
    ensures data != [] ==> r in data
  {
    if data == [] then 0.0
    else if |data| < threshold then Statistics.Max(data)
    else
      PercentIndexInRange(|data|, p);
      Statistics.SortIndexIsOrderStatistic(data, PercentIndex(|data|, p));
      var r := Statistics.Sort(data)[PercentIndex(|data|, p)];
      assert r in multiset(Statistics.Sort(data));
      r
  }

  /** Every percentile of a non-empty latency list lies between its minimum and maximum. */
  lemma PercentilesBetween(m: LatencyMetrics)
    requires m.measurements != []
    ensures m.Min() <= m.P95() <= m.Max()
    ensures m.Min() <= m.P99() <= m.Max()
  {
    var s := m.measurements;
    if |s| >= 20 {
      Statistics.OrderStatisticBounds(s, PercentIndex(|s|, 95), m.P95());
    }
    if |s| >= 100 {
      Statistics.OrderStatisticBounds(s, PercentIndex(|s|, 99), m.P99());
    }
  }

  /** The summary depends only on the multiset of latencies, not on their order. */
  lemma LatencyMetricsOrderIndependent(a: LatencyMetrics, b: LatencyMetrics)
    requires multiset(a.measurements) == multiset(b.measurements)
    ensures a.Mean() == b.Mean() && a.Median() == b.Median()
    ensures a.P95() == b.P95() && a.P99() == b.P99()
    ensures a.Min() == b.Min() && a.Max() == b.Max()
  {
    var x, y := a.measurements, b.measurements;
    assert |x| == |multiset(x)| == |multiset(y)| == |y|;
    if x != [] {
      Statistics.StatisticsPermutationInvariant(x, y);
      Statistics.SortPermutationInvariant(x, y);
    }
  }

  /** Resource usage over one benchmark run. */
  datatype ResourceStats = ResourceStats(
    avgCpuPercent: real,
    peakCpuPercent: real,
    avgMemoryMb: real,
    peakMemoryMb: real)

  /** One psutil reading: cpu_percent and the resident set size in bytes,
      or a reading whose call raised. */
  datatype Reading = Reading(cpuPercent: real, rssBytes: nat) | ReadFailed

  function MeanOrZero(s: seq<real>): (r: real)
    ensures s == [] ==> r == 0.0
    ensures s != [] ==> Statistics.Min(s) <= r <= Statistics.Max(s)
  {
    if s == [] then 0.0
    else
      Statistics.MeanBetween(s);
      Statistics.Mean(s)
  }

  function MaxOrZero(s: seq<real>): (r: real)
    ensures s == [] ==> r == 0.0
    ensures s != [] ==> r in s && forall x :: x in s ==> x <= r
  {
    if s == [] then 0.0 else Statistics.Max(s)
  }

  /** What CPUMonitor.stop reports: the mean and the maximum of each list, 0 for an empty one. */
  function ResourceSummary(cpu: seq<real>, memory: seq<real>): (r: ResourceStats)
    ensures cpu == [] ==> r.avgCpuPercent == 0.0 && r.peakCpuPercent == 0.0
    ensures memory == [] ==> r.avgMemoryMb == 0.0 && r.peakMemoryMb == 0.0
    ensures cpu != [] ==> r.avgCpuPercent <= r.peakCpuPercent && r.peakCpuPercent in cpu
    ensures memory != [] ==> r.avgMemoryMb <= r.peakMemoryMb && r.peakMemoryMb in memory
    ensures cpu != [] ==>
      && (forall x :: x in cpu ==> x <= r.peakCpuPercent)
      && Statistics.Min(cpu) <= r.avgCpuPercent
      && r.avgCpuPercent == Statistics.Mean(cpu)
    ensures memory != [] ==>
      && (forall x :: x in memory ==> x <= r.peakMemoryMb)
      && Statistics.Min(memory) <= r.avgMemoryMb
      && r.avgMemoryMb == Statistics.Mean(memory)
  {
    ResourceStats(MeanOrZero(cpu), MaxOrZero(cpu), MeanOrZero(memory), MaxOrZero(memory))
  }

  /** Samples CPU and memory of the current process between start and stop. */
  class CPUMonitor {
    var cpuMeasurements: seq<real>
    var memoryMeasurements: seq<real>
    var isMonitoring: bool

    /** The two lists are appended together, so they always have the same length. */
    ghost predicate Valid()
      reads this
    {
      |cpuMeasurements| == |memoryMeasurements|
    }

    constructor ()
      ensures Valid()
      ensures cpuMeasurements == [] && memoryMeasurements == [] && !isMonitoring
    {
      cpuMeasurements := [];
      memoryMeasurements := [];
      isMonitoring := false;
    }

    method Start()
      modifies this
      ensures Valid()
      ensures isMonitoring && cpuMeasurements == [] && memoryMeasurements == []
    {
      isMonitoring := true;
      cpuMeasurements := [];
      memoryMeasurements := [];
    }

    /** Appends one reading while monitoring; a failed reading is swallowed. */
    method Record(reading: Reading)
      requires Valid()
      modifies this
      ensures Valid()
      ensures isMonitoring == old(isMonitoring)
      ensures if old(isMonitoring) && reading.Reading? then
                cpuMeasurements == old(cpuMeasurements) + [reading.cpuPercent] &&
                memoryMeasurements == old(memoryMeasurements) + [reading.rssBytes as real / 1048576.0]
              else
                cpuMeasurements == old(cpuMeasurements) && memoryMeasurements == old(memoryMeasurements)
    {
      if isMonitoring {
        match reading
        case Reading(cpuPercent, rssBytes) =>
          var memoryMb := rssBytes as real / 1024.0 / 1024.0;
          cpuMeasurements := cpuMeasurements + [cpuPercent];
          memoryMeasurements := memoryMeasurements + [memoryMb];
        case ReadFailed =>
      }
    }

    /** Turns monitoring off and summarises what was recorded; the lists are kept. */
    method Stop() returns (stats: ResourceStats)
      modifies this
      ensures !isMonitoring
      ensures cpuMeasurements == old(cpuMeasurements)
      ensures memoryMeasurements == old(memoryMeasurements)
      ensures stats == ResourceSummary(cpuMeasurements, memoryMeasurements)
    {
      isMonitoring := false;
      stats := ResourceSummary(cpuMeasurements, memoryMeasurements);
    }
  }

  /** Python truthiness of an optional float: None and 0.0 are false. */
  predicate Truthy(t: Option<real>)
  {
    t.Some? && t.value != 0.0
  }

  /** Timer.elapsed_seconds: end - start when both are set (and non-zero), else 0. */
  function ElapsedBetween(start: Option<real>, end: Option<real>): real
  {
    if Truthy(start) && Truthy(end) then end.value - start.value else 0.0
  }

  const SummaryKeys: set<string> := {"mean_ms", "median_ms", "p95_ms", "p99_ms", "min_ms", "max_ms"}

  /** The six statistic names are distinct. */
  lemma SummaryKeysDistinct()
    ensures "mean_ms" != "median_ms"
    ensures "mean_ms" !in {"p95_ms", "p99_ms", "min_ms", "max_ms"}
    ensures "median_ms" !in {"p95_ms", "p99_ms", "min_ms", "max_ms"}
    ensures "p95_ms" != "p99_ms" && "min_ms" != "max_ms"
    ensures "p95_ms" !in {"min_ms", "max_ms"} && "p99_ms" !in {"min_ms", "max_ms"}
  {
    assert "p95_ms"[2] != "p99_ms"[2] && "min_ms"[1] != "max_ms"[1];
    assert "p95_ms"[0] != "min_ms"[0];
  }

  /** Timer.get_latency_metrics over a list of latencies: the empty map when
      no span completed, otherwise the six statistics keyed by name. */
  function LatencySummary(latencies: seq<real>): (r: map<string, real>)
    ensures latencies == [] <==> r == map[]
    ensures latencies != [] ==> r.Keys == SummaryKeys
    ensures latencies != [] ==>
      && r["min_ms"] in latencies && r["max_ms"] in latencies
      && (forall x :: x in latencies ==> r["min_ms"] <= x <= r["max_ms"])
      && r["min_ms"] <= r["median_ms"] <= r["max_ms"]
      && r["min_ms"] <= r["mean_ms"] <= r["max_ms"]
      && r["p95_ms"] in latencies && r["p99_ms"] in latencies
    ensures latencies != [] ==>
      && r["mean_ms"] == Statistics.Mean(latencies)
      && r["median_ms"] == Statistics.Median(latencies)
      && r["p95_ms"] == Timer.Percentile(latencies, 95)
      && r["p99_ms"] == Timer.Percentile(latencies, 99)
    ensures 0 < |latencies| < 100 ==> r["p95_ms"] == r["max_ms"] && r["p99_ms"] == r["max_ms"]
    ensures |latencies| >= 100 ==>
      && Statistics.IsOrderStatistic(latencies, PercentIndex(|latencies|, 95), r["p95_ms"])
      && Statistics.IsOrderStatistic(latencies, PercentIndex(|latencies|, 99), r["p99_ms"])
  {
    if latencies == [] then map[]
    else
      Statistics.MeanBetween(latencies);
      Statistics.MedianBetween(latencies);
      SummaryMap(Statistics.Mean(latencies), Statistics.Median(latencies),
                 Timer.Percentile(latencies, 95), Timer.Percentile(latencies, 99),
                 Statistics.Min(latencies), Statistics.Max(latencies))
  }

  /** The dictionary get_latency_metrics returns, from its six values. */
  function SummaryMap(mean: real, median: real, p95: real, p99: real, lo: real, hi: real): (m: map<string, real>)
    ensures m.Keys == SummaryKeys
    ensures m["mean_ms"] == mean && m["median_ms"] == median
    ensures m["p95_ms"] == p95 && m["p99_ms"] == p99
    ensures m["min_ms"] == lo && m["max_ms"] == hi
  {
    SummaryKeysDistinct();
    map["mean_ms" := mean, "median_ms" := median, "p95_ms" := p95,
        "p99_ms" := p99, "min_ms" := lo, "max_ms" := hi]
  }

  /** Times `with timer:` spans: every completed span appends one latency. */
  class Timer {
    var startTime: Option<real>
    var endTime: Option<real>
    var latencies: seq<real>

    constructor ()
      ensures startTime == None && endTime == None && latencies == []
      ensures ElapsedSeconds() == 0.0 && GetLatencyMetrics() == map[]
    {
      startTime := None;
      endTime := None;
      latencies := [];
    }

    /** Entering a span overwrites the start time with the clock reading `now`. */
    method Enter(now: real)
      modifies this
      ensures startTime == Some(now)
      ensures endTime == old(endTime) && latencies == old(latencies)
    {
      startTime := Some(now);
    }

    /** Leaving a span overwrites the end time and appends the span's latency in ms. */
    method Exit(now: real)
      requires startTime.Some?
      modifies this
      ensures startTime == old(startTime) && endTime == Some(now)
      ensures latencies == old(latencies) + [(now - startTime.value) * 1000.0]
      ensures Truthy(startTime) && now != 0.0 ==>
        ElapsedSeconds() * 1000.0 == latencies[|latencies| - 1]
    {
      endTime := Some(now);
      var latencyMs := (now - startTime.value) * 1000.0;
      latencies := latencies + [latencyMs];
    }

    function ElapsedSeconds(): real
      reads this
    {
      ElapsedBetween(startTime, endTime)
    }

    function GetLatencyMetrics(): map<string, real>
      reads this
    {
      LatencySummary(latencies)
    }

    /** Timer._percentile: the maximum whenever there are fewer than 100
        samples (for every percentile), otherwise sorted(data)[int(n * p / 100)]. */
    static function Percentile(data: seq<real>, percentile: nat): (r: real)
      requires percentile < 100
      ensures data == [] ==> r == 0.0
      ensures 0 < |data| < 100 ==> r == Statistics.Max(data)
      ensures |data| >= 100 ==>
        Statistics.IsOrderStatistic(data, PercentIndex(|data|, percentile), r)
      ensures data != [] ==> r in data
    {
      RankOrMax(data, 100, percentile)
    }
  }

  /** BenchmarkResult: the immutable record of one benchmark run. */
  datatype BenchmarkResult = BenchmarkResult(
    name: string,
    engine: string,
    workloadType: string,
    durationSeconds: real,
    totalOperations: int,
    latencyMetrics: map<string, real>,
    throughputOpsPerSec: real,
    avgCpuUsagePercent: real,
    peakCpuUsagePercent: real,
    avgMemoryMb: real,
    peakMemoryMb: real)

  /** ops / elapsed when elapsed > 0, else 0. */
  function Throughput(ops: int, elapsed: real): (r: real)
    ensures elapsed > 0.0 ==> r * elapsed == ops as real
    ensures elapsed <= 0.0 ==> r == 0.0
    ensures r == 0.0 <==> (elapsed <= 0.0 || ops == 0)
  {
    if elapsed > 0.0 then ops as real / elapsed else 0.0
  }
}
