/**
 * The metrics snapshot the API server sends over the WebSocket every two seconds, as the
 * dashboard and the screensaver read it, and the two quantities both derive from it.
 */
module Telemetry {

  datatype DiskMetrics = DiskMetrics(path: string, total: nat, used: nat, free: nat, usedPercent: real)

  /** One container as the server reports it (ID already shortened to 12 characters). */
  datatype ContainerInfo = ContainerInfo(id: string, name: string, state: string, status: string, image: string)

  datatype Snapshot = Snapshot(
    cpuUsage: seq<real>,          // per-core usage percentages
    memoryUsedPercent: real,
    disks: seq<DiskMetrics>,
    bytesSent: nat,               // cumulative counters since boot
    bytesRecv: nat,
    containerCount: nat,
    runningCount: nat,
    containers: seq<ContainerInfo>,
    hostname: string,
    uptime: nat)                  // seconds

  /** Left fold with `+` from 0, as `reduce((a, b) => a + b, 0)` computes it. */
  function Sum(xs: seq<real>): real
    decreases |xs|
  {
    if xs == [] then 0.0 else Sum(xs[..|xs| - 1]) + xs[|xs| - 1]
  }

  predicate AllWithin(xs: seq<real>, lo: real, hi: real)
  {
    forall k :: 0 <= k < |xs| ==> lo <= xs[k] <= hi
  }

  lemma {:induction false} SumBounds(xs: seq<real>, lo: real, hi: real)
    requires AllWithin(xs, lo, hi)
    ensures lo * (|xs| as real) <= Sum(xs) <= hi * (|xs| as real)
    decreases |xs|
  {
    if xs != [] {
      var init := xs[..|xs| - 1];
      assert AllWithin(init, lo, hi) by {
        forall k | 0 <= k < |init| ensures lo <= init[k] <= hi {
          assert init[k] == xs[k];
        }
      }
      SumBounds(init, lo, hi);
      assert (|xs| as real) == (|init| as real) + 1.0;
      assert lo * (|xs| as real) == lo * (|init| as real) + lo;
      assert hi * (|xs| as real) == hi * (|init| as real) + hi;
    }
  }

  /** Mean usage over all cores: the sum divided by the number of cores. */
  function AvgCpu(usage: seq<real>): (r: real)
    requires |usage| > 0
    ensures r * (|usage| as real) == Sum(usage)
  {
    Sum(usage) / (|usage| as real)
  }

  /** When every core reports a percentage, so does the mean, and it lies between the extremes. */
  lemma AvgCpuBounds(usage: seq<real>, lo: real, hi: real)
    requires |usage| > 0 && AllWithin(usage, lo, hi)
    ensures lo <= AvgCpu(usage) <= hi
  {
    SumBounds(usage, lo, hi);
    var n := |usage| as real;
    var r := AvgCpu(usage);
    assert lo * n <= r * n <= hi * n;
    assert (r - lo) * n >= 0.0 && (hi - r) * n >= 0.0;
  }

  lemma AvgCpuPercent(usage: seq<real>)
    requires |usage| > 0 && AllWithin(usage, 0.0, 100.0)
    ensures 0.0 <= AvgCpu(usage) <= 100.0
  {
    AvgCpuBounds(usage, 0.0, 100.0);
  }

  /**
   * Total bytes sent and received, in megabytes. The counters are cumulative, so this is a total
   * since boot and not a rate.
   */
  function NetworkActivity(bytesSent: nat, bytesRecv: nat): (mb: real)
    ensures 0.0 <= mb
    ensures mb * 1000000.0 == (bytesSent + bytesRecv) as real
  {
    ((bytesSent + bytesRecv) as real) / 1000000.0
  }

  /** More traffic never lowers the figure: it only grows while the counters grow. */
  lemma NetworkActivityMonotone(s1: nat, r1: nat, s2: nat, r2: nat)
    requires s1 <= s2 && r1 <= r2
    ensures NetworkActivity(s1, r1) <= NetworkActivity(s2, r2)
  {
  }
}
