/**
 * The sizing policy of the integration: how the telemetry read from the
 * running Next.js application (CPU %, response time in ms, request count)
 * turns into VM sizes, host core counts, VM MIPS ratings and the two
 * multipliers that scale the generated workload. Every factor is a clamp
 * or a floor, so every size has a fixed band whatever the telemetry says.
 */
module Scaling {
  import opened JavaNumeric

  /** `realTimeMetrics.getOrDefault(key, default)` on the numeric entries. */
  function GetOrDefault(metrics: map<string, real>, key: string, default: real): real {
    if key in metrics then metrics[key] else default
  }

  /** The metric keys the policy reads. */
  const CpuUsage: string := "cpuUsage"
  const ResponseTime: string := "responseTime"
  const RequestCount: string := "requestCount"

  /** CPU scale factor: CPU % against a 40 % baseline, kept within [0.5, 2.5]. */
  function CpuScaleFactor(cpuUsage: real): (r: real)
    ensures 0.5 <= r <= 2.5
    ensures 20.0 <= cpuUsage <= 100.0 ==> r == cpuUsage / 40.0
  {
    Clamp(0.5, 2.5, cpuUsage / 40.0)
  }

  /** Response scale factor: response time against a 100 ms baseline, kept within [0.4, 2.0]. */
  function ResponseScaleFactor(responseTime: real): (r: real)
    ensures 0.4 <= r <= 2.0
    ensures 40.0 <= responseTime <= 200.0 ==> r == responseTime / 100.0
  {
    Clamp(0.4, 2.0, responseTime / 100.0)
  }

  /** Load scale factor: request count against a baseline of 100, kept within [0.6, 1.8]. */
  function LoadScaleFactor(requestCount: real): (r: real)
    ensures 0.6 <= r <= 1.8
    ensures 60.0 <= requestCount <= 180.0 ==> r == requestCount / 100.0
  {
    Clamp(0.6, 1.8, requestCount / 100.0)
  }

  /** Higher telemetry never yields a smaller factor. */
  lemma ScaleFactorsMonotonic(x: real, y: real)
    requires x <= y
    ensures CpuScaleFactor(x) <= CpuScaleFactor(y)
    ensures ResponseScaleFactor(x) <= ResponseScaleFactor(y)
    ensures LoadScaleFactor(x) <= LoadScaleFactor(y)
  {
    ClampMonotonic(0.5, 2.5, x / 40.0, y / 40.0);
    ClampMonotonic(0.4, 2.0, x / 100.0, y / 100.0);
    ClampMonotonic(0.6, 1.8, x / 100.0, y / 100.0);
  }

  /** The three factors the infrastructure adjustment uses. */
  datatype ScaleFactors = ScaleFactors(cpu: real, response: real, load: real)

  /** Every factor lies in its band. */
  predicate InBands(f: ScaleFactors) {
    0.5 <= f.cpu <= 2.5 && 0.4 <= f.response <= 2.0 && 0.6 <= f.load <= 1.8
  }

  /**
   * The factors `adjustInfrastructureBasedOnRealMetrics` derives from the
   * metrics, with 30 % CPU, 100 ms and 50 requests standing in for a
   * missing entry.
   */
  function AdjustmentFactors(metrics: map<string, real>): (f: ScaleFactors)
    ensures InBands(f)
    ensures CpuUsage in metrics ==> f.cpu == CpuScaleFactor(metrics[CpuUsage])
    ensures CpuUsage !in metrics ==> f.cpu == 0.75
    ensures ResponseTime in metrics ==> f.response == ResponseScaleFactor(metrics[ResponseTime])
    ensures ResponseTime !in metrics ==> f.response == 1.0
    ensures RequestCount in metrics ==> f.load == LoadScaleFactor(metrics[RequestCount])
    ensures RequestCount !in metrics ==> f.load == 0.6
  {
    ScaleFactors(CpuScaleFactor(GetOrDefault(metrics, CpuUsage, 30.0)),
                 ResponseScaleFactor(GetOrDefault(metrics, ResponseTime, 100.0)),
                 LoadScaleFactor(GetOrDefault(metrics, RequestCount, 50.0)))
  }

  /** The five VM roles' base sizes, in role order. */
  const BaseVmCores: seq<int> := [4, 2, 2, 4, 6]
  const BaseVmRam: seq<int> := [4096, 2048, 2048, 4096, 8192]
  const VmRoles: int := 5

  /** Cores of a VM role after adjustment: `(int) Math.max(1, base * cpuScale)`. */
  function AdjustedCores(base: int, cpuScale: real): (r: int)
    ensures r >= 1
  {
    ToInt(Max(1.0, base as real * cpuScale))
  }

  /** RAM of a VM role after adjustment: `(int) Math.max(1024, base * responseScale * loadScale)`. */
  function AdjustedRam(base: int, responseScale: real, loadScale: real): (r: int)
    ensures r >= 1024
  {
    ToInt(Max(1024.0, base as real * responseScale * loadScale))
  }

  /**
   * With the factors in their bands, VM role `i` gets between half and two
   * and a half times its base cores, and between 1024 MB (or 0.24 times its
   * base RAM, if larger) and 3.6 times its base RAM.
   */
  lemma VmSizeBounds(i: nat, f: ScaleFactors)
    requires i < VmRoles && InBands(f)
    ensures BaseVmCores[i] / 2 <= AdjustedCores(BaseVmCores[i], f.cpu) <= BaseVmCores[i] * 5 / 2
    ensures MaxInt(1024, BaseVmRam[i] * 24 / 100) <= AdjustedRam(BaseVmRam[i], f.response, f.load)
    ensures AdjustedRam(BaseVmRam[i], f.response, f.load) <= BaseVmRam[i] * 36 / 10
  {
    var c := BaseVmCores[i];
    var m := BaseVmRam[i];
    CastBetween(c / 2, Max(1.0, c as real * f.cpu), c * 5 / 2);
    RamBetween(m, f.response, f.load);
  }

  /** The combined RAM factor: response scale times load scale. */
  function RamFactor(response: real, load: real): real {
    response * load
  }

  /** The combined RAM factor lies in [0.24, 3.6]. */
  lemma RamFactorBounds(response: real, load: real)
    requires 0.4 <= response <= 2.0 && 0.6 <= load <= 1.8
    ensures 0.24 <= RamFactor(response, load) <= 3.6
  {
    NonNegProduct(response - 0.4, load - 0.6);
    assert (response - 0.4) * (load - 0.6) == response * load - 0.6 * response - 0.4 * load + 0.24;
    NonNegProduct(2.0 - response, load - 0.6);
    assert (2.0 - response) * (load - 0.6) == 2.0 * load - 1.2 - response * load + 0.6 * response;
  }

  /** The RAM half of `VmSizeBounds`, for the three base sizes the roles use. */
  lemma RamBetween(m: int, response: real, load: real)
    requires m == 2048 || m == 4096 || m == 8192
    requires 0.4 <= response <= 2.0 && 0.6 <= load <= 1.8
    ensures MaxInt(1024, m * 24 / 100) <= AdjustedRam(m, response, load) <= m * 36 / 10
  {
    var p := RamFactor(response, load);
    RamFactorBounds(response, load);
    RamOfProduct(m, response, load);
    if m == 2048 {
      assert m * 36 / 10 == 7372 && m * 24 / 100 == 491;
      RamCast(m as real, p, 1024, 7372);
    } else if m == 4096 {
      assert m * 36 / 10 == 14745 && m * 24 / 100 == 983;
      RamCast(m as real, p, 1024, 14745);
    } else {
      assert m * 36 / 10 == 29491 && m * 24 / 100 == 1966;
      RamCast(m as real, p, 1966, 29491);
    }
  }

  /** The RAM formula depends on the two factors only through their product. */
  lemma RamOfProduct(m: int, response: real, load: real)
    ensures AdjustedRam(m, response, load) == ToInt(Max(1024.0, m as real * RamFactor(response, load)))
  {
    assert m as real * response * load == m as real * (response * load);
  }

  /** Base RAM `m` under a combined factor in [0.24, 3.6], floored at 1024, casts into [lo, hi]. */
  lemma RamCast(m: real, p: real, lo: int, hi: int)
    requires 0.0 <= m && 0.24 <= p <= 3.6
    requires 0 <= lo && hi < IntMax
    requires lo as real <= Max(1024.0, m * 0.24) && m * 3.6 < hi as real + 1.0 && 1024.0 < hi as real + 1.0
    ensures lo <= ToInt(Max(1024.0, m * p)) <= hi
  {
    var x := m * p;
    NonNegProduct(m, p - 0.24);
    assert m * (p - 0.24) == x - m * 0.24;
    assert m * 0.24 <= x;
    NonNegProduct(m, 3.6 - p);
    assert m * (3.6 - p) == m * 3.6 - x;
    assert x <= m * 3.6;
    assert Max(1024.0, m * 0.24) <= Max(1024.0, x);
    assert Max(1024.0, x) < hi as real + 1.0;
    CastBetween(lo, Max(1024.0, x), hi);
  }

  /**
   * The datacenter scale of `createDatacenter`: 1.0 unless real data is on
   * and a CPU reading exists, then CPU % against a 35 % baseline, at least 0.7.
   */
  function DatacenterScale(useRealData: bool, metrics: map<string, real>): (r: real)
    ensures r >= 0.7
    ensures !(useRealData && CpuUsage in metrics) ==> r == 1.0
    ensures useRealData && CpuUsage in metrics && metrics[CpuUsage] >= 24.5 ==> r == metrics[CpuUsage] / 35.0
    ensures useRealData && CpuUsage in metrics && metrics[CpuUsage] < 24.5 ==> r == 0.7
  {
    if useRealData && CpuUsage in metrics then Max(0.7, metrics[CpuUsage] / 35.0) else 1.0
  }

  /** Cores of the first host: `(int) Math.max(16, 32 * scale)`. */
  function Host1Cores(scale: real): (r: int)
    ensures r >= 16
    ensures 0.5 <= scale && 32.0 * scale < IntMax as real ==> r == (32.0 * scale).Floor
  {
    ToInt(Max(16.0, 32.0 * scale))
  }

  /** Cores of the second host: `(int) Math.max(12, 20 * scale)`. */
  function Host2Cores(scale: real): (r: int)
    ensures r >= 12
    ensures 0.6 <= scale && 20.0 * scale < IntMax as real ==> r == (20.0 * scale).Floor
  {
    ToInt(Max(12.0, 20.0 * scale))
  }

  /** The third host (the CDN host) always has 8 cores. */
  const Host3Cores: int := 8

  /** Without real data the hosts have 32, 20 and 8 cores. */
  lemma DefaultHostCores(metrics: map<string, real>)
    ensures Host1Cores(DatacenterScale(false, metrics)) == 32
    ensures Host2Cores(DatacenterScale(false, metrics)) == 20
  {
    ToIntOfInt(32);
    ToIntOfInt(20);
  }

  /** A busier application never gets fewer host cores. */
  lemma HostCoresMonotonic(s: real, t: real)
    requires s <= t
    ensures Host1Cores(s) <= Host1Cores(t) && Host2Cores(s) <= Host2Cores(t)
  {
    ToIntMonotonic(Max(16.0, 32.0 * s), Max(16.0, 32.0 * t));
    ToIntMonotonic(Max(12.0, 20.0 * s), Max(12.0, 20.0 * t));
  }

  /** The MIPS rating role `i` starts from: 2200 plus 600 per role. */
  function BaseMips(i: int): int {
    2200 + i * 600
  }

  /** The MIPS multiplier `createVMs` uses with real data: CPU % against 40 %, kept within [0.5, 2.2]. */
  function MipsMultiplier(metrics: map<string, real>): (r: real)
    ensures 0.5 <= r <= 2.2
    ensures CpuUsage !in metrics ==> r == 1.0
    ensures CpuUsage in metrics && 20.0 <= metrics[CpuUsage] <= 88.0 ==> r == metrics[CpuUsage] / 40.0
    ensures CpuUsage in metrics && metrics[CpuUsage] < 20.0 ==> r == 0.5
    ensures CpuUsage in metrics && metrics[CpuUsage] > 88.0 ==> r == 2.2
  {
    Clamp(0.5, 2.2, GetOrDefault(metrics, CpuUsage, 40.0) / 40.0)
  }

  /** Role `i`'s base rating scaled by `m`, cast to int. */
  function ScaledMips(i: int, m: real): int {
    ToInt(BaseMips(i) as real * m)
  }

  /**
   * The MIPS of VM role `i` in `createVMs`: the base rating, scaled when
   * real data is on (a missing CPU reading counts as 40 %).
   */
  function VmMips(i: int, useRealData: bool, metrics: map<string, real>): (r: int)
    ensures !useRealData ==> r == BaseMips(i)
  {
    if useRealData then ScaledMips(i, MipsMultiplier(metrics)) else BaseMips(i)
  }

  /**
   * With real data on, role `i`'s rating lies between half and 2.2 times its
   * base rating 2200 + 600 i.
   */
  lemma VmMipsBounds(i: nat, metrics: map<string, real>)
    requires i < VmRoles
    ensures 1100 + 300 * i <= VmMips(i, true, metrics) <= 4840 + 1320 * i
  {
    MipsBetween(i, MipsMultiplier(metrics));
  }

  /** Role `i`'s base rating scaled by a factor in [0.5, 2.2] and cast to int. */
  lemma MipsBetween(i: nat, m: real)
    requires i < VmRoles && 0.5 <= m <= 2.2
    ensures 1100 + 300 * i <= ScaledMips(i, m) <= 4840 + 1320 * i
  {
    var b := (2200 + i * 600) as real;
    var x := b * m;
    ScaledBetween(b, 0.5, m, 2.2);
    var lo := 1100 + 300 * i;
    var hi := 4840 + 1320 * i;
    assert lo as real == b * 0.5;
    assert lo as real <= x;
    assert hi as real == b * 2.2;
    assert x <= hi as real;
    CastBetween(lo, x, hi);
  }

  /**
   * The response multiplier of `createCloudlets`: 1.0 without real data,
   * otherwise response time against 100 ms kept within [0.3, 2.8].
   */
  function ResponseMultiplier(useRealData: bool, metrics: map<string, real>): (r: real)
    ensures 0.3 <= r <= 2.8
    ensures !useRealData ==> r == 1.0
    ensures useRealData && ResponseTime !in metrics ==> r == 1.0
    ensures useRealData && ResponseTime in metrics && 30.0 <= metrics[ResponseTime] <= 280.0 ==>
              r == metrics[ResponseTime] / 100.0
  {
    if useRealData then Clamp(0.3, 2.8, GetOrDefault(metrics, ResponseTime, 100.0) / 100.0) else 1.0
  }

  /**
   * The request multiplier of `createCloudlets`: 1.0 without real data,
   * otherwise the request count against 100 kept within [0.5, 2.0].
   */
  function RequestMultiplier(useRealData: bool, metrics: map<string, real>): (r: real)
    ensures 0.5 <= r <= 2.0
    ensures !useRealData ==> r == 1.0
    ensures useRealData && RequestCount !in metrics ==> r == 0.5
    ensures useRealData && RequestCount in metrics && 50.0 <= metrics[RequestCount] <= 200.0 ==>
              r == metrics[RequestCount] / 100.0
  {
    if useRealData then Clamp(0.5, 2.0, GetOrDefault(metrics, RequestCount, 50.0) / 100.0) else 1.0
  }

  /** How many page-rendering cloudlets: `Math.max(4, (int) (6 * requestMultiplier))`. */
  function PageWorkloads(requestMultiplier: real): (r: int)
    ensures r >= 4
  {
    MaxInt(4, ToInt(6.0 * requestMultiplier))
  }

  /** How many API cloudlets: `Math.max(5, (int) (8 * requestMultiplier))`. */
  function ApiWorkloads(requestMultiplier: real): (r: int)
    ensures r >= 5
  {
    MaxInt(5, ToInt(8.0 * requestMultiplier))
  }

  /**
   * With the request multiplier in its band there are 4 to 12 page-rendering
   * and 5 to 16 API cloudlets; at 1.0 (no real data) exactly 6 and 8.
   */
  lemma WorkloadCountBounds(requestMultiplier: real)
    requires 0.5 <= requestMultiplier <= 2.0
    ensures 4 <= PageWorkloads(requestMultiplier) <= 12
    ensures 5 <= ApiWorkloads(requestMultiplier) <= 16
    ensures requestMultiplier == 1.0 ==> PageWorkloads(requestMultiplier) == 6 && ApiWorkloads(requestMultiplier) == 8
  {
    ToIntMonotonic(6.0 * requestMultiplier, 12.0);
    ToIntMonotonic(8.0 * requestMultiplier, 16.0);
    ToIntOfInt(12);
    ToIntOfInt(16);
    if requestMultiplier == 1.0 {
      ToIntOfInt(6);
      ToIntOfInt(8);
    }
  }

  /** The counts are truncated, not rounded: a multiplier of 1.25 gives 7 pages, not 8. */
  lemma WorkloadCountsTruncate()
    ensures PageWorkloads(1.25) == 7 && ApiWorkloads(1.25) == 10
  {
    ToIntIsFloor(7.5);
    ToIntOfInt(10);
  }

  /**
   * A reading of 45.2 % CPU, 125.5 ms and 1547 requests with real data on:
   * the request multiplier saturates at 2.0 and the counts truncate, giving
   * 12 page-rendering and 16 API cloudlets; the VM factors are 1.13, 1.255
   * and 1.8.
   */
  lemma SampleTelemetry()
    ensures var m := map[CpuUsage := 45.2, ResponseTime := 125.5, RequestCount := 1547.0];
            && RequestMultiplier(true, m) == 2.0
            && PageWorkloads(RequestMultiplier(true, m)) == 12
            && ApiWorkloads(RequestMultiplier(true, m)) == 16
            && AdjustmentFactors(m) == ScaleFactors(1.13, 1.255, 1.8)
  {
    var m := map[CpuUsage := 45.2, ResponseTime := 125.5, RequestCount := 1547.0];
    assert GetOrDefault(m, RequestCount, 50.0) == 1547.0;
    assert GetOrDefault(m, CpuUsage, 30.0) == 45.2;
    assert GetOrDefault(m, ResponseTime, 100.0) == 125.5;
    ToIntOfInt(12);
    ToIntOfInt(16);
  }
}
