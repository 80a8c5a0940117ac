/**
 * What the reports compute from the broker's finished-cloudlet list: counts
 * and sums per workload type, cost at a fixed rate per second of execution,
 * the simulated-versus-real accuracy, and the threshold rules behind the
 * recommendations. Each quantity is defined here by recursion over the list
 * (the last element last, the order the report loops visit them), so a
 * loop that visits the list front to back keeps "accumulator == quantity of
 * the prefix seen so far" as its invariant.
 */
module Analysis {
  import opened Wrappers
  import opened JavaNumeric
  import opened Text
  import opened Scaling
  import Workload

  /** A cloudlet as the broker returns it after the run: id, whether it finished, execution time in seconds. */
  datatype FinishedCloudlet = FinishedCloudlet(id: int, finished: bool, execTime: real)

  /** `workloadTypes.get(id)`: the recorded label, or null (None) for an id never recorded. */
  function TypeOf(w: map<int, string>, id: int): Option<string> {
    if id in w then Some(w[id]) else None
  }

  /** The list without its last element. */
  function Init(cs: seq<FinishedCloudlet>): seq<FinishedCloudlet>
    requires cs != []
  {
    cs[..|cs| - 1]
  }

  /** The last element. */
  function Last(cs: seq<FinishedCloudlet>): FinishedCloudlet
    requires cs != []
  {
    cs[|cs| - 1]
  }

  /** One more element of a list: the longer prefix has the shorter one before the new element. */
  lemma PrefixStep(cs: seq<FinishedCloudlet>, i: int)
    requires 0 <= i < |cs|
    ensures cs[..i + 1] != [] && Init(cs[..i + 1]) == cs[..i] && Last(cs[..i + 1]) == cs[i]
  {
    assert cs[..i + 1][..i] == cs[..i];
  }

  /** How many cloudlets finished. */
  function Successful(cs: seq<FinishedCloudlet>): nat {
    if cs == [] then 0 else Successful(Init(cs)) + (if Last(cs).finished then 1 else 0)
  }

  /** Total execution time of the finished cloudlets. */
  function TotalTime(cs: seq<FinishedCloudlet>): real {
    if cs == [] then 0.0 else TotalTime(Init(cs)) + (if Last(cs).finished then Last(cs).execTime else 0.0)
  }

  /** How many finished cloudlets have type `t`. */
  function CountOf(cs: seq<FinishedCloudlet>, w: map<int, string>, t: Option<string>): nat {
    if cs == [] then 0
    else CountOf(Init(cs), w, t) + (if Last(cs).finished && TypeOf(w, Last(cs).id) == t then 1 else 0)
  }

  /** Total execution time of the finished cloudlets of type `t`. */
  function TimeOf(cs: seq<FinishedCloudlet>, w: map<int, string>, t: Option<string>): real {
    if cs == [] then 0.0
    else TimeOf(Init(cs), w, t) + (if Last(cs).finished && TypeOf(w, Last(cs).id) == t then Last(cs).execTime else 0.0)
  }

  /** Only finished cloudlets count, so there are never more successes than cloudlets. */
  lemma {:induction false} SuccessfulBound(cs: seq<FinishedCloudlet>)
    ensures Successful(cs) <= |cs|
    ensures Successful(cs) == |cs| <==> forall i :: 0 <= i < |cs| ==> cs[i].finished
  {
    if cs != [] {
      SuccessfulBound(Init(cs));
      if Successful(cs) == |cs| {
        forall i | 0 <= i < |cs|
          ensures cs[i].finished
        {
          if i < |cs| - 1 {
            assert Init(cs)[i] == cs[i];
          }
        }
      }
      if forall i :: 0 <= i < |cs| ==> cs[i].finished {
        assert forall i :: 0 <= i < |Init(cs)| ==> Init(cs)[i].finished by {
          forall i | 0 <= i < |Init(cs)|
            ensures Init(cs)[i].finished
          {
            assert Init(cs)[i] == cs[i];
          }
        }
      }
    }
  }

  /** The per-type execution times `workloadTimes` accumulates, keyed by label (or null). */
  function TimesByType(cs: seq<FinishedCloudlet>, w: map<int, string>): map<Option<string>, real> {
    if cs == [] then map[]
    else
      var m := TimesByType(Init(cs), w);
      var c := Last(cs);
      if c.finished then
        var t := TypeOf(w, c.id);
        m[t := (if t in m then m[t] else 0.0) + c.execTime]
      else m
  }

  /** The per-type counts `workloadCounts` accumulates. */
  function CountsByType(cs: seq<FinishedCloudlet>, w: map<int, string>): map<Option<string>, int> {
    if cs == [] then map[]
    else
      var m := CountsByType(Init(cs), w);
      var c := Last(cs);
      if c.finished then
        var t := TypeOf(w, c.id);
        m[t := (if t in m then m[t] else 0) + 1]
      else m
  }

  /** A type with no finished cloudlet has accumulated no time. */
  lemma {:induction false} UncountedHasNoTime(cs: seq<FinishedCloudlet>, w: map<int, string>, t: Option<string>)
    requires CountOf(cs, w, t) == 0
    ensures TimeOf(cs, w, t) == 0.0
  {
    if cs != [] {
      UncountedHasNoTime(Init(cs), w, t);
    }
  }

  /**
   * The time map holds exactly the types of finished cloudlets, each with
   * the total time of that type; the count map the same types with their
   * counts (never zero).
   */
  lemma {:induction false} ByTypeIsPerType(cs: seq<FinishedCloudlet>, w: map<int, string>)
    ensures forall t :: t in TimesByType(cs, w) <==> CountOf(cs, w, t) > 0
    ensures forall t :: t in CountsByType(cs, w) <==> CountOf(cs, w, t) > 0
    ensures forall t :: t in TimesByType(cs, w) ==> TimesByType(cs, w)[t] == TimeOf(cs, w, t)
    ensures forall t :: t in CountsByType(cs, w) ==> CountsByType(cs, w)[t] == CountOf(cs, w, t)
  {
    if cs != [] {
      var c := Last(cs);
      ByTypeIsPerType(Init(cs), w);
      forall t
        ensures t in TimesByType(cs, w) <==> CountOf(cs, w, t) > 0
        ensures t in CountsByType(cs, w) <==> CountOf(cs, w, t) > 0
        ensures t in TimesByType(cs, w) ==> TimesByType(cs, w)[t] == TimeOf(cs, w, t)
        ensures t in CountsByType(cs, w) ==> CountsByType(cs, w)[t] == CountOf(cs, w, t)
      {
        assert CountOf(cs, w, t) == CountOf(Init(cs), w, t) + (if c.finished && TypeOf(w, c.id) == t then 1 else 0);
        assert TimeOf(cs, w, t) == TimeOf(Init(cs), w, t) + (if c.finished && TypeOf(w, c.id) == t then c.execTime else 0.0);
        if CountOf(Init(cs), w, t) == 0 {
          UncountedHasNoTime(Init(cs), w, t);
        }
      }
    }
  }

  /** Cost of an execution time: the rate is 0.0042 per second. */
  function Cost(execTime: real): real {
    execTime * 0.0042
  }

  /** The per-type costs `costByWorkload` accumulates. */
  function CostsByType(cs: seq<FinishedCloudlet>, w: map<int, string>): map<Option<string>, real> {
    if cs == [] then map[]
    else
      var m := CostsByType(Init(cs), w);
      var c := Last(cs);
      if c.finished then
        var t := TypeOf(w, c.id);
        m[t := (if t in m then m[t] else 0.0) + Cost(c.execTime)]
      else m
  }

  /** The total cost `totalCost` accumulates. */
  function TotalCost(cs: seq<FinishedCloudlet>): real {
    if cs == [] then 0.0 else TotalCost(Init(cs)) + (if Last(cs).finished then Cost(Last(cs).execTime) else 0.0)
  }

  /**
   * Each cost is the execution time at the fixed rate: the total cost is
   * the cost of the total time, and each type's cost the cost of its time.
   */
  lemma {:induction false} CostsAtRate(cs: seq<FinishedCloudlet>, w: map<int, string>)
    ensures TotalCost(cs) == Cost(TotalTime(cs))
    ensures forall t :: t in CostsByType(cs, w) <==> CountOf(cs, w, t) > 0
    ensures forall t :: t in CostsByType(cs, w) ==> CostsByType(cs, w)[t] == Cost(TimeOf(cs, w, t))
  {
    if cs != [] {
      var c := Last(cs);
      CostsAtRate(Init(cs), w);
      forall t
        ensures t in CostsByType(cs, w) <==> CountOf(cs, w, t) > 0
        ensures t in CostsByType(cs, w) ==> CostsByType(cs, w)[t] == Cost(TimeOf(cs, w, t))
      {
        assert CountOf(cs, w, t) == CountOf(Init(cs), w, t) + (if c.finished && TypeOf(w, c.id) == t then 1 else 0);
        assert TimeOf(cs, w, t) == TimeOf(Init(cs), w, t) + (if c.finished && TypeOf(w, c.id) == t then c.execTime else 0.0);
        if CountOf(Init(cs), w, t) == 0 {
          UncountedHasNoTime(Init(cs), w, t);
        }
      }
    }
  }

  /** A list of types with no repeats. */
  predicate Distinct(ts: seq<Option<string>>) {
    forall i, j :: 0 <= i < j < |ts| ==> ts[i] != ts[j]
  }

  /** Every finished cloudlet's type is listed in `ts`. */
  predicate Covers(ts: seq<Option<string>>, cs: seq<FinishedCloudlet>, w: map<int, string>) {
    forall i :: 0 <= i < |cs| && cs[i].finished ==> TypeOf(w, cs[i].id) in ts
  }

  /** The per-type times summed over the types in `ts`. */
  function SumTimes(cs: seq<FinishedCloudlet>, w: map<int, string>, ts: seq<Option<string>>): real {
    if ts == [] then 0.0 else TimeOf(cs, w, ts[0]) + SumTimes(cs, w, ts[1..])
  }

  /** The per-type counts summed over the types in `ts`. */
  function SumCounts(cs: seq<FinishedCloudlet>, w: map<int, string>, ts: seq<Option<string>>): int {
    if ts == [] then 0 else CountOf(cs, w, ts[0]) + SumCounts(cs, w, ts[1..])
  }

  /** How often `t` occurs in `ts`. */
  function Occurrences(ts: seq<Option<string>>, t: Option<string>): nat {
    if ts == [] then 0 else (if ts[0] == t then 1 else 0) + Occurrences(ts[1..], t)
  }

  /** `e` once for every listing of `t` in `ts`. */
  function Hits(ts: seq<Option<string>>, t: Option<string>, e: real): real {
    if ts == [] then 0.0 else (if ts[0] == t then e else 0.0) + Hits(ts[1..], t, e)
  }

  /** In a list without repeats, a listed type occurs once. */
  lemma {:induction false} OccursOnce(ts: seq<Option<string>>, t: Option<string>, e: real)
    requires Distinct(ts) && t in ts
    ensures Occurrences(ts, t) == 1 && Hits(ts, t, e) == e
  {
    if ts[0] == t {
      OccursNot(ts[1..], t, e);
    } else {
      OccursOnce(ts[1..], t, e);
    }
  }

  /** A type absent from `ts` occurs there zero times. */
  lemma {:induction false} OccursNot(ts: seq<Option<string>>, t: Option<string>, e: real)
    requires t !in ts
    ensures Occurrences(ts, t) == 0 && Hits(ts, t, e) == 0.0
  {
    if ts != [] {
      OccursNot(ts[1..], t, e);
    }
  }

  /** Adding the last cloudlet adds its time once per listing of its type. */
  lemma {:induction false} SumStep(cs: seq<FinishedCloudlet>, w: map<int, string>, ts: seq<Option<string>>)
    requires cs != []
    ensures var c := Last(cs);
            var t := TypeOf(w, c.id);
            && SumTimes(cs, w, ts) == SumTimes(Init(cs), w, ts)
                 + (if c.finished then Hits(ts, t, c.execTime) else 0.0)
            && SumCounts(cs, w, ts) == SumCounts(Init(cs), w, ts)
                 + (if c.finished then Occurrences(ts, t) else 0)
  {
    if ts != [] {
      SumStep(cs, w, ts[1..]);
    }
  }

  /**
   * The parts sum to the whole: over a repeat-free list naming every
   * finished cloudlet's type, the per-type times add up to the total time
   * and the per-type counts to the number of successes.
   */
  lemma {:induction false} PartsSumToWhole(cs: seq<FinishedCloudlet>, w: map<int, string>, ts: seq<Option<string>>)
    requires Distinct(ts) && Covers(ts, cs, w)
    ensures SumTimes(cs, w, ts) == TotalTime(cs)
    ensures SumCounts(cs, w, ts) == Successful(cs)
  {
    if cs == [] {
      SumZero(w, ts);
    } else {
      var c := Last(cs);
      assert Covers(ts, Init(cs), w) by {
        forall i | 0 <= i < |Init(cs)| && Init(cs)[i].finished
          ensures TypeOf(w, Init(cs)[i].id) in ts
        {
          assert Init(cs)[i] == cs[i];
        }
      }
      PartsSumToWhole(Init(cs), w, ts);
      SumStep(cs, w, ts);
      if c.finished {
        assert cs[|cs| - 1] == c;
        OccursOnce(ts, TypeOf(w, c.id), c.execTime);
      }
    }
  }

  /** Over the empty list every per-type sum is zero. */
  lemma {:induction false} SumZero(w: map<int, string>, ts: seq<Option<string>>)
    ensures SumTimes([], w, ts) == 0.0 && SumCounts([], w, ts) == 0
  {
    if ts != [] {
      SumZero(w, ts[1..]);
    }
  }

  /** The values of `m` at the listed keys, added up (an absent key adds nothing). */
  function SumValues(m: map<Option<string>, real>, ts: seq<Option<string>>): real {
    if ts == [] then 0.0 else (if ts[0] in m then m[ts[0]] else 0.0) + SumValues(m, ts[1..])
  }

  /** The time map, read at the listed types, adds up the per-type times. */
  lemma {:induction false} TimeValuesAreTimes(cs: seq<FinishedCloudlet>, w: map<int, string>, ts: seq<Option<string>>)
    ensures SumValues(TimesByType(cs, w), ts) == SumTimes(cs, w, ts)
  {
    if ts != [] {
      ByTypeIsPerType(cs, w);
      TimeValuesAreTimes(cs, w, ts[1..]);
      if ts[0] !in TimesByType(cs, w) {
        UncountedHasNoTime(cs, w, ts[0]);
      }
    }
  }

  /** The cost map, read at the listed types, adds up the costs of the per-type times. */
  lemma {:induction false} CostValuesAreTimeCosts(cs: seq<FinishedCloudlet>, w: map<int, string>, ts: seq<Option<string>>)
    ensures SumValues(CostsByType(cs, w), ts) == Cost(SumTimes(cs, w, ts))
  {
    if ts != [] {
      CostsAtRate(cs, w);
      CostValuesAreTimeCosts(cs, w, ts[1..]);
      if ts[0] !in CostsByType(cs, w) {
        UncountedHasNoTime(cs, w, ts[0]);
      }
    }
  }

  /**
   * The time breakdown adds up: over a repeat-free listing of the keys of
   * the time map, the per-type times sum to the total time.
   */
  lemma TimesSumToTotal(cs: seq<FinishedCloudlet>, w: map<int, string>, ts: seq<Option<string>>)
    requires Distinct(ts) && forall t :: t in ts <==> t in TimesByType(cs, w)
    ensures SumValues(TimesByType(cs, w), ts) == TotalTime(cs)
  {
    ByTypeIsPerType(cs, w);
    KeysCover(cs, w, ts);
    PartsSumToWhole(cs, w, ts);
    TimeValuesAreTimes(cs, w, ts);
  }

  /** Each entry's percentage of `total`, or None when `total` is zero (the division gives NaN). */
  function Shares(costs: map<Option<string>, real>, total: real): (r: Option<map<Option<string>, real>>)
    ensures r == None <==> total == 0.0
    ensures r != None ==> r.value.Keys == costs.Keys
  {
    if total == 0.0 then None else Some(map t | t in costs :: costs[t] / total * 100.0)
  }

  /** Percentages of a common total add up. */
  lemma ShareAdd(a: real, b: real, total: real)
    requires total != 0.0
    ensures a / total * 100.0 + b / total * 100.0 == (a + b) / total * 100.0
  {
    var qa := a / total;
    var qb := b / total;
    assert qa * total == a && qb * total == b;
    assert (qa + qb) * total == qa * total + qb * total;
  }

  /** The whole is 100 percent of itself. */
  lemma WholeShare(total: real)
    requires total != 0.0
    ensures total / total * 100.0 == 100.0
  {
  }

  /** Summing the shares is taking the share of the sum. */
  lemma {:induction false} SharesOfSum(costs: map<Option<string>, real>, total: real, ts: seq<Option<string>>)
    requires total != 0.0
    ensures SumValues(Shares(costs, total).value, ts) == SumValues(costs, ts) / total * 100.0
  {
    if ts != [] {
      SharesOfSum(costs, total, ts[1..]);
      ShareAdd(if ts[0] in costs then costs[ts[0]] else 0.0, SumValues(costs, ts[1..]), total);
    }
  }

  /**
   * The cost breakdown adds up: over a repeat-free listing of the keys of
   * the cost map, the per-type costs sum to the total cost and, when that
   * total is not zero, the percentage shares sum to 100.
   */
  lemma CostSharesSumTo100(cs: seq<FinishedCloudlet>, w: map<int, string>, ts: seq<Option<string>>)
    requires Distinct(ts) && forall t :: t in ts <==> t in CostsByType(cs, w)
    ensures SumValues(CostsByType(cs, w), ts) == TotalCost(cs)
    ensures TotalCost(cs) != 0.0 ==> SumValues(Shares(CostsByType(cs, w), TotalCost(cs)).value, ts) == 100.0
  {
    CostsAtRate(cs, w);
    KeysCover(cs, w, ts);
    PartsSumToWhole(cs, w, ts);
    CostValuesAreTimeCosts(cs, w, ts);
    var total := TotalCost(cs);
    if total != 0.0 {
      SharesOfSum(CostsByType(cs, w), total, ts);
      WholeShare(total);
    }
  }

  /** The monthly estimate: the hourly cost for 24 hours a day over 30 days. */
  function MonthlyCost(hourly: real): (r: real)
    ensures r == hourly * 720.0
  {
    hourly * 24.0 * 30.0
  }

  /** Cost per request: the total over the request count, never dividing by less than 1. */
  function CostPerRequest(totalCost: real, requestCount: real): (r: real)
    ensures r * Max(1.0, requestCount) == totalCost
    ensures requestCount <= 1.0 ==> r == totalCost
    ensures totalCost >= 0.0 ==> 0.0 <= r <= totalCost
  {
    var d := Max(1.0, requestCount);
    assert totalCost >= 0.0 ==> totalCost / d <= totalCost by {
      if totalCost >= 0.0 {
        ScaledBetween(totalCost / d, 1.0, d, d);
      }
    }
    totalCost / d
  }

  /** The simulated execution time of the finished cloudlets in milliseconds. */
  function TotalMillis(cs: seq<FinishedCloudlet>): real {
    if cs == [] then 0.0 else TotalMillis(Init(cs)) + (if Last(cs).finished then Last(cs).execTime * 1000.0 else 0.0)
  }

  /** Converting each time to milliseconds is converting the total. */
  lemma {:induction false} TotalMillisIsTotalTime(cs: seq<FinishedCloudlet>)
    ensures TotalMillis(cs) == TotalTime(cs) * 1000.0
  {
    if cs != [] {
      TotalMillisIsTotalTime(Init(cs));
    }
  }

  /** With nothing finished there is no time to sum: the millisecond total is zero. */
  lemma {:induction false} NothingFinishedNoTime(cs: seq<FinishedCloudlet>)
    requires Successful(cs) == 0
    ensures TotalMillis(cs) == 0.0
  {
    if cs != [] {
      NothingFinishedNoTime(Init(cs));
    }
  }

  /** The simulated average time in ms: total over the finished count, or 0 when none finished. */
  function SimulatedAverageMillis(cs: seq<FinishedCloudlet>): real {
    if Successful(cs) > 0 then TotalMillis(cs) / Successful(cs) as real else 0.0
  }

  /**
   * The accuracy figure: computed only when both times are positive, then
   * `max(0, 100 - |real - sim| / max(real, sim) * 100)`.
   */
  function Accuracy(realTime: real, simulated: real): (r: Option<real>)
    ensures r.Some? <==> simulated > 0.0 && realTime > 0.0
  {
    if simulated > 0.0 && realTime > 0.0 then
      Some(Max(0.0, 100.0 - Abs(realTime - simulated) / Max(realTime, simulated) * 100.0))
    else None
  }

  /**
   * When computed, the accuracy lies in [0, 100], is 100 exactly when the
   * two times agree, and does not depend on their order.
   */
  lemma AccuracyBounds(realTime: real, simulated: real)
    requires realTime > 0.0 && simulated > 0.0
    ensures 0.0 <= Accuracy(realTime, simulated).value <= 100.0
    ensures Accuracy(realTime, simulated).value == 100.0 <==> realTime == simulated
    ensures Accuracy(realTime, simulated) == Accuracy(simulated, realTime)
  {
    var d := Abs(realTime - simulated);
    var m := Max(realTime, simulated);
    assert d <= m;
    assert 0.0 <= d / m <= 1.0 by {
      ScaledBetween(1.0 / m, 0.0, d, m);
    }
    if realTime != simulated {
      assert d / m > 0.0;
    }
    assert Abs(simulated - realTime) == d && Max(simulated, realTime) == m;
  }

  /** What the performance report shows: successes out of all cloudlets, their rate, total time, per-type averages. */
  datatype PerformanceReport = PerformanceReport(
    successful: nat, cloudlets: nat, successRate: Option<real>, totalTime: real, averages: map<Option<string>, real>)

  /**
   * The performance report for a finished list. The success rate is a
   * percentage of all cloudlets, None for an empty list (the division gives
   * NaN there).
   */
  function Performance(cs: seq<FinishedCloudlet>, w: map<int, string>): PerformanceReport {
    PerformanceReport(Successful(cs), |cs|,
                      if |cs| == 0 then None else Some(Successful(cs) as real * 100.0 / |cs| as real),
                      TotalTime(cs), Averages(cs, w))
  }

  /** `k` out of `n` as a percentage lies in [0, 100] and is 100 exactly when `k == n`. */
  lemma Percentage(k: nat, n: nat)
    requires 0 < n && k <= n
    ensures 0.0 <= k as real * 100.0 / n as real <= 100.0
    ensures k as real * 100.0 / n as real == 100.0 <==> k == n
  {
    var x, y := k as real, n as real;
    ScaledBetween(100.0 / y, 0.0, x, y);
    assert x * 100.0 / y == (100.0 / y) * x;
    assert (100.0 / y) * y == 100.0;
    assert (x * 100.0 / y) * y == x * 100.0;
  }

  /**
   * The success rate lies in [0, 100] and is 100 exactly when every
   * cloudlet finished; the averages cover exactly the finished types.
   */
  lemma PerformanceFigures(cs: seq<FinishedCloudlet>, w: map<int, string>)
    ensures var p := Performance(cs, w);
            && (p.successRate != None <==> cs != [])
            && (p.successRate != None ==> 0.0 <= p.successRate.value <= 100.0)
            && (p.successRate != None ==> (p.successRate.value == 100.0 <==> forall i :: 0 <= i < |cs| ==> cs[i].finished))
            && (forall t :: t in p.averages <==> CountOf(cs, w, t) > 0)
  {
    SuccessfulBound(cs);
    if cs != [] {
      Percentage(Successful(cs), |cs|);
    }
    forall t
      ensures t in Averages(cs, w) <==> CountOf(cs, w, t) > 0
    {
      AverageOfType(cs, w, t);
    }
  }

  /** What the cost report shows: hourly, monthly and per-request cost, the per-type costs and their shares. */
  datatype CostReport = CostReport(
    hourly: real, monthly: real, perRequest: real,
    byType: map<Option<string>, real>, shares: Option<map<Option<string>, real>>)

  /** The cost report: the request count reads 1.0 when absent. */
  function Costs(cs: seq<FinishedCloudlet>, w: map<int, string>, metrics: map<string, real>): (r: CostReport)
    ensures r.hourly == Cost(TotalTime(cs))
    ensures r.monthly == r.hourly * 720.0
    ensures r.perRequest * Max(1.0, GetOrDefault(metrics, RequestCount, 1.0)) == r.hourly
  {
    CostsAtRate(cs, w);
    var total := TotalCost(cs);
    CostReport(total, MonthlyCost(total), CostPerRequest(total, GetOrDefault(metrics, RequestCount, 1.0)),
               CostsByType(cs, w), Shares(CostsByType(cs, w), total))
  }

  /** What the comparison report shows. */
  datatype ComparisonReport = ComparisonReport(
    realResponseTime: real, simulatedAverage: real, accuracy: Option<real>, realCpu: real, realRequests: real)

  /**
   * The real-versus-simulated comparison, shown only with real data; the
   * readings are 0.0 when absent.
   */
  function Comparison(cs: seq<FinishedCloudlet>, useRealData: bool, metrics: map<string, real>): (r: Option<ComparisonReport>)
    ensures r != None <==> useRealData
  {
    if !useRealData then None
    else
      var realTime := GetOrDefault(metrics, ResponseTime, 0.0);
      var simulated := SimulatedAverageMillis(cs);
      Some(ComparisonReport(realTime, simulated, Accuracy(realTime, simulated),
                            GetOrDefault(metrics, CpuUsage, 0.0), GetOrDefault(metrics, RequestCount, 0.0)))
  }

  /**
   * The comparison appears exactly with real data; its simulated figure is
   * the mean finished time in milliseconds; the accuracy is given exactly
   * when both times are positive and then lies in [0, 100].
   */
  lemma ComparisonFigures(cs: seq<FinishedCloudlet>, useRealData: bool, metrics: map<string, real>)
    ensures Comparison(cs, useRealData, metrics) != None <==> useRealData
    ensures var r := Comparison(cs, useRealData, metrics);
            r != None ==>
              && r.value.simulatedAverage == (if Successful(cs) > 0 then TotalTime(cs) * 1000.0 / Successful(cs) as real else 0.0)
              && (r.value.accuracy != None <==> r.value.simulatedAverage > 0.0 && r.value.realResponseTime > 0.0)
              && (r.value.accuracy != None ==> 0.0 <= r.value.accuracy.value <= 100.0)
  {
    TotalMillisIsTotalTime(cs);
    if useRealData {
      var realTime := GetOrDefault(metrics, ResponseTime, 0.0);
      var simulated := SimulatedAverageMillis(cs);
      if realTime > 0.0 && simulated > 0.0 {
        AccuracyBounds(realTime, simulated);
      }
    }
  }

  /** The outcome of the per-type workload rules. */
  datatype WorkloadAdvice = PageRenderingSlow | PageRenderingOptimal | ApiProcessingSlow | ApiProcessingExcellent

  /**
   * The rule for one workload type with average time `avg` seconds: page
   * rendering is slow above 8 s, API processing above 5 s, any other type
   * gets no advice.
   */
  function AdviseWorkload(workloadType: string, avg: real): (r: Option<WorkloadAdvice>)
    ensures r.Some? <==> Contains(workloadType, "Page Rendering") || Contains(workloadType, "API Processing")
    ensures r == Some(PageRenderingSlow) <==> Contains(workloadType, "Page Rendering") && avg > 8.0
    ensures r == Some(ApiProcessingSlow) <==>
              !Contains(workloadType, "Page Rendering") && Contains(workloadType, "API Processing") && avg > 5.0
    ensures r == Some(PageRenderingOptimal) <==> Contains(workloadType, "Page Rendering") && avg <= 8.0
    ensures r == Some(ApiProcessingExcellent) <==>
              !Contains(workloadType, "Page Rendering") && Contains(workloadType, "API Processing") && avg <= 5.0
  {
    if Contains(workloadType, "Page Rendering") then
      Some(if avg > 8.0 then PageRenderingSlow else PageRenderingOptimal)
    else if Contains(workloadType, "API Processing") then
      Some(if avg > 5.0 then ApiProcessingSlow else ApiProcessingExcellent)
    else None
  }

  /** The outcome of the CPU rule. */
  datatype CpuAdvice = HighCpu | LowCpu | CpuOptimal

  /** The CPU rule: above 70 % scale up, below 25 % downsize, otherwise optimal. */
  function AdviseCpu(cpuUsage: real): (r: CpuAdvice)
    ensures r == HighCpu <==> cpuUsage > 70.0
    ensures r == LowCpu <==> cpuUsage < 25.0
    ensures r == CpuOptimal <==> 25.0 <= cpuUsage <= 70.0
  {
    if cpuUsage > 70.0 then HighCpu else if cpuUsage < 25.0 then LowCpu else CpuOptimal
  }

  /** The outcome of the response-time rule. */
  datatype ResponseAdvice = SlowResponse | ExcellentResponse | GoodResponse

  /** The response rule: above 200 ms slow, below 50 ms excellent, otherwise good. */
  function AdviseResponse(responseTime: real): (r: ResponseAdvice)
    ensures r == SlowResponse <==> responseTime > 200.0
    ensures r == ExcellentResponse <==> responseTime < 50.0
    ensures r == GoodResponse <==> 50.0 <= responseTime <= 200.0
  {
    if responseTime > 200.0 then SlowResponse else if responseTime < 50.0 then ExcellentResponse else GoodResponse
  }

  /** How loaded a CPU advice says the application is: low, optimal, high. */
  function CpuLoadLevel(a: CpuAdvice): nat {
    match a
    case LowCpu => 0
    case CpuOptimal => 1
    case HighCpu => 2
  }

  /** How slow a response advice says the application is: excellent, good, slow. */
  function ResponseLevel(a: ResponseAdvice): nat {
    match a
    case ExcellentResponse => 0
    case GoodResponse => 1
    case SlowResponse => 2
  }

  /** A higher reading never gets a milder verdict. */
  lemma AdviceMonotonic(x: real, y: real)
    requires x <= y
    ensures CpuLoadLevel(AdviseCpu(x)) <= CpuLoadLevel(AdviseCpu(y))
    ensures ResponseLevel(AdviseResponse(x)) <= ResponseLevel(AdviseResponse(y))
  {
  }

  /** A finished cloudlet's type is counted, so it is a key of every per-type map. */
  lemma {:induction false} FinishedIsCounted(cs: seq<FinishedCloudlet>, w: map<int, string>, i: int)
    requires 0 <= i < |cs| && cs[i].finished
    ensures CountOf(cs, w, TypeOf(w, cs[i].id)) > 0
  {
    if i < |cs| - 1 {
      assert Init(cs)[i] == cs[i];
      FinishedIsCounted(Init(cs), w, i);
    }
  }

  /** A repeat-free listing of the per-type keys covers every finished cloudlet. */
  lemma KeysCover(cs: seq<FinishedCloudlet>, w: map<int, string>, ts: seq<Option<string>>)
    requires forall t :: t in ts <==> CountOf(cs, w, t) > 0
    ensures Covers(ts, cs, w)
  {
    forall i | 0 <= i < |cs| && cs[i].finished
      ensures TypeOf(w, cs[i].id) in ts
    {
      FinishedIsCounted(cs, w, i);
    }
  }

  /** The per-type average execution time: each type's total over its count. */
  function Averages(cs: seq<FinishedCloudlet>, w: map<int, string>): (r: map<Option<string>, real>)
    ensures r.Keys == TimesByType(cs, w).Keys
  {
    ByTypeIsPerType(cs, w);
    map t | t in TimesByType(cs, w) :: TimesByType(cs, w)[t] / CountsByType(cs, w)[t] as real
  }

  /**
   * The averages cover exactly the types of finished cloudlets, and each
   * is the type's total time over its count.
   */
  lemma AverageOfType(cs: seq<FinishedCloudlet>, w: map<int, string>, t: Option<string>)
    ensures t in Averages(cs, w) <==> CountOf(cs, w, t) > 0
    ensures t in Averages(cs, w) ==> Averages(cs, w)[t] == TimeOf(cs, w, t) / CountOf(cs, w, t) as real
  {
    ByTypeIsPerType(cs, w);
  }

  /**
   * The per-type rules applied to every average: None when a finished
   * cloudlet has no recorded type (the rule's `contains` would then fail on
   * null), otherwise the advice for each page-rendering or API type.
   */
  function WorkloadAdvices(averages: map<Option<string>, real>): (r: Option<map<string, WorkloadAdvice>>)
    ensures r == None <==> None in averages
    ensures r != None ==> forall l :: l in r.value ==> Some(l) in averages && AdviseWorkload(l, averages[Some(l)]) == Some(r.value[l])
    ensures r != None ==> forall l :: Some(l) in averages && AdviseWorkload(l, averages[Some(l)]).Some? ==> l in r.value
  {
    if None in averages then None else Some(RulesOn(averages, averages.Keys))
  }

  /** The per-type rules applied to the labelled averages whose type is in `done`. */
  function RulesOn(averages: map<Option<string>, real>, done: set<Option<string>>): map<string, WorkloadAdvice> {
    map t | t in done && t in averages && t.Some? && AdviseWorkload(t.value, averages[t]).Some?
      :: t.value := AdviseWorkload(t.value, averages[t]).value
  }

  /** Applying the rules to one more labelled type adds that type's advice, if any, and nothing else. */
  lemma RulesOnStep(averages: map<Option<string>, real>, done: set<Option<string>>, t: Option<string>)
    requires t in averages && t.Some? && t !in done
    ensures var rule := AdviseWorkload(t.value, averages[t]);
            RulesOn(averages, done + {t}) ==
              if rule.Some? then RulesOn(averages, done)[t.value := rule.value] else RulesOn(averages, done)
  {
    var rule := AdviseWorkload(t.value, averages[t]);
    var before := RulesOn(averages, done);
    var after := RulesOn(averages, done + {t});
    var expected := if rule.Some? then before[t.value := rule.value] else before;
    forall l
      ensures (l in after <==> l in expected) && (l in after ==> after[l] == expected[l])
    {
      var u := Some(l);
      assert l in after <==> u in done + {t} && u in averages && AdviseWorkload(l, averages[u]).Some?;
      assert l in before <==> u in done && u in averages && AdviseWorkload(l, averages[u]).Some?;
    }
    assert after == expected;
  }

  /** The infrastructure verdicts: the CPU rule and the response rule. */
  datatype InfrastructureAdvice = InfrastructureAdvice(cpu: CpuAdvice, response: ResponseAdvice)

  /** What the recommendations report says: per-type advice, then infrastructure advice with real data. */
  datatype Recommendations = Recommendations(workloads: map<string, WorkloadAdvice>, infrastructure: Option<InfrastructureAdvice>)

  /**
   * The whole recommendation report, or None when the per-type rules stop
   * on a cloudlet with no recorded type. The infrastructure rules read CPU
   * usage and response time, 0.0 when absent, and only with real data.
   */
  function Recommend(cs: seq<FinishedCloudlet>, w: map<int, string>, useRealData: bool, metrics: map<string, real>): Option<Recommendations> {
    var advices := WorkloadAdvices(Averages(cs, w));
    if advices == None then None
    else
      Some(Recommendations(advices.value,
        if useRealData then
          Some(InfrastructureAdvice(AdviseCpu(GetOrDefault(metrics, CpuUsage, 0.0)),
                                    AdviseResponse(GetOrDefault(metrics, ResponseTime, 0.0))))
        else None))
  }

  /**
   * Recommendations are given exactly when every finished cloudlet has a
   * recorded type; the infrastructure part exactly when real data is on.
   */
  lemma RecommendWhenTyped(cs: seq<FinishedCloudlet>, w: map<int, string>, useRealData: bool, metrics: map<string, real>)
    ensures Recommend(cs, w, useRealData, metrics) != None <==> forall i :: 0 <= i < |cs| && cs[i].finished ==> cs[i].id in w
    ensures Recommend(cs, w, useRealData, metrics) != None ==>
              (Recommend(cs, w, useRealData, metrics).value.infrastructure != None <==> useRealData)
  {
    AverageOfType(cs, w, None);
    if forall i :: 0 <= i < |cs| && cs[i].finished ==> cs[i].id in w {
      UntypedNeverCounted(cs, w);
    } else {
      var i :| 0 <= i < |cs| && cs[i].finished && cs[i].id !in w;
      FinishedIsCounted(cs, w, i);
    }
  }

  /** With every finished cloudlet typed, nothing is counted under null. */
  lemma {:induction false} UntypedNeverCounted(cs: seq<FinishedCloudlet>, w: map<int, string>)
    requires forall i :: 0 <= i < |cs| && cs[i].finished ==> cs[i].id in w
    ensures CountOf(cs, w, None) == 0
  {
    if cs != [] {
      assert forall i :: 0 <= i < |Init(cs)| ==> Init(cs)[i] == cs[i];
      UntypedNeverCounted(Init(cs), w);
      assert Last(cs) == cs[|cs| - 1];
    }
  }

  /**
   * The CPU advice agrees with the scaling policy: usage that triggers
   * "scale up" already has the VM core factor above 1.75 and the host
   * factor above 2.0; usage that triggers "downsize" has the core factor
   * below 0.625.
   */
  lemma CpuAdviceAgreesWithScaling(cpuUsage: real)
    ensures AdviseCpu(cpuUsage) == HighCpu ==> CpuScaleFactor(cpuUsage) > 1.75 && cpuUsage / 35.0 > 2.0
    ensures AdviseCpu(cpuUsage) == LowCpu ==> CpuScaleFactor(cpuUsage) < 0.625
  {
  }

  /**
   * The response advice agrees with the RAM factor: "slow" already has the
   * response factor at its cap of 2.0, "excellent" has it below 0.5.
   */
  lemma ResponseAdviceAgreesWithScaling(responseTime: real)
    ensures AdviseResponse(responseTime) == SlowResponse ==> ResponseScaleFactor(responseTime) == 2.0
    ensures AdviseResponse(responseTime) == ExcellentResponse ==> ResponseScaleFactor(responseTime) < 0.5
  {
  }

  /** "Page Rendering" cannot straddle the end of a name that lacks it and the " API Processing" suffix. */
  lemma ApiLabelNotPage(name: string)
    requires !Contains(name, "Page Rendering")
    ensures !Contains(name + " API Processing", "Page Rendering")
  {
    var suffix := " API Processing";
    var s := name + suffix;
    var pat := "Page Rendering";
    forall k | 0 <= k
      ensures !OccursAt(s, pat, k)
    {
      if k + |pat| <= |name| {
        assert s[k..k + |pat|] == name[k..k + |pat|];
        if OccursAt(s, pat, k) {
          ContainsOccurs(name, pat, k);
        }
      } else if k + |pat| <= |s| {
        var j := k + 13 - |name|;
        assert s[k + 13] == suffix[j];
        if j == 14 {
          assert s[k] == suffix[1];
        }
        assert s[k + 13] != 'g' || s[k] != 'P';
        assert s[k..k + |pat|][0] == s[k] && s[k..k + |pat|][13] == s[k + 13];
      }
    }
  }

  /** Fixed labels too short or too different to hold either marker. */
  lemma FixedLabelsUnadvised(avg: real)
    ensures AdviseWorkload("Static Assets", avg) == None
    ensures AdviseWorkload("Image Processing", avg) == None
    ensures AdviseWorkload("Build/Deploy", avg) == None
  {
    var image := "Image Processing";
    forall i | 0 <= i
      ensures !OccursAt(image, "Page Rendering", i) && !OccursAt(image, "API Processing", i)
    {
      if i + 14 <= 16 {
        assert image[i..i + 14][0] == image[i];
      }
    }
  }

  /**
   * Applied to the generator's labels, the per-type rules follow the class:
   * page rendering gets the page advice, API processing the API advice
   * (unless the project name itself mentions page rendering, which the
   * rule checks first), and the static, image and build classes none.
   */
  lemma LabelAdvice(k: Workload.WorkloadClass, projectName: string, avg: real)
    ensures k == Workload.PageRendering ==>
              AdviseWorkload(Workload.Label(k, projectName), avg)
                == Some(if avg > 8.0 then PageRenderingSlow else PageRenderingOptimal)
    ensures k == Workload.ApiProcessing && !Contains(projectName, "Page Rendering") ==>
              AdviseWorkload(Workload.Label(k, projectName), avg)
                == Some(if avg > 5.0 then ApiProcessingSlow else ApiProcessingExcellent)
    ensures k != Workload.PageRendering && k != Workload.ApiProcessing ==>
              AdviseWorkload(Workload.Label(k, projectName), avg) == None
  {
    var l := Workload.Label(k, projectName);
    match k
    case PageRendering =>
      SuffixNames();
      OccursInTail(projectName, " Page Rendering", "Page Rendering", 1);
    case ApiProcessing =>
      SuffixNames();
      OccursInTail(projectName, " API Processing", "API Processing", 1);
      if !Contains(projectName, "Page Rendering") {
        ApiLabelNotPage(projectName);
      }
    case _ =>
      FixedLabelsUnadvised(avg);
  }

  /** A pattern that ends the tail of a string is found in the whole string. */
  lemma OccursInTail(head: string, tail: string, pat: string, at: nat)
    requires at <= |tail| && tail[at..] == pat
    ensures Contains(head + tail, pat)
  {
    var s := head + tail;
    assert s[|head| + at..|head| + at + |pat|] == tail[at..];
    ContainsOccurs(s, pat, |head| + at);
  }

  /** Each generated suffix is a space followed by the marker the rules look for. */
  lemma SuffixNames()
    ensures " Page Rendering"[1..] == "Page Rendering"
    ensures " API Processing"[1..] == "API Processing"
  {
  }
}
