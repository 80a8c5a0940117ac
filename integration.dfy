/**
 * The integration object itself: it holds the telemetry table, the base and
 * adjusted VM sizes, and the hosts, VMs, cloudlets and id-to-label map it
 * builds for the simulator, and it turns the broker's finished list into
 * the four reports. Each method is proved against the specification
 * functions of the modules it draws on; the properties of those functions
 * are proved there.
 */
module Integration {
  import opened Wrappers
  import opened JavaNumeric
  import opened Scaling
  import opened JsonExtract
  import opened Telemetry
  import opened Infrastructure
  import opened Workload
  import opened Analysis

  /** Where the metrics file is looked for unless a non-empty path is given. */
  const DefaultMetricsPath: string := "cloudsim-metrics.json"

  /** The project name until a metrics document names one. */
  const DefaultProjectName: string := "Unknown-NextJS-App"

  /** A fresh array holding `s` (`int[].clone()` of a never-written array). */
  method Clone(s: seq<int>) returns (b: array<int>)
    ensures fresh(b) && b[..] == s
  {
    b := new int[|s|];
    for i := 0 to |s|
      invariant b[..i] == s[..i]
    {
      b[i] := s[i];
    }
  }

  /** Adding entries to an empty map gives those entries. */
  lemma UnionWithEmpty<K, V>(m: map<K, V>)
    ensures map[] + m == m
  {
  }

  class ExistingNextJSCloudSimIntegration {
    /** Set once by the constructor. */
    const useRealData: bool
    const metricsFilePath: string
    var projectName: string
    /** The numeric entries of `realTimeMetrics`. */
    var realTimeMetrics: map<string, real>
    /** The `pages` entry of `realTimeMetrics`, None until one is stored. */
    var pageMetrics: Option<map<string, real>>

    /** The base sizes: the final arrays the source never writes, kept as values. */
    const baseVmCores: seq<int>
    const baseVmRam: seq<int>
    const actualVmCores: array<int>
    const actualVmRam: array<int>

    var hosts: seq<HostSpec>
    var vmList: seq<VmSpec>
    var cloudletList: seq<Cloudlet>
    var workloadTypes: map<int, string>

    /**
     * Five VM roles with the fixed base sizes; the adjusted sizes live in
     * two separate arrays and always give every role at least one core and
     * 1024 MB.
     */
    ghost predicate Valid()
      reads actualVmCores, actualVmRam
    {
      && baseVmCores == BaseVmCores && baseVmRam == BaseVmRam
      && actualVmCores.Length == VmRoles && actualVmRam.Length == VmRoles
      && actualVmCores != actualVmRam
      && forall i :: 0 <= i < VmRoles ==> actualVmCores[i] >= 1 && actualVmRam[i] >= 1024
    }

    /** The adjusted sizes are still the base sizes. */
    ghost predicate AtBase()
      reads actualVmCores, actualVmRam
    {
      actualVmCores[..] == BaseVmCores && actualVmRam[..] == BaseVmRam
    }

    /** The adjusted sizes are the base sizes scaled by the factors `f`. */
    ghost predicate SizedFor(f: ScaleFactors)
      reads actualVmCores, actualVmRam
    {
      && actualVmCores.Length == VmRoles && actualVmRam.Length == VmRoles
      && forall i :: 0 <= i < VmRoles ==>
           actualVmCores[i] == AdjustedCores(BaseVmCores[i], f.cpu)
           && actualVmRam[i] == AdjustedRam(BaseVmRam[i], f.response, f.load)
    }

    /** One VM per role, built from the role's current sizes. */
    ghost predicate VmsBuilt()
      reads this`vmList, this`realTimeMetrics, actualVmCores, actualVmRam
    {
      |vmList| == VmRoles && actualVmCores.Length == VmRoles && actualVmRam.Length == VmRoles
      && forall i :: 0 <= i < VmRoles ==>
           vmList[i] == PlannedVm(i, useRealData, realTimeMetrics, actualVmCores[i], actualVmRam[i])
    }

    /**
     * Configures the integration and builds everything the simulator is
     * given. With monitoring on, one collection round (the first tick of
     * the monitor, which runs before the sizing) fills the table from the
     * first existing metrics file, or from the draws when there is none.
     */
    constructor (enableRealTimeMonitoring: bool, customMetricsPath: Option<string>,
                 files: map<string, Option<string>>, parse: string -> Option<real>, draws: seq<real>)
      requires ValidDraws(draws)
      ensures Valid()
      ensures useRealData == enableRealTimeMonitoring
      ensures metricsFilePath == if customMetricsPath.Some? && customMetricsPath.value != []
                                 then customMetricsPath.value else DefaultMetricsPath
      ensures !enableRealTimeMonitoring ==>
                realTimeMetrics == map[] && projectName == DefaultProjectName && pageMetrics == None && AtBase()
      ensures var doc := MetricsDocument(metricsFilePath, files);
              enableRealTimeMonitoring && doc.Some? ==>
                && realTimeMetrics == ParsedMetrics(map[], doc.value, parse)
                && projectName == ProjectNameAfter(DefaultProjectName, doc.value)
                && pageMetrics == PagesAfter(None, doc.value, parse)
                && SizedFor(AdjustmentFactors(realTimeMetrics))
      ensures var doc := MetricsDocument(metricsFilePath, files);
              enableRealTimeMonitoring && doc.None? ==>
                && realTimeMetrics == SimulatedMetrics(map[], draws)
                && projectName == DefaultProjectName
                && pageMetrics == Some(SimulatedPages(draws))
                && AtBase()
      ensures hosts == PlannedHosts(DatacenterScale(useRealData, realTimeMetrics))
      ensures VmsBuilt()
      ensures var req := RequestMultiplier(useRealData, realTimeMetrics);
              && cloudletList == Generated(PageWorkloads(req), ApiWorkloads(req), ResponseMultiplier(useRealData, realTimeMetrics))
              && workloadTypes == TypeMap(PageWorkloads(req), ApiWorkloads(req), projectName)
    {
      useRealData := enableRealTimeMonitoring;
      if customMetricsPath.Some? && customMetricsPath.value != [] {
        metricsFilePath := customMetricsPath.value;
      } else {
        metricsFilePath := DefaultMetricsPath;
      }
      projectName := DefaultProjectName;
      realTimeMetrics := map[];
      pageMetrics := None;
      workloadTypes := map[];
      hosts := [];
      vmList := [];
      cloudletList := [];
      baseVmCores := BaseVmCores;
      baseVmRam := BaseVmRam;
      var coresCopy := Clone(BaseVmCores);
      var ramCopy := Clone(BaseVmRam);
      actualVmCores := coresCopy;
      actualVmRam := ramCopy;
      new;
      BuildInfrastructure(files, parse, draws);
    }

    /**
     * The second half of the constructor: one collection round when
     * monitoring is on, then the hosts, the VMs and the cloudlets, each
     * built from the table as it stands after that round.
     */
    method BuildInfrastructure(files: map<string, Option<string>>, parse: string -> Option<real>, draws: seq<real>)
      requires Valid() && ValidDraws(draws) && AtBase()
      requires realTimeMetrics == map[] && projectName == DefaultProjectName && pageMetrics == None
      requires workloadTypes == map[]
      modifies this`realTimeMetrics, this`projectName, this`pageMetrics, actualVmCores, actualVmRam
      modifies this`hosts, this`vmList, this`cloudletList, this`workloadTypes
      ensures Valid()
      ensures !useRealData ==>
                realTimeMetrics == map[] && projectName == DefaultProjectName && pageMetrics == None && AtBase()
      ensures var doc := MetricsDocument(metricsFilePath, files);
              useRealData && doc.Some? ==>
                && realTimeMetrics == ParsedMetrics(map[], doc.value, parse)
                && projectName == ProjectNameAfter(DefaultProjectName, doc.value)
                && pageMetrics == PagesAfter(None, doc.value, parse)
                && SizedFor(AdjustmentFactors(realTimeMetrics))
      ensures var doc := MetricsDocument(metricsFilePath, files);
              useRealData && doc.None? ==>
                && realTimeMetrics == SimulatedMetrics(map[], draws)
                && projectName == DefaultProjectName
                && pageMetrics == Some(SimulatedPages(draws))
                && AtBase()
      ensures hosts == PlannedHosts(DatacenterScale(useRealData, realTimeMetrics))
      ensures VmsBuilt()
      ensures var req := RequestMultiplier(useRealData, realTimeMetrics);
              && cloudletList == Generated(PageWorkloads(req), ApiWorkloads(req), ResponseMultiplier(useRealData, realTimeMetrics))
              && workloadTypes == TypeMap(PageWorkloads(req), ApiWorkloads(req), projectName)
    {
      if useRealData {
        CollectRealTimeMetrics(files, parse, draws);
      }
      CreateDatacenter();
      CreateVms();
      CreateCloudlets();
      UnionWithEmpty(TypeMap(PageWorkloads(RequestMultiplier(useRealData, realTimeMetrics)),
                             ApiWorkloads(RequestMultiplier(useRealData, realTimeMetrics)), projectName));
    }

    /**
     * `adjustInfrastructureBasedOnRealMetrics`: resizes every role from the
     * factors of the current table.
     */
    method AdjustInfrastructureBasedOnRealMetrics()
      requires Valid()
      modifies actualVmCores, actualVmRam
      ensures Valid()
      ensures SizedFor(AdjustmentFactors(realTimeMetrics))
    {
      var cpuUsage := GetOrDefault(realTimeMetrics, CpuUsage, 30.0);
      var responseTime := GetOrDefault(realTimeMetrics, ResponseTime, 100.0);
      var requestCount := GetOrDefault(realTimeMetrics, RequestCount, 50.0);
      var cpuScaleFactor := CpuScaleFactor(cpuUsage);
      var responseScaleFactor := ResponseScaleFactor(responseTime);
      var loadScaleFactor := LoadScaleFactor(requestCount);
      for i := 0 to actualVmCores.Length
        invariant forall j :: 0 <= j < i ==>
                    actualVmCores[j] == AdjustedCores(BaseVmCores[j], cpuScaleFactor)
                    && actualVmRam[j] == AdjustedRam(BaseVmRam[j], responseScaleFactor, loadScaleFactor)
      {
        var cores := AdjustedCores(baseVmCores[i], cpuScaleFactor);
        var ram := AdjustedRam(baseVmRam[i], responseScaleFactor, loadScaleFactor);
        actualVmCores[i] := cores;
        actualVmRam[i] := ram;
      }
    }

    /**
     * `parseExistingAppMetrics`: stores the seven numeric fields, takes a
     * non-empty project name, stores a `pages` object when there is one,
     * then resizes the VMs.
     */
    method ParseExistingAppMetrics(json: string, parse: string -> Option<real>)
      requires Valid()
      modifies this`realTimeMetrics, this`projectName, this`pageMetrics, actualVmCores, actualVmRam
      ensures Valid()
      ensures realTimeMetrics == ParsedMetrics(old(realTimeMetrics), json, parse)
      ensures projectName == ProjectNameAfter(old(projectName), json)
      ensures pageMetrics == PagesAfter(old(pageMetrics), json, parse)
      ensures SizedFor(AdjustmentFactors(realTimeMetrics))
    {
      StoreMetricFields(json, parse);
      StoreProjectName(json);
      StorePageMetrics(json, parse);
      AdjustInfrastructureBasedOnRealMetrics();
    }

    /** The seven numeric stores of `parseExistingAppMetrics`. */
    method StoreMetricFields(json: string, parse: string -> Option<real>)
      modifies this`realTimeMetrics
      ensures realTimeMetrics == ParsedMetrics(old(realTimeMetrics), json, parse)
    {
      var metrics := realTimeMetrics;
      metrics := metrics["responseTime" := ExtractJsonValue(json, "responseTime", parse)];
      metrics := metrics["cpuUsage" := ExtractJsonValue(json, "cpuUsage", parse)];
      metrics := metrics["memoryUsage" := ExtractJsonValue(json, "memoryUsage", parse)];
      metrics := metrics["requestCount" := ExtractJsonValue(json, "requestCount", parse)];
      metrics := metrics["errorCount" := ExtractJsonValue(json, "errorCount", parse)];
      metrics := metrics["successCount" := ExtractJsonValue(json, "successCount", parse)];
      metrics := metrics["activeConnections" := ExtractJsonValue(json, "activeConnections", parse)];
      realTimeMetrics := metrics;
    }

    /** The project-name store of `parseExistingAppMetrics`: only a non-empty name replaces the current one. */
    method StoreProjectName(json: string)
      modifies this`projectName
      ensures projectName == ProjectNameAfter(old(projectName), json)
    {
      var extractedProjectName := ExtractJsonString(json, "projectName");
      if extractedProjectName.Some? && extractedProjectName.value != [] {
        projectName := extractedProjectName.value;
      }
    }

    /** The `pages` store of `parseExistingAppMetrics`: only a document with a `pages` object replaces it. */
    method StorePageMetrics(json: string, parse: string -> Option<real>)
      modifies this`pageMetrics
      ensures pageMetrics == PagesAfter(old(pageMetrics), json, parse)
    {
      var pages := ExtractJsonObject(json, "pages", parse);
      if pages.Some? {
        pageMetrics := pages;
      }
    }

    /**
     * `generateSimulatedMetrics`: six readings and the three page counts
     * from the draws; `successCount` is left as it was and the VM sizes are
     * not touched.
     */
    method GenerateSimulatedMetrics(draws: seq<real>)
      requires ValidDraws(draws)
      modifies this`realTimeMetrics, this`pageMetrics
      ensures realTimeMetrics == SimulatedMetrics(old(realTimeMetrics), draws)
      ensures pageMetrics == Some(SimulatedPages(draws))
    {
      realTimeMetrics := realTimeMetrics["responseTime" := 80.0 + draws[0] * 120.0];
      realTimeMetrics := realTimeMetrics["cpuUsage" := 25.0 + draws[1] * 35.0];
      realTimeMetrics := realTimeMetrics["memoryUsage" := 40.0 + draws[2] * 40.0];
      realTimeMetrics := realTimeMetrics["requestCount" := draws[3] * 200.0];
      realTimeMetrics := realTimeMetrics["errorCount" := draws[4] * 10.0];
      realTimeMetrics := realTimeMetrics["activeConnections" := draws[5] * 20.0];
      var pages := map[];
      pages := pages["home" := draws[6] * 50.0];
      pages := pages["api" := draws[7] * 100.0];
      pages := pages["other" := draws[8] * 30.0];
      pageMetrics := Some(pages);
    }

    /**
     * `collectRealTimeMetrics`: parses the configured file when it exists,
     * else the first existing fallback; simulates when none exists or the
     * file found cannot be read.
     */
    method CollectRealTimeMetrics(files: map<string, Option<string>>, parse: string -> Option<real>, draws: seq<real>)
      requires Valid() && ValidDraws(draws)
      modifies this`realTimeMetrics, this`projectName, this`pageMetrics, actualVmCores, actualVmRam
      ensures Valid()
      ensures var doc := MetricsDocument(metricsFilePath, files);
              doc.Some? ==>
                && realTimeMetrics == ParsedMetrics(old(realTimeMetrics), doc.value, parse)
                && projectName == ProjectNameAfter(old(projectName), doc.value)
                && pageMetrics == PagesAfter(old(pageMetrics), doc.value, parse)
                && SizedFor(AdjustmentFactors(realTimeMetrics))
      ensures var doc := MetricsDocument(metricsFilePath, files);
              doc.None? ==>
                && realTimeMetrics == SimulatedMetrics(old(realTimeMetrics), draws)
                && projectName == old(projectName)
                && pageMetrics == Some(SimulatedPages(draws))
                && unchanged(actualVmCores) && unchanged(actualVmRam)
    {
      if metricsFilePath in files {
        var metricsJson := files[metricsFilePath];
        if metricsJson.Some? {
          ParseExistingAppMetrics(metricsJson.value, parse);
        } else {
          GenerateSimulatedMetrics(draws);
        }
      } else {
        var alternativePaths := AlternativePaths(metricsFilePath);
        var found := false;
        var i := 0;
        while i < |alternativePaths|
          invariant 0 <= i <= |alternativePaths|
          invariant forall j :: 0 <= j < i ==> alternativePaths[j] !in files
        {
          if alternativePaths[i] in files {
            var metricsJson := files[alternativePaths[i]];
            assert FirstExisting(alternativePaths, files) == Some(i);
            if metricsJson.Some? {
              ParseExistingAppMetrics(metricsJson.value, parse);
            } else {
              GenerateSimulatedMetrics(draws);
            }
            found := true;
            break;
          }
          i := i + 1;
        }
        if !found {
          GenerateSimulatedMetrics(draws);
        }
      }
    }

    /**
     * `createDatacenter`: the host scale from the CPU reading (with real
     * data), then the application, API and CDN hosts.
     */
    method CreateDatacenter()
      modifies this`hosts
      ensures hosts == PlannedHosts(DatacenterScale(useRealData, realTimeMetrics))
    {
      var scaleFactor := 1.0;
      if useRealData && CpuUsage in realTimeMetrics {
        scaleFactor := Max(0.7, realTimeMetrics[CpuUsage] / 35.0);
      }
      assert scaleFactor == DatacenterScale(useRealData, realTimeMetrics);
      var host1Cores := ToInt(Max(16.0, 32.0 * scaleFactor));
      assert host1Cores == Host1Cores(scaleFactor);
      var peList1 := CreatePeList(host1Cores, 2800);
      var host2Cores := ToInt(Max(12.0, 20.0 * scaleFactor));
      assert host2Cores == Host2Cores(scaleFactor);
      var peList2 := CreatePeList(host2Cores, 2500);
      var peList3 := CreatePeList(8, 2000);
      hosts := [HostSpec(peList1, 65536, 25000, 500000),
                HostSpec(peList2, 32768, 20000, 300000),
                HostSpec(peList3, 16384, 50000, 1000000)];
    }

    /** `createVMs`: one VM per role, rated by CPU usage when real data is on. */
    method CreateVms()
      requires Valid()
      modifies this`vmList
      ensures Valid() && VmsBuilt()
    {
      vmList := [];
      for i := 0 to VmRoles
        invariant |vmList| == i
        invariant forall j :: 0 <= j < i ==>
                    vmList[j] == PlannedVm(j, useRealData, realTimeMetrics, actualVmCores[j], actualVmRam[j])
      {
        var baseMips := BaseMips(i);
        if useRealData {
          var cpuMultiplier := GetOrDefault(realTimeMetrics, CpuUsage, 40.0) / 40.0;
          baseMips := ScaledMips(i, Clamp(0.5, 2.2, cpuMultiplier));
        }
        vmList := vmList + [VmSpec(baseMips, actualVmCores[i], actualVmRam[i], VmBw(i), VmSize(i))];
      }
    }

    /**
     * `createCloudlets`: the page-rendering and API batches sized and
     * lengthened by the two multipliers, then the fixed static, image and
     * build batches, ids running from 0 and each id's label recorded.
     */
    method CreateCloudlets()
      modifies this`cloudletList, this`workloadTypes
      ensures var req := RequestMultiplier(useRealData, realTimeMetrics);
              var pages := PageWorkloads(req);
              var apis := ApiWorkloads(req);
              && cloudletList == Generated(pages, apis, ResponseMultiplier(useRealData, realTimeMetrics))
              && workloadTypes == old(workloadTypes) + TypeMap(pages, apis, projectName)
    {
      cloudletList := [];
      var cloudletId := 0;
      var responseMultiplier := ResponseMultiplier(useRealData, realTimeMetrics);
      var requestMultiplier := RequestMultiplier(useRealData, realTimeMetrics);
      var pageWorkloads := PageWorkloads(requestMultiplier);
      var apiWorkloads := ApiWorkloads(requestMultiplier);
      ghost var w0 := workloadTypes;
      GenerateStart(w0, pageWorkloads, apiWorkloads, responseMultiplier, projectName);

      cloudletId := AddBatch(PageRendering, pageWorkloads, cloudletId, responseMultiplier, pageWorkloads, apiWorkloads, w0);
      cloudletId := AddBatch(ApiProcessing, apiWorkloads, cloudletId, responseMultiplier, pageWorkloads, apiWorkloads, w0);
      cloudletId := AddBatch(StaticAssets, 4, cloudletId, responseMultiplier, pageWorkloads, apiWorkloads, w0);
      cloudletId := AddBatch(ImageProcessing, 3, cloudletId, responseMultiplier, pageWorkloads, apiWorkloads, w0);
      cloudletId := AddBatch(BuildDeploy, 2, cloudletId, responseMultiplier, pageWorkloads, apiWorkloads, w0);
      GenerateDone(cloudletList, workloadTypes, w0, cloudletId, pageWorkloads, apiWorkloads, responseMultiplier, projectName);
    }

    /**
     * One of the five loops of `createCloudlets`: `count` cloudlets of class
     * `k`, the `i`-th with that class's length, cores and file sizes, under
     * ids counted on from `cloudletId`, each id's label recorded. Returns
     * the next free id.
     */
    method AddBatch(k: WorkloadClass, count: int, cloudletId: int, responseMultiplier: real,
                    ghost pages: nat, ghost apis: nat, ghost w0: map<int, string>) returns (nextId: int)
      requires count == Count(k, pages, apis) && cloudletId == Start(k, pages, apis)
      requires GeneratedSoFar(cloudletList, workloadTypes, w0, cloudletId, pages, apis, responseMultiplier, projectName)
      modifies this`cloudletList, this`workloadTypes
      ensures nextId == cloudletId + count
      ensures GeneratedSoFar(cloudletList, workloadTypes, w0, nextId, pages, apis, responseMultiplier, projectName)
    {
      nextId := cloudletId;
      for i := 0 to count
        invariant nextId == cloudletId + i
        invariant GeneratedSoFar(cloudletList, workloadTypes, w0, nextId, pages, apis, responseMultiplier, projectName)
      {
        var cloudlet := Make(k, nextId, i, responseMultiplier);
        GenerateStep(k, i, cloudlet, Label(k, projectName), cloudletList, workloadTypes, w0,
                     nextId, pages, apis, responseMultiplier, projectName);
        cloudletList := cloudletList + [cloudlet];
        workloadTypes := workloadTypes[nextId := Label(k, projectName)];
        nextId := nextId + 1;
      }
    }

    /**
     * `displayPerformanceAnalysis`: one pass over the finished list counts
     * the successes and sums the execution times, overall and per type;
     * the averages are then each type's total over its count.
     */
    method DisplayPerformanceAnalysis(cloudlets: seq<FinishedCloudlet>) returns (report: PerformanceReport)
      ensures report == Performance(cloudlets, workloadTypes)
    {
      var w := workloadTypes;
      var workloadTimes: map<Option<string>, real> := map[];
      var workloadCounts: map<Option<string>, int> := map[];
      var successful := 0;
      var totalTime := 0.0;
      for i := 0 to |cloudlets|
        invariant successful == Successful(cloudlets[..i]) && totalTime == TotalTime(cloudlets[..i])
        invariant workloadTimes == TimesByType(cloudlets[..i], w)
        invariant workloadCounts == CountsByType(cloudlets[..i], w)
      {
        var cloudlet := cloudlets[i];
        PrefixStep(cloudlets, i);
        if cloudlet.finished {
          successful := successful + 1;
          var workloadType := TypeOf(w, cloudlet.id);
          var execTime := cloudlet.execTime;
          totalTime := totalTime + execTime;
          workloadTimes := workloadTimes[workloadType :=
            (if workloadType in workloadTimes then workloadTimes[workloadType] else 0.0) + execTime];
          workloadCounts := workloadCounts[workloadType :=
            (if workloadType in workloadCounts then workloadCounts[workloadType] else 0) + 1];
        }
      }
      assert cloudlets[..|cloudlets|] == cloudlets;
      var averages := AverageTimes(cloudlets, workloadTimes, workloadCounts);
      var rate := if |cloudlets| == 0 then None else Some(successful as real * 100.0 / |cloudlets| as real);
      report := PerformanceReport(successful, |cloudlets|, rate, totalTime, averages);
    }

    /** Each type's accumulated time divided by its count, one map entry at a time. */
    method AverageTimes(cloudlets: seq<FinishedCloudlet>, times: map<Option<string>, real>, counts: map<Option<string>, int>)
      returns (averages: map<Option<string>, real>)
      requires times == TimesByType(cloudlets, workloadTypes) && counts == CountsByType(cloudlets, workloadTypes)
      ensures averages == Averages(cloudlets, workloadTypes)
    {
      ByTypeIsPerType(cloudlets, workloadTypes);
      averages := map[];
      var remaining := times.Keys;
      while remaining != {}
        invariant remaining <= times.Keys
        invariant averages.Keys == times.Keys - remaining
        invariant forall t :: t in averages ==> averages[t] == times[t] / counts[t] as real
        decreases remaining
      {
        var t :| t in remaining;
        averages := averages[t := times[t] / counts[t] as real];
        remaining := remaining - {t};
      }
    }

    /**
     * `displayCostAnalysis`: one pass sums each finished cloudlet's cost,
     * overall and per type; the report adds the monthly estimate, the cost
     * per request and each type's share of the total.
     */
    method DisplayCostAnalysis(cloudlets: seq<FinishedCloudlet>) returns (report: CostReport)
      ensures report == Costs(cloudlets, workloadTypes, realTimeMetrics)
    {
      var w := workloadTypes;
      var totalCost := 0.0;
      var costByWorkload: map<Option<string>, real> := map[];
      for i := 0 to |cloudlets|
        invariant totalCost == TotalCost(cloudlets[..i])
        invariant costByWorkload == CostsByType(cloudlets[..i], w)
      {
        var cloudlet := cloudlets[i];
        PrefixStep(cloudlets, i);
        if cloudlet.finished {
          var cost := Cost(cloudlet.execTime);
          totalCost := totalCost + cost;
          var workloadType := TypeOf(w, cloudlet.id);
          costByWorkload := costByWorkload[workloadType :=
            (if workloadType in costByWorkload then costByWorkload[workloadType] else 0.0) + cost];
        }
      }
      assert cloudlets[..|cloudlets|] == cloudlets;
      var perRequest := CostPerRequest(totalCost, GetOrDefault(realTimeMetrics, RequestCount, 1.0));
      report := CostReport(totalCost, MonthlyCost(totalCost), perRequest, costByWorkload, Shares(costByWorkload, totalCost));
    }

    /**
     * `displayRealVsSimulatedComparison`: nothing without real data;
     * otherwise the mean finished time in milliseconds, set against the
     * measured response time.
     */
    method DisplayRealVsSimulatedComparison(cloudlets: seq<FinishedCloudlet>) returns (report: Option<ComparisonReport>)
      ensures report == Comparison(cloudlets, useRealData, realTimeMetrics)
    {
      if !useRealData {
        return None;
      }
      var realResponseTime := GetOrDefault(realTimeMetrics, ResponseTime, 0.0);
      var realCpuUsage := GetOrDefault(realTimeMetrics, CpuUsage, 0.0);
      var simulatedAvgTime := 0.0;
      var count := 0;
      for i := 0 to |cloudlets|
        invariant simulatedAvgTime == TotalMillis(cloudlets[..i]) && count == Successful(cloudlets[..i])
      {
        PrefixStep(cloudlets, i);
        if cloudlets[i].finished {
          simulatedAvgTime := simulatedAvgTime + cloudlets[i].execTime * 1000.0;
          count := count + 1;
        }
      }
      assert cloudlets[..|cloudlets|] == cloudlets;
      if count > 0 {
        simulatedAvgTime := simulatedAvgTime / count as real;
      } else {
        NothingFinishedNoTime(cloudlets);
      }
      report := Some(ComparisonReport(realResponseTime, simulatedAvgTime, Accuracy(realResponseTime, simulatedAvgTime),
                                      realCpuUsage, GetOrDefault(realTimeMetrics, RequestCount, 0.0)));
    }

    /**
     * `displayOptimizationRecommendations`: the per-type averages, the
     * per-type rules over them, then the infrastructure rules with real
     * data. Meeting a null type stops the report (the Java call on it
     * throws), which the result None stands for.
     */
    method DisplayOptimizationRecommendations(cloudlets: seq<FinishedCloudlet>) returns (report: Option<Recommendations>)
      ensures report == Recommend(cloudlets, workloadTypes, useRealData, realTimeMetrics)
    {
      var w := workloadTypes;
      var avgTimes: map<Option<string>, real> := map[];
      var counts: map<Option<string>, int> := map[];
      for i := 0 to |cloudlets|
        invariant avgTimes == TimesByType(cloudlets[..i], w) && counts == CountsByType(cloudlets[..i], w)
      {
        var cloudlet := cloudlets[i];
        PrefixStep(cloudlets, i);
        if cloudlet.finished {
          var workloadType := TypeOf(w, cloudlet.id);
          avgTimes := avgTimes[workloadType := (if workloadType in avgTimes then avgTimes[workloadType] else 0.0) + cloudlet.execTime];
          counts := counts[workloadType := (if workloadType in counts then counts[workloadType] else 0) + 1];
        }
      }
      assert cloudlets[..|cloudlets|] == cloudlets;
      var averages := AverageTimes(cloudlets, avgTimes, counts);
      var advice := ApplyWorkloadRules(averages);
      if advice == None {
        return None;
      }
      var infrastructure := None;
      if useRealData {
        var cpuUsage := GetOrDefault(realTimeMetrics, CpuUsage, 0.0);
        var responseTime := GetOrDefault(realTimeMetrics, ResponseTime, 0.0);
        infrastructure := Some(InfrastructureAdvice(AdviseCpu(cpuUsage), AdviseResponse(responseTime)));
      }
      report := Some(Recommendations(advice.value, infrastructure));
    }

    /** The per-type rules, one average at a time, stopping at a null type. */
    method ApplyWorkloadRules(averages: map<Option<string>, real>) returns (advice: Option<map<string, WorkloadAdvice>>)
      ensures advice == WorkloadAdvices(averages)
    {
      var found: map<string, WorkloadAdvice> := map[];
      var remaining := averages.Keys;
      while remaining != {}
        invariant remaining <= averages.Keys && None !in averages.Keys - remaining
        invariant found == RulesOn(averages, averages.Keys - remaining)
        decreases remaining
      {
        var t :| t in remaining;
        if t == None {
          return None;
        }
        var rule := AdviseWorkload(t.value, averages[t]);
        RulesOnStep(averages, averages.Keys - remaining, t);
        if rule.Some? {
          found := found[t.value := rule.value];
        }
        assert averages.Keys - (remaining - {t}) == (averages.Keys - remaining) + {t};
        remaining := remaining - {t};
      }
      assert averages.Keys - remaining == averages.Keys;
      advice := Some(found);
    }

    /**
     * `displayResults`: the four reports over the broker's finished list,
     * in the order they are shown.
     */
    method DisplayResults(finishedCloudlets: seq<FinishedCloudlet>)
      returns (performance: PerformanceReport, costs: CostReport,
               comparison: Option<ComparisonReport>, recommendations: Option<Recommendations>)
      ensures performance == Performance(finishedCloudlets, workloadTypes)
      ensures costs == Costs(finishedCloudlets, workloadTypes, realTimeMetrics)
      ensures comparison == Comparison(finishedCloudlets, useRealData, realTimeMetrics)
      ensures recommendations == Recommend(finishedCloudlets, workloadTypes, useRealData, realTimeMetrics)
    {
      performance := DisplayPerformanceAnalysis(finishedCloudlets);
      costs := DisplayCostAnalysis(finishedCloudlets);
      comparison := DisplayRealVsSimulatedComparison(finishedCloudlets);
      recommendations := DisplayOptimizationRecommendations(finishedCloudlets);
    }
  }
}
