/**
 * How the integration fills its metrics table: by parsing the metrics file
 * the running Next.js application writes, or, when no readable file is
 * found, by drawing simulated readings. The file is looked for at the
 * configured path and then at four fallback locations; the file system is
 * a map from path to contents (None for a file that exists but cannot be
 * read), and `Math.random` is a sequence of draws in [0, 1).
 */
module Telemetry {
  import opened Wrappers
  import opened JavaNumeric
  import opened JsonExtract
  import opened Scaling
  import opened Text

  /** The seven numeric fields a parse writes. */
  const ParsedKeys: set<string> :=
    {"responseTime", "cpuUsage", "memoryUsage", "requestCount", "errorCount", "successCount", "activeConnections"}

  /**
   * The table after storing the seven fields one after another, field `k`
   * taking the value `v(k)`: exactly those keys are added or replaced and
   * every other entry is kept.
   */
  function StoreFields(metrics: map<string, real>, v: string -> real): (r: map<string, real>)
    ensures r.Keys == metrics.Keys + ParsedKeys
    ensures forall k :: k in ParsedKeys ==> r[k] == v(k)
    ensures forall k :: k in metrics && k !in ParsedKeys ==> r[k] == metrics[k]
  {
    metrics["responseTime" := v("responseTime")]["cpuUsage" := v("cpuUsage")]["memoryUsage" := v("memoryUsage")]
           ["requestCount" := v("requestCount")]["errorCount" := v("errorCount")]["successCount" := v("successCount")]
           ["activeConnections" := v("activeConnections")]
  }

  /**
   * The metrics table after a parse: each of the seven fields takes the
   * value `extractJsonValue` reads (0.0 when missing or unparsable); every
   * other entry is kept.
   */
  function ParsedMetrics(metrics: map<string, real>, json: string, parse: string -> Option<real>): (r: map<string, real>)
    ensures r.Keys == metrics.Keys + ParsedKeys
    ensures forall k :: k in ParsedKeys ==> r[k] == ExtractJsonValue(json, k, parse)
    ensures forall k :: k in metrics && k !in ParsedKeys ==> r[k] == metrics[k]
  {
    StoreFields(metrics, k => ExtractJsonValue(json, k, parse))
  }

  /** The project name after a parse: the document's non-empty `projectName`, else the old name. */
  function ProjectNameAfter(current: string, json: string): (r: string)
    ensures r == current || (Some(r) == ExtractJsonString(json, "projectName") && r != [])
    ensures ExtractJsonString(json, "projectName") == None ==> r == current
    ensures ExtractJsonString(json, "projectName") == Some([]) ==> r == current
    ensures forall n :: ExtractJsonString(json, "projectName") == Some(n) && n != [] ==> r == n
  {
    match ExtractJsonString(json, "projectName")
    case Some(name) => if name != [] then name else current
    case None => current
  }

  /** The page metrics after a parse: replaced when the document has a `pages` object, else kept. */
  function PagesAfter(current: Option<map<string, real>>, json: string, parse: string -> Option<real>): (r: Option<map<string, real>>)
    ensures Contains(json, ObjectKey("pages")) ==> r == ExtractJsonObject(json, "pages", parse)
    ensures Contains(json, ObjectKey("pages")) ==> r != None && r.value.Keys == PageKeys
    ensures !Contains(json, ObjectKey("pages")) ==> r == current
  {
    var pages := ExtractJsonObject(json, "pages", parse);
    if pages != None then pages else current
  }

  /**
   * After a parse every field the sizing policy reads is present, so its
   * fallbacks (30 %, 100 ms, 50 requests) never apply: a document without
   * `cpuUsage` sizes the VMs as for 0 % CPU, at the lowest factor 0.5, and
   * with real data on puts the hosts at the lowest scale 0.7.
   */
  lemma ParsedFieldsOverrideDefaults(metrics: map<string, real>, json: string, parse: string -> Option<real>)
    ensures var m := ParsedMetrics(metrics, json, parse);
            && CpuUsage in m && ResponseTime in m && RequestCount in m
            && AdjustmentFactors(m).cpu == CpuScaleFactor(ExtractJsonValue(json, CpuUsage, parse))
    ensures !Contains(json, ValueKey(CpuUsage)) ==>
              var m := ParsedMetrics(metrics, json, parse);
              AdjustmentFactors(m).cpu == 0.5 && DatacenterScale(true, m) == 0.7
  {
    assert CpuUsage in ParsedKeys && ResponseTime in ParsedKeys && RequestCount in ParsedKeys;
  }

  /** Draws of `Math.random`: nine values in [0, 1). */
  predicate ValidDraws(draws: seq<real>) {
    |draws| == 9 && forall i :: 0 <= i < 9 ==> 0.0 <= draws[i] < 1.0
  }

  /**
   * The metrics table after a simulated reading: response time, CPU,
   * memory, requests, errors and connections from the first six draws;
   * `successCount` and every other entry are kept.
   */
  function SimulatedMetrics(metrics: map<string, real>, draws: seq<real>): (r: map<string, real>)
    requires ValidDraws(draws)
    ensures r.Keys == metrics.Keys + {"responseTime", "cpuUsage", "memoryUsage", "requestCount", "errorCount", "activeConnections"}
    ensures "successCount" in metrics ==> r["successCount"] == metrics["successCount"]
  {
    metrics["responseTime" := 80.0 + draws[0] * 120.0]
           ["cpuUsage" := 25.0 + draws[1] * 35.0]
           ["memoryUsage" := 40.0 + draws[2] * 40.0]
           ["requestCount" := draws[3] * 200.0]
           ["errorCount" := draws[4] * 10.0]
           ["activeConnections" := draws[5] * 20.0]
  }

  /** The simulated page views from the last three draws. */
  function SimulatedPages(draws: seq<real>): (r: map<string, real>)
    requires ValidDraws(draws)
    ensures r.Keys == PageKeys
  {
    map["home" := draws[6] * 50.0, "api" := draws[7] * 100.0, "other" := draws[8] * 30.0]
  }

  /**
   * Simulated readings stay in their documented ranges (80-200 ms, 25-60 %,
   * 40-80 MB, under 200 requests, 10 errors and 20 connections, page views
   * under 50, 100 and 30), so the VM factors they produce stay inside
   * narrower bands: CPU in [0.625, 1.5), response in [0.8, 2.0).
   */
  lemma SimulatedRanges(metrics: map<string, real>, draws: seq<real>)
    requires ValidDraws(draws)
    ensures var m := SimulatedMetrics(metrics, draws);
            && 80.0 <= m["responseTime"] < 200.0
            && 25.0 <= m["cpuUsage"] < 60.0
            && 40.0 <= m["memoryUsage"] < 80.0
            && 0.0 <= m["requestCount"] < 200.0
            && 0.0 <= m["errorCount"] < 10.0
            && 0.0 <= m["activeConnections"] < 20.0
    ensures var p := SimulatedPages(draws);
            0.0 <= p["home"] < 50.0 && 0.0 <= p["api"] < 100.0 && 0.0 <= p["other"] < 30.0
    ensures var f := AdjustmentFactors(SimulatedMetrics(metrics, draws));
            0.625 <= f.cpu < 1.5 && 0.8 <= f.response < 2.0
  {
    var m := SimulatedMetrics(metrics, draws);
    assert m[CpuUsage] == 25.0 + draws[1] * 35.0;
    assert m[ResponseTime] == 80.0 + draws[0] * 120.0;
  }

  /** The four fallback locations tried, in order, when the configured path does not exist. */
  function AlternativePaths(path: string): seq<string> {
    ["../" + path, "../../" + path, "./Cloud_project/" + path, "../Cloud_project/" + path]
  }

  /** The first of `paths` that exists, if any. */
  function FirstExisting(paths: seq<string>, files: map<string, Option<string>>): (r: Option<nat>)
    ensures r == None <==> forall i :: 0 <= i < |paths| ==> paths[i] !in files
    ensures r != None ==> r.value < |paths| && paths[r.value] in files
    ensures r != None ==> forall i :: 0 <= i < r.value ==> paths[i] !in files
  {
    if paths == [] then None
    else if paths[0] in files then Some(0)
    else
      match FirstExisting(paths[1..], files)
      case None => None
      case Some(i) => Some(i + 1)
  }

  /**
   * The document a collection round parses, or None when it falls back to
   * simulated readings: the configured file if it exists, else the first
   * existing fallback; a file that cannot be read also means simulation.
   */
  function MetricsDocument(path: string, files: map<string, Option<string>>): Option<string> {
    if path in files then files[path]
    else
      match FirstExisting(AlternativePaths(path), files)
      case None => None
      case Some(i) => files[AlternativePaths(path)[i]]
  }

  /**
   * The configured file wins whenever it exists; a fallback is read only
   * when the configured file and every earlier fallback are missing; with
   * no file anywhere the round simulates.
   */
  lemma MetricsDocumentOrder(path: string, files: map<string, Option<string>>)
    ensures path in files ==> MetricsDocument(path, files) == files[path]
    ensures path !in files && (forall p :: p in AlternativePaths(path) ==> p !in files) ==> MetricsDocument(path, files) == None
    ensures path !in files && "../" + path in files ==> MetricsDocument(path, files) == files["../" + path]
  {
    if path !in files && "../" + path in files {
      assert AlternativePaths(path)[0] == "../" + path;
    }
    if path !in files && (forall p :: p in AlternativePaths(path) ==> p !in files) {
      assert forall i :: 0 <= i < 4 ==> AlternativePaths(path)[i] in AlternativePaths(path);
    }
  }
}
