/**
 * The workload `createCloudlets` generates: five classes of cloudlets laid
 * out one class after another under a running id counter, each class with
 * its own length formula, core count and file sizes, and a map from every
 * id to the label of its class. The page-rendering and API counts and
 * lengths follow the two multipliers of the scaling policy; the static,
 * image and build batches are fixed.
 */
module Workload {
  import opened JavaNumeric

  /** The five workload classes, in the order they are generated. */
  datatype WorkloadClass = PageRendering | ApiProcessing | StaticAssets | ImageProcessing | BuildDeploy

  /** A cloudlet as submitted to the broker: id, length in instructions, cores, input and output size. */
  datatype Cloudlet = Cloudlet(id: int, length: int, cores: int, fileSize: int, outputSize: int)

  /** The label texts `createCloudlets` records (the first two follow the project name). */
  const PageRenderingSuffix: string := " Page Rendering"
  const ApiProcessingSuffix: string := " API Processing"
  const StaticAssetsLabel: string := "Static Assets"
  const ImageProcessingLabel: string := "Image Processing"
  const BuildDeployLabel: string := "Build/Deploy"

  /** The label `workloadTypes` records for a class; the first two carry the project name. */
  function Label(k: WorkloadClass, projectName: string): string {
    match k
    case PageRendering => projectName + PageRenderingSuffix
    case ApiProcessing => projectName + ApiProcessingSuffix
    case StaticAssets => StaticAssetsLabel
    case ImageProcessing => ImageProcessingLabel
    case BuildDeploy => BuildDeployLabel
  }

  /** Whatever the project name, different classes get different labels. */
  lemma LabelsDistinct(projectName: string, k1: WorkloadClass, k2: WorkloadClass)
    requires k1 != k2
    ensures Label(k1, projectName) != Label(k2, projectName)
  {
    var n := |projectName|;
    var l1 := Label(k1, projectName);
    var l2 := Label(k2, projectName);
    if (k1.PageRendering? && k2.ApiProcessing?) || (k1.ApiProcessing? && k2.PageRendering?) {
      assert l1[n + 1] != l2[n + 1];
    } else if (k1.PageRendering? || k1.ApiProcessing?) && k2.ImageProcessing? {
      if |l1| == |l2| {
        assert l1[1] != l2[1];
      }
    } else if k1.ImageProcessing? && (k2.PageRendering? || k2.ApiProcessing?) {
      if |l1| == |l2| {
        assert l1[1] != l2[1];
      }
    } else if k1.PageRendering? || k1.ApiProcessing? || k2.PageRendering? || k2.ApiProcessing? {
      assert |l1| != |l2|;
    } else {
      assert l1[0] != l2[0] || |l1| != |l2|;
    }
  }

  /** How many cloudlets of each class: the two scaled counts, then 4, 3 and 2. */
  function Count(k: WorkloadClass, pages: nat, apis: nat): nat {
    match k
    case PageRendering => pages
    case ApiProcessing => apis
    case StaticAssets => 4
    case ImageProcessing => 3
    case BuildDeploy => 2
  }

  /** The first id of each class: the counts of the classes before it. */
  function Start(k: WorkloadClass, pages: nat, apis: nat): nat {
    match k
    case PageRendering => 0
    case ApiProcessing => pages
    case StaticAssets => pages + apis
    case ImageProcessing => pages + apis + 4
    case BuildDeploy => pages + apis + 7
  }

  /** How many cloudlets in all. */
  function Total(pages: nat, apis: nat): nat {
    pages + apis + 9
  }

  /** The class whose batch holds cloudlet `id`. */
  function ClassAt(id: int, pages: nat, apis: nat): WorkloadClass {
    if id < pages then PageRendering
    else if id < pages + apis then ApiProcessing
    else if id < pages + apis + 4 then StaticAssets
    else if id < pages + apis + 7 then ImageProcessing
    else BuildDeploy
  }

  /** Each class's ids form the block [Start, Start + Count) of [0, Total). */
  lemma ClassAtBlock(id: int, pages: nat, apis: nat, k: WorkloadClass)
    requires 0 <= id < Total(pages, apis)
    ensures ClassAt(id, pages, apis) == k <==>
              Start(k, pages, apis) <= id < Start(k, pages, apis) + Count(k, pages, apis)
  {
  }

  /** The position of a class in generation order. */
  function Rank(k: WorkloadClass): nat {
    match k
    case PageRendering => 0
    case ApiProcessing => 1
    case StaticAssets => 2
    case ImageProcessing => 3
    case BuildDeploy => 4
  }

  /** Ids follow the class order: a later id never belongs to an earlier class. */
  lemma ClassOrder(i: int, j: int, pages: nat, apis: nat)
    requires i <= j
    ensures Rank(ClassAt(i, pages, apis)) <= Rank(ClassAt(j, pages, apis))
  {
  }

  /** A base length stretched by the response multiplier and cast to `int`. */
  function ScaledLength(base: int, responseMultiplier: real): int {
    ToInt(base as real * responseMultiplier)
  }

  /** Cloudlet length of the `i`-th cloudlet of class `k` under the response multiplier. */
  function Length(k: WorkloadClass, i: int, responseMultiplier: real): int {
    match k
    case PageRendering => ScaledLength(9000 + i * 1200, responseMultiplier)
    case ApiProcessing => ScaledLength(4500 + i * 700, responseMultiplier)
    case StaticAssets => 1800 + i * 400
    case ImageProcessing => 16000 + i * 2500
    case BuildDeploy => 32000 + i * 6000
  }

  /** Cores each class's cloudlets ask for. */
  function Cores(k: WorkloadClass): int {
    match k
    case PageRendering => 2
    case ApiProcessing => 1
    case StaticAssets => 1
    case ImageProcessing => 3
    case BuildDeploy => 4
  }

  /** Input file size of each class's cloudlets. */
  function FileSize(k: WorkloadClass): int {
    match k
    case PageRendering => 400
    case ApiProcessing => 600
    case StaticAssets => 200
    case ImageProcessing => 1200
    case BuildDeploy => 800
  }

  /** Output size of each class's cloudlets. */
  function OutputSize(k: WorkloadClass): int {
    match k
    case PageRendering => 350
    case ApiProcessing => 500
    case StaticAssets => 1800
    case ImageProcessing => 900
    case BuildDeploy => 600
  }

  /** The `i`-th cloudlet of class `k`, given id `id`. */
  function Make(k: WorkloadClass, id: int, i: int, responseMultiplier: real): Cloudlet {
    Cloudlet(id, Length(k, i, responseMultiplier), Cores(k), FileSize(k), OutputSize(k))
  }

  /** The cloudlet generated with id `id`. */
  function CloudletAt(id: int, pages: nat, apis: nat, responseMultiplier: real): Cloudlet {
    var k := ClassAt(id, pages, apis);
    Make(k, id, id - Start(k, pages, apis), responseMultiplier)
  }

  /** The first `n` generated cloudlets. */
  function GeneratedUpTo(n: nat, pages: nat, apis: nat, responseMultiplier: real): seq<Cloudlet> {
    seq(n, j => CloudletAt(j, pages, apis, responseMultiplier))
  }

  /** The id-to-label entries recorded for the first `n` cloudlets. */
  function TypesUpTo(n: nat, pages: nat, apis: nat, projectName: string): map<int, string> {
    map j | 0 <= j < n :: Label(ClassAt(j, pages, apis), projectName)
  }

  /** Generating one more cloudlet appends it and records its label. */
  lemma UpToStep(n: nat, pages: nat, apis: nat, responseMultiplier: real, projectName: string)
    ensures GeneratedUpTo(n + 1, pages, apis, responseMultiplier)
              == GeneratedUpTo(n, pages, apis, responseMultiplier) + [CloudletAt(n, pages, apis, responseMultiplier)]
    ensures TypesUpTo(n + 1, pages, apis, projectName)
              == TypesUpTo(n, pages, apis, projectName)[n := Label(ClassAt(n, pages, apis), projectName)]
  {
  }

  /**
   * After `n` steps of generation the list holds the first `n` cloudlets and
   * the type map holds their labels on top of the entries `w0` held before.
   */
  predicate GeneratedSoFar(cs: seq<Cloudlet>, w: map<int, string>, w0: map<int, string>, n: nat,
                           pages: nat, apis: nat, responseMultiplier: real, projectName: string)
  {
    cs == GeneratedUpTo(n, pages, apis, responseMultiplier)
    && w == w0 + TypesUpTo(n, pages, apis, projectName)
  }

  /** Before the first step nothing is generated and the type map is as it was. */
  lemma GenerateStart(w0: map<int, string>, pages: nat, apis: nat, responseMultiplier: real, projectName: string)
    ensures GeneratedSoFar([], w0, w0, 0, pages, apis, responseMultiplier, projectName)
  {
  }

  /** After the last step the list is the whole workload and the type map holds every label. */
  lemma GenerateDone(cs: seq<Cloudlet>, w: map<int, string>, w0: map<int, string>, n: nat,
                     pages: nat, apis: nat, responseMultiplier: real, projectName: string)
    requires GeneratedSoFar(cs, w, w0, n, pages, apis, responseMultiplier, projectName)
    requires n == Total(pages, apis)
    ensures cs == Generated(pages, apis, responseMultiplier)
    ensures w == w0 + TypeMap(pages, apis, projectName)
  {
  }

  /**
   * Generating the `i`-th cloudlet of class `k` while the id counter is at
   * that class's `i`-th id, and recording the class's label under that id,
   * takes the generation one step further.
   */
  lemma GenerateStep(k: WorkloadClass, i: nat, c: Cloudlet, l: string,
                     cs: seq<Cloudlet>, w: map<int, string>, w0: map<int, string>, n: nat,
                     pages: nat, apis: nat, responseMultiplier: real, projectName: string)
    requires GeneratedSoFar(cs, w, w0, n, pages, apis, responseMultiplier, projectName)
    requires n == Start(k, pages, apis) + i && i < Count(k, pages, apis)
    requires c == Make(k, n, i, responseMultiplier) && l == Label(k, projectName)
    ensures GeneratedSoFar(cs + [c], w[n := l], w0, n + 1, pages, apis, responseMultiplier, projectName)
  {
    ClassAtBlock(n, pages, apis, k);
    UpToStep(n, pages, apis, responseMultiplier, projectName);
  }

  /** The whole generated list, in generation order. */
  function Generated(pages: nat, apis: nat, responseMultiplier: real): seq<Cloudlet> {
    GeneratedUpTo(Total(pages, apis), pages, apis, responseMultiplier)
  }

  /** The id-to-label entries the generator records. */
  function TypeMap(pages: nat, apis: nat, projectName: string): map<int, string> {
    TypesUpTo(Total(pages, apis), pages, apis, projectName)
  }

  /**
   * Ids are consecutive from 0, every id is a key of the type map, and its
   * entry names the class whose formula built the cloudlet.
   */
  lemma GeneratedIdsLabelled(pages: nat, apis: nat, responseMultiplier: real, projectName: string)
    ensures var cs := Generated(pages, apis, responseMultiplier);
            var w := TypeMap(pages, apis, projectName);
            && |cs| == Total(pages, apis)
            && (forall j :: 0 <= j < |cs| ==> cs[j].id == j)
            && (forall j :: 0 <= j < |cs| ==> cs[j].id in w)
            && (forall j :: 0 <= j < |cs| ==>
                  w[cs[j].id] == Label(ClassAt(j, pages, apis), projectName)
                  && cs[j].cores == Cores(ClassAt(j, pages, apis)))
            && (forall id :: id in w <==> 0 <= id < |cs|)
  {
  }

  /** How many of the ids below `n` belong to class `k`. */
  function CountBelow(k: WorkloadClass, pages: nat, apis: nat, n: nat): nat {
    if n == 0 then 0
    else CountBelow(k, pages, apis, n - 1) + (if ClassAt(n - 1, pages, apis) == k then 1 else 0)
  }

  /** Below `n`, class `k` holds the part of its block that lies under `n`. */
  lemma {:induction false} CountBelowBlock(k: WorkloadClass, pages: nat, apis: nat, n: nat)
    requires n <= Total(pages, apis)
    ensures var s := Start(k, pages, apis);
            var c := Count(k, pages, apis);
            CountBelow(k, pages, apis, n) == if n <= s then 0 else if n <= s + c then n - s else c
  {
    if n > 0 {
      CountBelowBlock(k, pages, apis, n - 1);
      ClassAtBlock(n - 1, pages, apis, k);
    }
  }

  /**
   * The generated list holds exactly `pages` page-rendering, `apis` API,
   * 4 static, 3 image and 2 build cloudlets.
   */
  lemma ClassCounts(pages: nat, apis: nat, k: WorkloadClass)
    ensures CountBelow(k, pages, apis, Total(pages, apis)) == Count(k, pages, apis)
  {
    CountBelowBlock(k, pages, apis, Total(pages, apis));
  }

  /**
   * With the response multiplier at least 0.3, every cloudlet has a positive
   * length: at least 2700 for page rendering and 1350 for API processing.
   */
  lemma LengthsPositive(k: WorkloadClass, i: nat, responseMultiplier: real)
    requires 0.3 <= responseMultiplier <= 2.8
    ensures Length(k, i, responseMultiplier) >= 1
    ensures k == PageRendering ==> Length(k, i, responseMultiplier) >= 2700
    ensures k == ApiProcessing ==> Length(k, i, responseMultiplier) >= 1350
  {
    match k
    case PageRendering =>
      ScaledLengthAtLeast(9000 + i * 1200, responseMultiplier, 2700);
    case ApiProcessing =>
      ScaledLengthAtLeast(4500 + i * 700, responseMultiplier, 1350);
    case _ =>
  }

  /** A base length of at least `lo / 0.3` scaled by at least 0.3 casts to at least `lo`. */
  lemma ScaledLengthAtLeast(base: int, r: real, lo: int)
    requires 0 <= base && 0.3 <= r
    requires 0 <= lo < IntMax && lo as real <= base as real * 0.3
    ensures ScaledLength(base, r) >= lo
  {
    var b := base as real;
    ScaledBetween(b, 0.3, r, r);
    assert lo as real <= b * r;
    ToIntMonotonic(lo as real, b * r);
    ToIntOfInt(lo);
  }

  /** Without real data (both multipliers 1.0) there are 6 + 8 + 4 + 3 + 2 = 23 cloudlets. */
  lemma DefaultWorkload()
    ensures |Generated(6, 8, 1.0)| == 23
    ensures forall j :: 0 <= j < 6 ==> Generated(6, 8, 1.0)[j].length == 9000 + j * 1200
  {
    forall j | 0 <= j < 6
      ensures Generated(6, 8, 1.0)[j].length == 9000 + j * 1200
    {
      ToIntOfInt(9000 + j * 1200);
    }
  }
}
