/** The dashboard's monthly bar chart: the per-month records become three
    parallel arrays, the page's loading flag and chart data follow the fetch,
    and the chart scripts are added to the document once each, in a fixed
    order, before the chart is built. */
module Graph {
  import opened Common
  import Session

  datatype ApiDataItem = ApiDataItem(month: string, avgProgress: real, projectCount: int)

  datatype ChartData = ChartData(months: seq<string>, avgProgress: seq<real>, projectCounts: seq<int>)

  /** The three `data.map(...)` calls. */
  function ToChartData(data: seq<ApiDataItem>): (c: ChartData)
    ensures |c.months| == |data| && |c.avgProgress| == |data| && |c.projectCounts| == |data|
    ensures forall i :: 0 <= i < |data| ==>
      c.months[i] == data[i].month && c.avgProgress[i] == data[i].avgProgress
      && c.projectCounts[i] == data[i].projectCount
  {
    ChartData(seq(|data|, i requires 0 <= i < |data| => data[i].month),
              seq(|data|, i requires 0 <= i < |data| => data[i].avgProgress),
              seq(|data|, i requires 0 <= i < |data| => data[i].projectCount))
  }

  /** Three arrays of the same length, read back as one record per index. */
  predicate Parallel(c: ChartData) {
    |c.months| == |c.avgProgress| == |c.projectCounts|
  }

  function Zip(c: ChartData): (data: seq<ApiDataItem>)
    requires Parallel(c)
    ensures |data| == |c.months|
  {
    seq(|c.months|, i requires 0 <= i < |c.months| => ApiDataItem(c.months[i], c.avgProgress[i], c.projectCounts[i]))
  }

  /** The transform loses nothing: zipping the arrays gives the records back,
      and every parallel triple of arrays is the transform of its zip. */
  lemma {:induction false} ChartDataRoundTrip(data: seq<ApiDataItem>, c: ChartData)
    ensures Parallel(ToChartData(data)) && Zip(ToChartData(data)) == data
    ensures Parallel(c) ==> ToChartData(Zip(c)) == c
  {
    var t := ToChartData(data);
    assert forall i :: 0 <= i < |data| ==> Zip(t)[i] == data[i];
    if Parallel(c) {
      var back := ToChartData(Zip(c));
      assert back.months == c.months;
      assert back.avgProgress == c.avgProgress;
      assert back.projectCounts == c.projectCounts;
    }
  }

  const AverageProgressSeries := "Average Progress"
  const ProjectCountSeries := "Project Count"
  const ChartSelector := "#hs-multiple-bar-charts"

  datatype Series<T> = Series(name: string, data: seq<T>)

  /** The parts of the options passed to `buildChart` that come from the data. */
  datatype BarChart = BarChart(categories: seq<string>, progress: Series<real>, counts: Series<int>)

  function ChartOptions(c: ChartData): BarChart {
    BarChart(c.months, Series(AverageProgressSeries, c.avgProgress), Series(ProjectCountSeries, c.projectCounts))
  }

  /** Bar group i of the chart is month i of the response with that month's own
      average progress and project count. */
  lemma {:induction false} EachMonthKeepsItsValues(data: seq<ApiDataItem>, i: int)
    requires 0 <= i < |data|
    ensures var chart := ChartOptions(ToChartData(data));
      && |chart.categories| == |chart.progress.data| == |chart.counts.data| == |data|
      && chart.categories[i] == data[i].month
      && chart.progress.data[i] == data[i].avgProgress
      && chart.counts.data[i] == data[i].projectCount
  {
  }

  // ---------------------------------------------------------------------------
  // Loading the chart scripts

  const LodashSrc := "https://cdn.jsdelivr.net/npm/lodash@4.17.21/lodash.min.js"
  const ApexChartsSrc := "https://cdn.jsdelivr.net/npm/apexcharts"
  const HelpersSrc := "https://preline.co/assets/js/hs-apexcharts-helpers.js"

  /** The order `loadChartScriptsAndBuild` awaits them in. */
  const ScriptOrder: seq<string> := [LodashSrc, ApexChartsSrc, HelpersSrc]

  const ScriptsFailedLabel := "Failed to load chart scripts:"
  const ChartDataFailedLabel := "Error fetching chart data:"

  predicate NoDuplicates(s: seq<string>) {
    forall i, j :: 0 <= i < j < |s| ==> s[i] != s[j]
  }

  /** What `loadScript(src)` leaves in the document: nothing new when a script
      with that src is already there, the new script at the end otherwise. */
  function WithScript(scripts: seq<string>, src: string): (r: seq<string>)
    ensures src in r
    ensures src in scripts ==> r == scripts
    ensures src !in scripts ==> r == scripts + [src]
  {
    if src in scripts then scripts else scripts + [src]
  }

  /** Whether `loadScript(src)` resolves: at once when the script is present
      (whether or not it ever loaded), else when the network load succeeds. */
  predicate ScriptResolves(scripts: seq<string>, src: string, failing: set<string>) {
    src in scripts || src !in failing
  }

  /** Awaiting `loadScript` on each src in turn, stopping at the first
      rejection: the resulting scripts, and whether every load resolved. */
  function LoadInOrder(scripts: seq<string>, srcs: seq<string>, failing: set<string>): (r: (seq<string>, bool))
    decreases |srcs|
  {
    if srcs == [] then (scripts, true)
    else if ScriptResolves(scripts, srcs[0], failing) then LoadInOrder(WithScript(scripts, srcs[0]), srcs[1..], failing)
    else (WithScript(scripts, srcs[0]), false)
  }

  /** The document never holds two scripts with the same src, every script
      present before stays, and when all loads resolve every src is present. */
  lemma {:induction false} LoadInOrderKeepsScriptsUnique(scripts: seq<string>, srcs: seq<string>, failing: set<string>)
    requires NoDuplicates(scripts)
    ensures NoDuplicates(LoadInOrder(scripts, srcs, failing).0)
    ensures forall s :: s in scripts ==> s in LoadInOrder(scripts, srcs, failing).0
    ensures LoadInOrder(scripts, srcs, failing).1 ==> forall s :: s in srcs ==> s in LoadInOrder(scripts, srcs, failing).0
    decreases |srcs|
  {
    if srcs != [] {
      var next := WithScript(scripts, srcs[0]);
      assert NoDuplicates(next);
      if ScriptResolves(scripts, srcs[0], failing) {
        LoadInOrderKeepsScriptsUnique(next, srcs[1..], failing);
        var r := LoadInOrder(next, srcs[1..], failing);
        if r.1 {
          forall s | s in srcs
            ensures s in r.0
          {
            if s != srcs[0] {
              assert s in srcs[1..];
            }
          }
        }
      }
    }
  }

  /** Loading srcs that are all present already adds nothing and resolves. */
  lemma {:induction false} LoadingPresentScriptsAddsNothing(scripts: seq<string>, srcs: seq<string>, failing: set<string>)
    requires forall s :: s in srcs ==> s in scripts
    ensures LoadInOrder(scripts, srcs, failing) == (scripts, true)
    decreases |srcs|
  {
    if srcs != [] {
      assert srcs[0] in srcs;
      forall s | s in srcs[1..]
        ensures s in scripts
      {
        assert s in srcs;
      }
      LoadingPresentScriptsAddsNothing(scripts, srcs[1..], failing);
    }
  }

  lemma ScriptSrcsAreDistinct()
    ensures LodashSrc != ApexChartsSrc && LodashSrc != HelpersSrc && ApexChartsSrc != HelpersSrc
  {
    assert |LodashSrc| == 57 && |ApexChartsSrc| == 39 && |HelpersSrc| == 53;
  }

  /** A script whose load failed stays in the document, so the next run
      resolves it at once and goes on: a remount after the ApexCharts load
      failed reaches the build step although that library never loaded. */
  lemma {:induction false} FailedScriptIsSkippedNextTime(failing: set<string>)
    requires failing == {ApexChartsSrc}
    ensures var first := LoadInOrder([], ScriptOrder, failing);
      && first == ([LodashSrc, ApexChartsSrc], false)
      && LoadInOrder(first.0, ScriptOrder, failing) == ([LodashSrc, ApexChartsSrc, HelpersSrc], true)
  {
    ScriptSrcsAreDistinct();
    var rest := [ApexChartsSrc, HelpersSrc];
    assert ScriptOrder[1..] == rest && rest[1..] == [HelpersSrc];
    var first := [LodashSrc, ApexChartsSrc];
    assert ApexChartsSrc !in [LodashSrc] && ApexChartsSrc in failing;
    assert WithScript([LodashSrc], ApexChartsSrc) == first;
    assert LoadInOrder([LodashSrc], rest, failing) == (first, false);
    assert WithScript([], LodashSrc) == [LodashSrc];
    assert LoadInOrder([], ScriptOrder, failing) == (first, false);
    var all := [LodashSrc, ApexChartsSrc, HelpersSrc];
    assert HelpersSrc !in first && WithScript(first, HelpersSrc) == all;
    assert LoadInOrder(first, [HelpersSrc], failing) == (all, true);
    assert LoadInOrder(first, rest, failing) == (all, true);
  }

  /** `window.buildChart && window._ && window.ApexCharts`. */
  predicate CanBuild(buildChartDefined: bool, lodashDefined: bool, apexChartsDefined: bool) {
    buildChartDefined && lodashDefined && apexChartsDefined
  }

  /** The page's document: the src of every script element, in insertion order. */
  class Document {
    var scripts: seq<string>

    constructor ()
      ensures scripts == []
    {
      scripts := [];
    }

    /** `loadScript`: resolve at once if a script with this src exists; else
        append one and resolve or reject as its load succeeds or fails. */
    method LoadScript(src: string, failing: set<string>) returns (resolved: bool)
      modifies this
      ensures scripts == WithScript(old(scripts), src)
      ensures resolved == ScriptResolves(old(scripts), src, failing)
    {
      if src in scripts {
        return true;
      }
      scripts := scripts + [src];
      resolved := src !in failing;
    }
  }

  datatype View = LoadingChart | ChartFailed | Chart(options: BarChart)

  /** `if (loading) …; if (!chartData) …;` then the chart. */
  function ViewOf(loading: bool, chartData: Option<ChartData>): (v: View)
    ensures v == LoadingChart <==> loading
    ensures v == ChartFailed <==> !loading && chartData.None?
    ensures v.Chart? ==> chartData.Some? && v.options == ChartOptions(chartData.value)
  {
    if loading then LoadingChart
    else if chartData.None? then ChartFailed
    else Chart(ChartOptions(chartData.value))
  }

  class GraphState {
    var chartData: Option<ChartData>
    var loading: bool

    constructor ()
      ensures chartData == None && loading
    {
      chartData := None;
      loading := true;
    }

    function Render(): View
      reads this
    {
      ViewOf(loading, chartData)
    }

    /** `fetchData`: on an ok response the transformed arrays are stored; a
        non-ok response or a rejection is logged and leaves the chart data as
        it was; loading ends false either way. */
    method FetchData(browser: Session.Browser, outcome: FetchOutcome<seq<ApiDataItem>>) returns (logs: seq<string>)
      modifies this, browser`redirectedToLogin
      ensures !loading
      ensures outcome.Fetched? && outcome.ok ==> chartData == Some(ToChartData(outcome.body)) && logs == []
      ensures !(outcome.Fetched? && outcome.ok) ==> chartData == old(chartData) && logs == [ChartDataFailedLabel]
      ensures browser.redirectedToLogin == (old(browser.redirectedToLogin) || Session.AuthHeaders(browser.storage).None?)
    {
      var _ := browser.GetAuthHeaders();
      if outcome.Fetched? && outcome.ok {
        chartData := Some(ToChartData(outcome.body));
        loading := false;
        logs := [];
      } else {
        logs := [ChartDataFailedLabel];
        loading := false;
      }
    }

    /** The chart effect: nothing without chart data; otherwise the three
        scripts in order, stopping at the first that fails, then the chart is
        built when the three globals are defined. */
    method LoadChartScriptsAndBuild(doc: Document, failing: set<string>,
                                    buildChartDefined: bool, lodashDefined: bool, apexChartsDefined: bool)
      returns (built: bool, logs: seq<string>)
      modifies doc
      ensures chartData.None? ==> doc.scripts == old(doc.scripts) && !built && logs == []
      ensures chartData.Some? ==>
        var (scripts, resolved) := LoadInOrder(old(doc.scripts), ScriptOrder, failing);
        && doc.scripts == scripts
        && (built <==> resolved && CanBuild(buildChartDefined, lodashDefined, apexChartsDefined))
        && (logs == if resolved then [] else [ScriptsFailedLabel])
    {
      built := false;
      logs := [];
      if chartData.None? {
        return;
      }
      ghost var goal := LoadInOrder(doc.scripts, ScriptOrder, failing);
      assert ScriptOrder[1..] == [ApexChartsSrc, HelpersSrc] && ScriptOrder[1..][1..] == [HelpersSrc];
      var ok := doc.LoadScript(LodashSrc, failing);
      if !ok {
        logs := [ScriptsFailedLabel];
        return;
      }
      assert goal == LoadInOrder(doc.scripts, ScriptOrder[1..], failing);
      ok := doc.LoadScript(ApexChartsSrc, failing);
      if !ok {
        logs := [ScriptsFailedLabel];
        return;
      }
      assert goal == LoadInOrder(doc.scripts, [HelpersSrc], failing);
      ok := doc.LoadScript(HelpersSrc, failing);
      if !ok {
        logs := [ScriptsFailedLabel];
        return;
      }
      assert goal == LoadInOrder(doc.scripts, [], failing);
      built := CanBuild(buildChartDefined, lodashDefined, apexChartsDefined);
    }
  }
}
