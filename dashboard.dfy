/**
 * The bookkeeping of the dashboard controller (`LibraryDashboardController`):
 * its bounded attempt counters, the three-tier choice of chart data, the
 * registry of chart instances with its destroy-before-create discipline, the
 * resize sweep and the re-entry guard of the refresh.
 *
 * The page is a value (`Dom`): whether the dashboard container exists, the
 * elements the data selectors find, and the canvases present in the document.
 * The server is the reply it gave. Chart.js is reduced to its global table of
 * live charts (`ChartJs`). Every method runs to completion: the timers and
 * promise continuations of the source are sequenced in the order they fire.
 */
module Dashboard {
  import opened Optional

  /** MAX_INIT_ATTEMPTS, MAX_LOAD_ATTEMPTS and MAX_RENDER_ATTEMPTS. */
  const MaxAttempts: nat := 3

  datatype Series = Series(caption: string, data: seq<int>)

  /** One metric's chart data: category labels and one or more series. */
  datatype Dataset = Dataset(labels: seq<string>, series: seq<Series>)

  /** The chart data object, keyed by metric. */
  type Snapshot = map<string, Dataset>

  datatype ChartKind = Line | Pie | Bar | Doughnut | Radar | PolarArea

  /** A Chart.js instance: its id in `Chart.instances`, the canvas it draws on, its type and data. */
  datatype Chart = Chart(serial: nat, canvasId: string, kind: ChartKind, data: Dataset)

  /** A value stored in `chartInstances`: a chart, or the `null` a failed creation leaves. */
  datatype Slot = Null | Live(chart: Chart)

  datatype Canvas = Canvas(offsetWidth: int, offsetHeight: int)

  /** An element a data selector finds: its `value` and its `textContent` ("" when falsy). */
  datatype Node = Node(value: string, textContent: string)

  datatype Dom = Dom(hasContainer: bool, nodes: map<string, Node>, canvases: map<string, Canvas>)

  /** The server's answer: none (transport error, no result), or an envelope. */
  datatype Reply = NoReply | Reply(success: bool, data: Option<Snapshot>)

  datatype Source = Server | Embedded | Placeholder

  datatype RenderResult = RenderRejected | Rendered

  datatype LoadResult = LoadRejected | Loaded(source: Source)

  /** `Crashed`: the catch block's retry test names a constant out of scope and throws. */
  datatype InitResult = AlreadyInitialized | GaveUp | Crashed | Initialized

  datatype RefreshResult = AlreadyRefreshing | Refreshed | RefreshFailed | RefreshCrashed

  // ---------------------------------------------------------------------------
  // Fixed tables

  /** The metric keys of the chart data (the placeholder data and the server use these). */
  const MetricKeys: seq<string> := [
    "loan_trend", "book_categories", "book_acquisitions", "loan_status",
    "member_activities", "book_condition", "revenue", "reading_times"]

  /** The eight canvases of the dashboard, in the order the cleanup replaces them. */
  const CanvasIds: seq<string> := [
    "loanChart", "categoryChart", "acquisitionsChart", "loanStatusChart",
    "memberActivitiesChart", "bookConditionChart", "revenueChart", "readingTimesChart"]

  /** Where the chart data may be embedded in the page, in the order they are tried. */
  const GraphDataSelectors: seq<string> := [
    ".o_chart_data",
    "input[name=\"graph_data\"]",
    "span[name=\"graph_data\"]",
    "textarea[name=\"graph_data\"]",
    ".o_field_text[name=\"graph_data\"]",
    ".o_field_widget[name=\"graph_data\"]",
    "[data-field=\"graph_data\"]"]

  /**
   * One chart of `renderCharts`: the key it reads from the chart data, the
   * canvas it draws on, the `chartInstances` key its render method assigns,
   * and its chart type.
   */
  datatype Target = Target(dataKey: string, canvasId: string, registryKey: string, kind: ChartKind)

  const Targets: seq<Target> := [
    Target("loanTrends", "loanChart", "loanTrendsChart", Line),
    Target("categories", "categoryChart", "categoriesChart", Pie),
    Target("acquisitions", "acquisitionsChart", "acquisitionsChart", Bar),
    Target("loanStatus", "loanStatusChart", "loanStatusChart", Doughnut),
    Target("memberActivities", "memberActivitiesChart", "memberActivitiesChart", Radar),
    Target("bookCondition", "bookConditionChart", "bookConditionChart", PolarArea),
    Target("revenue", "revenueChart", "revenueChart", Bar),
    Target("readingTimes", "readingTimesChart", "readingTimesChart", Bar)]

  /** Whether a `chartInstances` key may hold a chart drawn on `canvasId`. */
  predicate KeyNamesCanvas(key: string, canvasId: string)
  {
    key == canvasId
    || (key == "loanTrendsChart" && canvasId == "loanChart")
    || (key == "categoriesChart" && canvasId == "categoryChart")
  }

  /** The facts about the render table the registry proofs rely on. */
  lemma TargetTable()
    ensures |Targets| == 8
    ensures forall i :: 0 <= i < |Targets| ==>
      KeyNamesCanvas(Targets[i].registryKey, Targets[i].canvasId) && Targets[i].canvasId in CanvasIds
    ensures forall i, j :: 0 <= i < |Targets| && 0 <= j < |Targets| && i != j ==>
      && Targets[i].canvasId != Targets[j].canvasId
      && Targets[i].registryKey != Targets[j].registryKey
      && Targets[i].registryKey != Targets[j].canvasId
    // a canvas id names only its own canvas
    ensures forall i, c :: 0 <= i < |Targets| && KeyNamesCanvas(Targets[i].canvasId, c) ==> c == Targets[i].canvasId
  {
    TargetKeysNameCanvases();
    TargetKeysDistinct();
  }

  /** Each render method's key names its canvas, one of the dashboard's, and a canvas id names only itself. */
  lemma TargetKeysNameCanvases()
    ensures |Targets| == 8
    ensures forall i :: 0 <= i < |Targets| ==>
      KeyNamesCanvas(Targets[i].registryKey, Targets[i].canvasId) && Targets[i].canvasId in CanvasIds
    ensures forall i, c :: 0 <= i < |Targets| && KeyNamesCanvas(Targets[i].canvasId, c) ==> c == Targets[i].canvasId
  {
  }

  /** No two targets share a canvas, and no target writes a key another target writes. */
  lemma TargetKeysDistinct()
    ensures forall i, j :: 0 <= i < |Targets| && 0 <= j < |Targets| && i != j ==>
      && Targets[i].canvasId != Targets[j].canvasId
      && Targets[i].registryKey != Targets[j].registryKey
      && Targets[i].registryKey != Targets[j].canvasId
  {
  }

  /** `getCanvasIdForChart`: the canvas of a metric key, undefined for any other key. */
  function GetCanvasIdForChart(chartKey: string): (r: Option<string>)
    ensures r.Some? <==> chartKey in MetricKeys
    ensures r.Some? ==> r.value in CanvasIds
  {
    var mapping := map[
      "loan_trend" := "loanChart",
      "book_categories" := "categoryChart",
      "book_acquisitions" := "acquisitionsChart",
      "loan_status" := "loanStatusChart",
      "member_activities" := "memberActivitiesChart",
      "book_condition" := "bookConditionChart",
      "revenue" := "revenueChart",
      "reading_times" := "readingTimesChart"];
    if chartKey in mapping then Some(mapping[chartKey]) else None
  }

  /**
   * The mapping pairs the eight metric keys, position by position, with the
   * eight canvases, and no two of those are the same: it is one-to-one.
   */
  lemma CanvasMappingIsOneToOne()
    ensures |MetricKeys| == |CanvasIds|
    ensures forall i :: 0 <= i < |MetricKeys| ==> GetCanvasIdForChart(MetricKeys[i]) == Some(CanvasIds[i])
    ensures forall i, j :: 0 <= i < j < |CanvasIds| ==> CanvasIds[i] != CanvasIds[j]
  {
    CanvasIdsDistinct();
  }

  /** The eight dashboard canvases have eight different ids. */
  lemma CanvasIdsDistinct()
    ensures forall i, j :: 0 <= i < j < |CanvasIds| ==> CanvasIds[i] != CanvasIds[j]
  {
  }

  /**
   * `renderCharts` reads camelCase keys while the chart data uses snake_case
   * ones: the two spellings meet only in "revenue".
   */
  lemma RenderKeysMissMetricKeys()
    ensures forall i :: 0 <= i < |Targets| ==> (Targets[i].dataKey in MetricKeys <==> Targets[i].dataKey == "revenue")
    ensures forall i :: 0 <= i < |Targets| ==>
      (GetCanvasIdForChart(Targets[i].dataKey).Some? <==> Targets[i].canvasId == "revenueChart")
  {
  }

  /** `_createDummyChartData`: the built-in placeholder data (colours and styling left out). */
  function DummyChartData(): Snapshot
  {
    var months := ["Jan", "Feb", "Mar", "Apr", "May", "Jun"];
    map[
      "loan_trend" := Dataset(months, [Series("Sample Book Loans", [12, 19, 15, 22, 18, 25])]),
      "book_categories" := Dataset(["Fiction", "Science", "History", "Biography", "Art"],
                                   [Series("", [30, 20, 15, 10, 25])]),
      "book_acquisitions" := Dataset(months, [Series("Sample New Books", [5, 8, 12, 7, 10, 15])]),
      "loan_status" := Dataset(["Active", "Returned", "Overdue", "Lost"], [Series("", [45, 30, 15, 10])]),
      "member_activities" := Dataset(["Loans", "Returns", "Overdue", "Active Members", "New Members"],
                                     [Series("Standard Members", [65, 59, 20, 40, 10]),
                                      Series("Premium Members", [28, 25, 8, 15, 5])]),
      "book_condition" := Dataset(["New", "Good", "Fair", "Poor", "Damaged"], [Series("", [35, 25, 20, 15, 5])]),
      "revenue" := Dataset(months, [Series("Sample Revenue ($)", [125, 150, 175, 200, 220, 250])]),
      "reading_times" := Dataset(["Monday", "Tuesday", "Wednesday", "Thursday", "Friday", "Saturday", "Sunday"],
                                 [Series("Weekday Borrows", [12, 15, 18, 14, 16, 0, 0]),
                                  Series("Weekend Borrows", [0, 0, 0, 0, 0, 25, 30])])]
  }

  /**
   * The placeholder covers every metric key, keeps its loan-status figures,
   * and yet gives `renderCharts` data for the revenue chart only.
   */
  lemma PlaceholderData()
    ensures DummyChartData().Keys == set k | k in MetricKeys
    ensures DummyChartData()["loan_status"] ==
      Dataset(["Active", "Returned", "Overdue", "Lost"], [Series("", [45, 30, 15, 10])])
    ensures forall i :: 0 <= i < |Targets| ==> (Targets[i].dataKey in DummyChartData() <==> Targets[i].dataKey == "revenue")
  {
    RenderKeysMissMetricKeys();
  }

  // ---------------------------------------------------------------------------
  // The data-source tiers of `loadChartData`

  /** `element.value || element.textContent`. */
  function NodeText(n: Node): string
  {
    if n.value != "" then n.value else n.textContent
  }

  /** Whether selector `s` finds an element that yields a non-empty value. */
  predicate Filled(nodes: map<string, Node>, s: string)
  {
    s in nodes && NodeText(nodes[s]) != ""
  }

  /** The text the selector loop ends with: that of the first selector that yields one, or "". */
  function GraphDataText(selectors: seq<string>, nodes: map<string, Node>): string
  {
    if selectors == [] then ""
    else if Filled(nodes, selectors[0]) then NodeText(nodes[selectors[0]])
    else GraphDataText(selectors[1..], nodes)
  }

  /** Selector `i` is the first one that yields a value. */
  predicate FirstFilled(selectors: seq<string>, nodes: map<string, Node>, i: int)
  {
    0 <= i < |selectors| && Filled(nodes, selectors[i])
    && forall j :: 0 <= j < i ==> !Filled(nodes, selectors[j])
  }

  /** The selectors are tried in list order and the first one with a value wins. */
  lemma {:induction false} GraphDataTextIsFirstFilled(selectors: seq<string>, nodes: map<string, Node>)
    ensures GraphDataText(selectors, nodes) == "" <==> forall j :: 0 <= j < |selectors| ==> !Filled(nodes, selectors[j])
    ensures GraphDataText(selectors, nodes) != "" ==>
      exists i :: FirstFilled(selectors, nodes, i) && GraphDataText(selectors, nodes) == NodeText(nodes[selectors[i]])
  {
    if selectors != [] {
      GraphDataTextIsFirstFilled(selectors[1..], nodes);
      if !Filled(nodes, selectors[0]) && GraphDataText(selectors, nodes) != "" {
        var i :| FirstFilled(selectors[1..], nodes, i) && GraphDataText(selectors[1..], nodes) == NodeText(nodes[selectors[1..][i]]);
        assert FirstFilled(selectors, nodes, i + 1);
      }
      if Filled(nodes, selectors[0]) {
        assert FirstFilled(selectors, nodes, 0);
      }
    }
  }

  /** The selector loop of `loadChartData`. */
  method FindGraphData(nodes: map<string, Node>) returns (text: string)
    ensures text == GraphDataText(GraphDataSelectors, nodes)
  {
    text := "";
    var i := 0;
    while i < |GraphDataSelectors|
      invariant 0 <= i <= |GraphDataSelectors|
      invariant GraphDataText(GraphDataSelectors, nodes) == GraphDataText(GraphDataSelectors[i..], nodes)
      invariant text == ""
    {
      var selector := GraphDataSelectors[i];
      if selector in nodes {
        text := NodeText(nodes[selector]);
        if text != "" {
          return;
        }
      }
      assert GraphDataSelectors[i..][1..] == GraphDataSelectors[i + 1..];
      i := i + 1;
    }
  }

  /** `fetchDataFromServer`'s test: a result exists and `result.success` is truthy. */
  predicate Accepted(reply: Reply)
  {
    reply.Reply? && reply.success
  }

  /** Which tier `loadChartData` settles on; `parse` is `JSON.parse`, `None` when it throws. */
  function Tier(reply: Reply, dom: Dom, parse: string -> Option<Snapshot>): Source
  {
    if Accepted(reply) then Server
    else
      var text := GraphDataText(GraphDataSelectors, dom.nodes);
      if text != "" && parse(text).Some? then Embedded else Placeholder
  }

  /** The chart data each tier installs. */
  function TierData(reply: Reply, dom: Dom, parse: string -> Option<Snapshot>): Option<Snapshot>
  {
    match Tier(reply, dom, parse)
    case Server => reply.data
    case Embedded => parse(GraphDataText(GraphDataSelectors, dom.nodes))
    case Placeholder => Some(DummyChartData())
  }

  /**
   * The server wins whenever it answers with `success`; a reply without it
   * (an error, `success: false`, or an envelope with only `data`) falls through
   * to the page's embedded data, and to the placeholder when that is missing or
   * does not parse.
   */
  lemma TierOrder(reply: Reply, dom: Dom, parse: string -> Option<Snapshot>)
    ensures Tier(reply, dom, parse) == Server <==> Accepted(reply)
    ensures Tier(reply, dom, parse) == Embedded <==>
      !Accepted(reply) && exists i :: FirstFilled(GraphDataSelectors, dom.nodes, i)
                                   && parse(NodeText(dom.nodes[GraphDataSelectors[i]])).Some?
    ensures Tier(reply, dom, parse) != Server ==> TierData(reply, dom, parse).Some?
  {
    GraphDataTextIsFirstFilled(GraphDataSelectors, dom.nodes);
    if exists i :: FirstFilled(GraphDataSelectors, dom.nodes, i) {
      var i :| FirstFilled(GraphDataSelectors, dom.nodes, i);
      FirstFilledIsUnique(GraphDataSelectors, dom.nodes, i);
    }
  }

  lemma FirstFilledIsUnique(selectors: seq<string>, nodes: map<string, Node>, i: int)
    requires FirstFilled(selectors, nodes, i)
    ensures forall j :: FirstFilled(selectors, nodes, j) ==> j == i
  {
  }

  // ---------------------------------------------------------------------------
  // Chart.js and the chart registry

  /** No two live charts draw on the same canvas. */
  predicate OneChartPerCanvas(live: map<nat, Chart>)
  {
    forall a, b :: a in live && b in live && a != b ==> live[a].canvasId != live[b].canvasId
  }

  /** Every chart recorded in `chartInstances` draws on the canvas its key names. */
  predicate WellKeyed(registry: map<string, Slot>)
  {
    forall k :: k in registry && registry[k].Live? ==> KeyNamesCanvas(k, registry[k].chart.canvasId)
  }

  /** The live charts minus those on `canvasId` (the sweep over `Chart.instances`). */
  function DropCanvas(live: map<nat, Chart>, canvasId: string): (r: map<nat, Chart>)
    ensures forall k :: k in r ==> r[k].canvasId != canvasId
  {
    map k | k in live && live[k].canvasId != canvasId :: live[k]
  }

  /** The live charts after `destroy()` on the chart a slot holds, if it is one. */
  function Destroyed(live: map<nat, Chart>, slot: Slot): map<nat, Chart>
  {
    if slot.Live? && slot.chart.serial in live && live[slot.chart.serial] == slot.chart
    then live - {slot.chart.serial}
    else live
  }

  function Register(live: map<nat, Chart>, created: Option<Chart>): map<nat, Chart>
  {
    if created.Some? then live[created.value.serial := created.value] else live
  }

  /** What `chartInstances[canvasId]` holds, `Null` standing also for an absent key. */
  function SlotAt(registry: map<string, Slot>, key: string): Slot
  {
    if key in registry then registry[key] else Null
  }

  function SlotOf(created: Option<Chart>): Slot
  {
    if created.Some? then Live(created.value) else Null
  }

  /** `safelyCreateChart`'s registry effect on a present canvas: a recorded chart is deleted, the new one stored. */
  function RegistryAfterCreate(registry: map<string, Slot>, canvasId: string, created: Option<Chart>): map<string, Slot>
  {
    var cleared := if SlotAt(registry, canvasId).Live? then registry - {canvasId} else registry;
    if created.Some? then cleared[canvasId := Live(created.value)] else cleared
  }

  /**
   * Creating on a canvas leaves exactly one live chart there, the new one,
   * and keeps every other canvas to at most one.
   */
  lemma {:induction false} CreateKeepsOneChartPerCanvas(live: map<nat, Chart>, slot: Slot, canvasId: string, created: Option<Chart>)
    requires OneChartPerCanvas(live)
    requires created.Some? ==> created.value.canvasId == canvasId
    ensures var after := Register(DropCanvas(Destroyed(live, slot), canvasId), created);
      && OneChartPerCanvas(after)
      && (forall k :: k in after && after[k].canvasId == canvasId ==> created == Some(after[k]))
  {
    var d := Destroyed(live, slot);
    assert forall k :: k in d ==> k in live && d[k] == live[k];
    var dropped := DropCanvas(d, canvasId);
    assert OneChartPerCanvas(dropped);
  }

  /**
   * Chart.js as far as the controller sees it: the table `Chart.instances` of
   * live charts, the id the next chart gets, and the canvases on which
   * `new Chart(...)` throws.
   */
  class ChartJs {
    var instances: map<nat, Chart>
    var nextSerial: nat
    const broken: set<string>

    ghost predicate Valid()
      reads this
    {
      forall k :: k in instances ==> instances[k].serial == k && k < nextSerial
    }

    constructor (broken: set<string>)
      ensures Valid() && instances == map[] && nextSerial == 0 && this.broken == broken
    {
      instances := map[];
      nextSerial := 0;
      this.broken := broken;
    }

    /** `new Chart(ctx, {type, data, options})`. */
    method Construct(canvasId: string, kind: ChartKind, data: Dataset) returns (created: Option<Chart>)
      requires Valid()
      modifies this
      ensures Valid()
      ensures canvasId in broken ==> created.None? && instances == old(instances) && nextSerial == old(nextSerial)
      ensures canvasId !in broken ==>
        && created == Some(Chart(old(nextSerial), canvasId, kind, data))
        && instances == old(instances)[old(nextSerial) := created.value]
        && nextSerial == old(nextSerial) + 1
    {
      if canvasId in broken {
        created := None;
      } else {
        var chart := Chart(nextSerial, canvasId, kind, data);
        instances := instances[nextSerial := chart];
        nextSerial := nextSerial + 1;
        created := Some(chart);
      }
    }

    /** The sweep of `safelyCreateChart` over `Chart.instances`: every live chart on the canvas is destroyed. */
    method DestroyAllOn(canvasId: string)
      requires Valid()
      modifies this`instances
      ensures Valid()
      ensures instances == DropCanvas(old(instances), canvasId)
    {
      var pending := instances.Keys;
      while pending != {}
        invariant pending <= old(instances).Keys
        invariant Valid()
        invariant instances == map k | k in old(instances) && (k in pending || old(instances)[k].canvasId != canvasId)
          :: old(instances)[k]
        decreases pending
      {
        var k :| k in pending;
        if instances[k].canvasId == canvasId {
          Destroy(instances[k]);
        }
        pending := pending - {k};
      }
    }

    /** `chart.destroy()`: the chart leaves `Chart.instances`; destroying a dead chart does nothing. */
    method Destroy(chart: Chart)
      requires Valid()
      modifies this`instances
      ensures Valid()
      ensures instances == Destroyed(old(instances), Live(chart))
    {
      if chart.serial in instances && instances[chart.serial] == chart {
        instances := instances - {chart.serial};
      }
    }
  }

  // ---------------------------------------------------------------------------
  // Rendering, specified one chart at a time

  /** The chart `renderCharts` creates for target `t`, if any. */
  function CreatedFor(t: Target, dom: Dom, broken: set<string>, serial: nat, data: Dataset): Option<Chart>
  {
    if t.canvasId in dom.canvases && t.canvasId !in broken then Some(Chart(serial, t.canvasId, t.kind, data)) else None
  }

  /** The registry after a render method: `chartInstances.<key> = safelyCreateChart(...)`. */
  function RegistryAfterRender(registry: map<string, Slot>, t: Target, dom: Dom, created: Option<Chart>): map<string, Slot>
  {
    var afterCreate := if t.canvasId in dom.canvases then RegistryAfterCreate(registry, t.canvasId, created) else registry;
    afterCreate[t.registryKey := SlotOf(created)]
  }

  function LiveAfterRender(live: map<nat, Chart>, registry: map<string, Slot>, t: Target, dom: Dom, created: Option<Chart>): map<nat, Chart>
  {
    if t.canvasId in dom.canvases
    then Register(DropCanvas(Destroyed(live, SlotAt(registry, t.canvasId)), t.canvasId), created)
    else live
  }

  /** Key `k` holds the same entry (or is absent) in both registries. */
  predicate SameAt(before: map<string, Slot>, after: map<string, Slot>, k: string)
  {
    (k in before <==> k in after) && (k in before ==> before[k] == after[k])
  }

  /**
   * What `renderCharts` leaves for one target: untouched without data; a
   * `null` entry when the canvas is missing or the chart cannot be built; and
   * otherwise a live chart of the target's type and data on its canvas,
   * recorded under both the canvas id and the render method's key.
   */
  ghost predicate Drawn(t: Target, data: Snapshot, dom: Dom, broken: set<string>,
                        before: map<string, Slot>, after: map<string, Slot>, live: map<nat, Chart>)
  {
    if t.dataKey !in data then
      SameAt(before, after, t.registryKey) && SameAt(before, after, t.canvasId)
    else if t.canvasId !in dom.canvases then
      t.registryKey in after && after[t.registryKey] == Null
      && (t.canvasId != t.registryKey ==> SameAt(before, after, t.canvasId))
    else if t.canvasId in broken then
      t.registryKey in after && after[t.registryKey] == Null
      && (t.canvasId in after ==> after[t.canvasId] == Null)
    else
      && t.registryKey in after && after[t.registryKey].Live?
      && var c := after[t.registryKey].chart;
      && c.canvasId == t.canvasId && c.kind == t.kind && c.data == data[t.dataKey]
      && t.canvasId in after && after[t.canvasId] == after[t.registryKey]
      && c.serial in live && live[c.serial] == c
  }

  /** The registry keys the first `n` targets may write. */
  ghost function TouchedKeys(n: nat): set<string>
  {
    (set j | 0 <= j < n && j < |Targets| :: Targets[j].registryKey)
    + (set j | 0 <= j < n && j < |Targets| :: Targets[j].canvasId)
  }

  /** The chart render step `t` creates: none without data for it. */
  function StepCreated(t: Target, data: Snapshot, dom: Dom, broken: set<string>, serial: nat): Option<Chart>
  {
    if t.dataKey in data then CreatedFor(t, dom, broken, serial, data[t.dataKey]) else None
  }

  /** The registry after `renderChartWithFallback` for target `t`. */
  function StepRegistry(registry: map<string, Slot>, t: Target, data: Snapshot, dom: Dom, broken: set<string>, serial: nat)
    : map<string, Slot>
  {
    if t.dataKey in data then RegistryAfterRender(registry, t, dom, StepCreated(t, data, dom, broken, serial)) else registry
  }

  /** The live charts after `renderChartWithFallback` for target `t`. */
  function StepLive(live: map<nat, Chart>, registry: map<string, Slot>, t: Target, data: Snapshot, dom: Dom,
                    broken: set<string>, serial: nat): map<nat, Chart>
  {
    if t.dataKey in data then LiveAfterRender(live, registry, t, dom, StepCreated(t, data, dom, broken, serial)) else live
  }

  /** After the first `n` render steps: those targets are `Drawn` and no other key has moved. */
  ghost predicate RenderedSoFar(n: nat, data: Snapshot, dom: Dom, broken: set<string>,
                                before: map<string, Slot>, registry: map<string, Slot>, live: map<nat, Chart>)
  {
    && (forall j :: 0 <= j < n && j < |Targets| ==> Drawn(Targets[j], data, dom, broken, before, registry, live))
    && (forall k :: k !in TouchedKeys(n) ==> SameAt(before, registry, k))
  }

  /** One render step establishes `Drawn` for its own target. */
  lemma DrawnByStep(i: nat, data: Snapshot, dom: Dom, broken: set<string>, registry: map<string, Slot>,
                    live: map<nat, Chart>, serial: nat, before: map<string, Slot>)
    requires i < |Targets|
    requires SameAt(before, registry, Targets[i].registryKey) && SameAt(before, registry, Targets[i].canvasId)
    ensures Drawn(Targets[i], data, dom, broken, before, StepRegistry(registry, Targets[i], data, dom, broken, serial),
                  StepLive(live, registry, Targets[i], data, dom, broken, serial))
  {
    TargetTable();
  }

  /** A later render step keeps what an earlier one drew. */
  lemma DrawnSurvivesStep(j: nat, i: nat, data: Snapshot, dom: Dom, broken: set<string>,
                          registry: map<string, Slot>, live: map<nat, Chart>, serial: nat, before: map<string, Slot>)
    requires j < i < |Targets|
    requires WellKeyed(registry)
    requires forall k :: k in live ==> live[k].serial == k && k < serial
    requires Drawn(Targets[j], data, dom, broken, before, registry, live)
    ensures Drawn(Targets[j], data, dom, broken, before, StepRegistry(registry, Targets[i], data, dom, broken, serial),
                  StepLive(live, registry, Targets[i], data, dom, broken, serial))
  {
    TargetTable();
    var t := Targets[i];
    var u := Targets[j];
    if t.dataKey in data && t.canvasId in dom.canvases && u.dataKey in data
       && u.canvasId in dom.canvases && u.canvasId !in broken {
      var c := registry[u.registryKey].chart;
      var victim := SlotAt(registry, t.canvasId);
      if victim.Live? {
        assert KeyNamesCanvas(t.canvasId, victim.chart.canvasId);
      }
      assert c.serial in Destroyed(live, victim);
    }
  }

  /** Step `i` writes two keys no earlier step wrote, and adds exactly those. */
  lemma TouchedKeysGrow(i: nat)
    requires i < |Targets|
    ensures Targets[i].registryKey !in TouchedKeys(i) && Targets[i].canvasId !in TouchedKeys(i)
    ensures TouchedKeys(i + 1) == TouchedKeys(i) + {Targets[i].registryKey, Targets[i].canvasId}
  {
    TargetTable();
  }

  /** A render step moves no registry key but its target's two. */
  lemma StepKeepsOtherKeys(registry: map<string, Slot>, t: Target, data: Snapshot, dom: Dom, broken: set<string>, serial: nat)
    ensures forall k :: k != t.registryKey && k != t.canvasId ==>
      SameAt(registry, StepRegistry(registry, t, data, dom, broken, serial), k)
  {
  }

  /** One render step keeps every earlier target `Drawn` and draws its own. */
  lemma StepDrawsSoFar(i: nat, data: Snapshot, dom: Dom, broken: set<string>, before: map<string, Slot>,
                       registry: map<string, Slot>, live: map<nat, Chart>, serial: nat)
    requires i < |Targets|
    requires WellKeyed(registry)
    requires forall k :: k in live ==> live[k].serial == k && k < serial
    requires forall j :: 0 <= j < i ==> Drawn(Targets[j], data, dom, broken, before, registry, live)
    requires SameAt(before, registry, Targets[i].registryKey) && SameAt(before, registry, Targets[i].canvasId)
    ensures forall j :: 0 <= j <= i ==>
      Drawn(Targets[j], data, dom, broken, before, StepRegistry(registry, Targets[i], data, dom, broken, serial),
            StepLive(live, registry, Targets[i], data, dom, broken, serial))
  {
    forall j | 0 <= j < i
      ensures Drawn(Targets[j], data, dom, broken, before, StepRegistry(registry, Targets[i], data, dom, broken, serial),
                    StepLive(live, registry, Targets[i], data, dom, broken, serial))
    {
      DrawnSurvivesStep(j, i, data, dom, broken, registry, live, serial, before);
    }
    DrawnByStep(i, data, dom, broken, registry, live, serial, before);
  }

  /**
   * One step of `renderCharts` extends what has been drawn by one target,
   * moves no other key, and keeps every canvas to at most one live chart.
   */
  lemma RenderStep(i: nat, data: Snapshot, dom: Dom, broken: set<string>, before: map<string, Slot>,
                   registry: map<string, Slot>, live: map<nat, Chart>, serial: nat)
    requires i < |Targets|
    requires WellKeyed(registry)
    requires forall k :: k in live ==> live[k].serial == k && k < serial
    requires RenderedSoFar(i, data, dom, broken, before, registry, live)
    ensures RenderedSoFar(i + 1, data, dom, broken, before, StepRegistry(registry, Targets[i], data, dom, broken, serial),
                          StepLive(live, registry, Targets[i], data, dom, broken, serial))
    ensures OneChartPerCanvas(live) ==> OneChartPerCanvas(StepLive(live, registry, Targets[i], data, dom, broken, serial))
  {
    TouchedKeysGrow(i);
    StepDrawsSoFar(i, data, dom, broken, before, registry, live, serial);
    StepKeepsOtherKeys(registry, Targets[i], data, dom, broken, serial);
    if OneChartPerCanvas(live) {
      RenderStepKeepsOneChartPerCanvas(i, data, dom, broken, registry, live, serial);
    }
  }

  /** One step of `renderCharts` keeps every canvas to at most one live chart. */
  lemma RenderStepKeepsOneChartPerCanvas(i: nat, data: Snapshot, dom: Dom, broken: set<string>,
                                         registry: map<string, Slot>, live: map<nat, Chart>, serial: nat)
    requires i < |Targets|
    requires OneChartPerCanvas(live)
    ensures OneChartPerCanvas(StepLive(live, registry, Targets[i], data, dom, broken, serial))
  {
    var t := Targets[i];
    if t.dataKey in data && t.canvasId in dom.canvases {
      CreateKeepsOneChartPerCanvas(live, SlotAt(registry, t.canvasId), t.canvasId, StepCreated(t, data, dom, broken, serial));
    }
  }

  /** The metric keys of the dashboard record's graph data, the revenue one spelled "revenue_data". */
  const ServerMetricKeys: seq<string> := [
    "loan_trend", "book_categories", "book_acquisitions", "loan_status",
    "member_activities", "book_condition", "revenue_data", "reading_times"]

  /**
   * Chart data shaped like the server's has no key `renderCharts` reads: a
   * render from it draws nothing and leaves the registry exactly as it was.
   */
  lemma ServerDataDrawsNothing(data: Snapshot, dom: Dom, broken: set<string>, before: map<string, Slot>,
                               after: map<string, Slot>, live: map<nat, Chart>)
    requires forall k :: k in data ==> k in ServerMetricKeys
    requires RenderedSoFar(|Targets|, data, dom, broken, before, after, live)
    ensures after == before
  {
    TargetTable();
    assert forall j :: 0 <= j < |Targets| ==> Targets[j].dataKey !in ServerMetricKeys;
    forall k ensures (k in before <==> k in after) && (k in before ==> before[k] == after[k]) {
      if k in TouchedKeys(|Targets|) {
        var j :| 0 <= j < |Targets| && (k == Targets[j].registryKey || k == Targets[j].canvasId);
        assert Drawn(Targets[j], data, dom, broken, before, after, live);
      }
      assert SameAt(before, after, k);
    }
  }

  /** Every registry key but "revenueChart" as it was, and the revenue chart drawn from the placeholder. */
  ghost predicate OnlyRevenueDrawn(dom: Dom, broken: set<string>, before: map<string, Slot>,
                                   after: map<string, Slot>, live: map<nat, Chart>)
  {
    && (forall k :: k != "revenueChart" ==> SameAt(before, after, k))
    && Drawn(Target("revenue", "revenueChart", "revenueChart", Bar), DummyChartData(), dom, broken, before, after, live)
  }

  /**
   * The placeholder feeds only the revenue target: a render from it leaves
   * every key but "revenueChart" as it was, and draws the revenue chart.
   */
  lemma PlaceholderDrawsOnlyRevenue(dom: Dom, broken: set<string>, before: map<string, Slot>,
                                    after: map<string, Slot>, live: map<nat, Chart>)
    requires RenderedSoFar(|Targets|, DummyChartData(), dom, broken, before, after, live)
    ensures OnlyRevenueDrawn(dom, broken, before, after, live)
  {
    PlaceholderFeedsOnlyRevenue();
    forall k | k != "revenueChart" ensures SameAt(before, after, k) {
      if k in TouchedKeys(|Targets|) {
        var j :| 0 <= j < |Targets| && (k == Targets[j].registryKey || k == Targets[j].canvasId);
        assert Drawn(Targets[j], DummyChartData(), dom, broken, before, after, live);
      }
    }
    assert Drawn(Targets[6], DummyChartData(), dom, broken, before, after, live);
  }

  /** Only the revenue target, the one on "revenueChart", finds its key in the placeholder. */
  lemma PlaceholderFeedsOnlyRevenue()
    ensures |Targets| == 8 && Targets[6] == Target("revenue", "revenueChart", "revenueChart", Bar)
    ensures forall j :: 0 <= j < |Targets| && Targets[j].dataKey in DummyChartData() ==>
      Targets[j].registryKey == "revenueChart" && Targets[j].canvasId == "revenueChart"
  {
    PlaceholderData();
  }

  /** The attempt counter `renderCharts` leaves: reset at the gate or after drawing, one more without data. */
  function RenderCount(attempts: nat, data: Option<Snapshot>): nat
  {
    if attempts >= MaxAttempts then 0 else if data.None? then attempts + 1 else 0
  }

  /** `renderCharts` draws exactly when it is under the attempt limit and has data. */
  function RenderVerdict(attempts: nat, data: Option<Snapshot>): RenderResult
  {
    if attempts < MaxAttempts && data.Some? then Rendered else RenderRejected
  }

  /**
   * What one `renderCharts` call leaves, started with counter `attempts`,
   * chart data `data`, registry `before` and live charts `liveBefore`: the
   * counter `RenderCount` gives; after a rejection the registry and the live
   * charts as they were; after drawing, every target `Drawn` and no other
   * registry key moved.
   */
  ghost predicate RenderOutcome(attempts: nat, data: Option<Snapshot>, dom: Dom, broken: set<string>,
                                before: map<string, Slot>, liveBefore: map<nat, Chart>,
                                attemptsAfter: nat, after: map<string, Slot>, live: map<nat, Chart>)
  {
    && attemptsAfter == RenderCount(attempts, data)
    && if RenderVerdict(attempts, data) == Rendered
       then RenderedSoFar(|Targets|, data.value, dom, broken, before, after, live)
       else after == before && live == liveBefore
  }

  /** The attempt counter a refresh leaves before its restore: moved only by a render of accepted data. */
  function CountBeforeRestore(attempts: nat, reply: Reply): nat
  {
    if Accepted(reply) then RenderCount(attempts, reply.data) else attempts
  }

  // ---------------------------------------------------------------------------
  // The controller

  class LibraryDashboardController {
    var chartData: Option<Snapshot>
    var chartInstances: map<string, Slot>
    var initialized: bool
    var refreshing: bool
    var renderAttempts: nat
    var initAttempts: nat
    var loadAttempts: nat

    /** The counters never rest above the limit, and the registry keys name their canvases. */
    ghost predicate Valid()
      reads this
    {
      && initAttempts <= MaxAttempts
      && loadAttempts <= MaxAttempts
      && renderAttempts <= MaxAttempts
      && WellKeyed(chartInstances)
    }

    constructor ()
      ensures Valid()
      ensures chartData.None? && chartInstances == map[] && !initialized && !refreshing
      ensures renderAttempts == 0 && initAttempts == 0 && loadAttempts == 0
    {
      chartData := None;
      chartInstances := map[];
      initialized := false;
      refreshing := false;
      renderAttempts := 0;
      initAttempts := 0;
      loadAttempts := 0;
    }

    /**
     * `safelyCreateChart`: nothing happens without the canvas; otherwise the
     * recorded chart and every live chart on the canvas are destroyed before
     * the new one is built and recorded.
     */
    method SafelyCreateChart(canvasId: string, kind: ChartKind, data: Dataset, dom: Dom, lib: ChartJs)
      returns (created: Option<Chart>)
      requires lib.Valid()
      modifies this`chartInstances, lib
      ensures lib.Valid()
      ensures canvasId !in dom.canvases ==>
        && created.None? && chartInstances == old(chartInstances)
        && lib.instances == old(lib.instances) && lib.nextSerial == old(lib.nextSerial)
      ensures canvasId in dom.canvases ==>
        && created == (if canvasId in lib.broken then None else Some(Chart(old(lib.nextSerial), canvasId, kind, data)))
        && chartInstances == RegistryAfterCreate(old(chartInstances), canvasId, created)
        && lib.instances == Register(DropCanvas(Destroyed(old(lib.instances), SlotAt(old(chartInstances), canvasId)), canvasId), created)
        && lib.nextSerial == old(lib.nextSerial) + (if created.Some? then 1 else 0)
    {
      if canvasId !in dom.canvases {
        return None;
      }
      var victim := SlotAt(chartInstances, canvasId);
      if victim.Live? {
        lib.Destroy(victim.chart);
        chartInstances := chartInstances - {canvasId};
      }
      assert lib.instances == Destroyed(old(lib.instances), victim);
      assert chartInstances == RegistryAfterCreate(old(chartInstances), canvasId, None);
      lib.DestroyAllOn(canvasId);
      // the canvas is recreated (not visible at this level), then the chart is built; the fallback retries once
      created := lib.Construct(canvasId, kind, data);
      if created.None? {
        created := lib.Construct(canvasId, kind, data);
      }
      if created.Some? {
        chartInstances := chartInstances[canvasId := Live(created.value)];
      }
    }

    /** One `render*Chart` method: `this.chartInstances.<key> = this.safelyCreateChart(<canvas>, <type>, data, options)`. */
    method RenderChart(i: nat, data: Dataset, dom: Dom, lib: ChartJs)
      requires i < |Targets| && lib.Valid() && WellKeyed(chartInstances)
      modifies this`chartInstances, lib
      ensures lib.Valid() && WellKeyed(chartInstances)
      ensures var created := CreatedFor(Targets[i], dom, lib.broken, old(lib.nextSerial), data);
        && chartInstances == RegistryAfterRender(old(chartInstances), Targets[i], dom, created)
        && lib.instances == LiveAfterRender(old(lib.instances), old(chartInstances), Targets[i], dom, created)
        && lib.nextSerial == old(lib.nextSerial) + (if created.Some? then 1 else 0)
    {
      TargetTable();
      var t := Targets[i];
      var created := SafelyCreateChart(t.canvasId, t.kind, data, dom, lib);
      chartInstances := chartInstances[t.registryKey := SlotOf(created)];
    }

    /**
     * `renderChartWithFallback`: renders when the chart data holds the key;
     * otherwise names the canvas that gets a "no data" notice, if the key
     * has one and the canvas is on the page.
     */
    method RenderChartWithFallback(i: nat, dom: Dom, lib: ChartJs) returns (notice: Option<string>)
      requires i < |Targets| && lib.Valid() && WellKeyed(chartInstances) && chartData.Some?
      modifies this`chartInstances, lib
      ensures lib.Valid() && WellKeyed(chartInstances)
      ensures chartInstances == StepRegistry(old(chartInstances), Targets[i], chartData.value, dom, lib.broken, old(lib.nextSerial))
      ensures lib.instances == StepLive(old(lib.instances), old(chartInstances), Targets[i], chartData.value, dom, lib.broken,
                                        old(lib.nextSerial))
      ensures lib.nextSerial == old(lib.nextSerial) + (if StepCreated(Targets[i], chartData.value, dom, lib.broken, old(lib.nextSerial)).Some? then 1 else 0)
      ensures notice == (var canvas := GetCanvasIdForChart(Targets[i].dataKey);
        if Targets[i].dataKey !in chartData.value && canvas.Some? && canvas.value in dom.canvases then canvas else None)
    {
      var key := Targets[i].dataKey;
      if key in chartData.value {
        RenderChart(i, chartData.value[key], dom, lib);
        notice := None;
      } else {
        var canvas := GetCanvasIdForChart(key);
        notice := if canvas.Some? && canvas.value in dom.canvases then canvas else None;
      }
    }

    /**
     * `renderCharts`: the attempt gate, the check for data, then the eight
     * charts in table order; every target ends as `Drawn` describes and no
     * canvas ends up with two live charts.
     */
    method RenderCharts(dom: Dom, lib: ChartJs) returns (r: RenderResult)
      requires Valid() && lib.Valid()
      modifies this`renderAttempts, this`chartInstances, lib
      ensures Valid() && lib.Valid()
      ensures OneChartPerCanvas(old(lib.instances)) ==> OneChartPerCanvas(lib.instances)
      ensures r == RenderVerdict(old(renderAttempts), chartData)
      ensures RenderOutcome(old(renderAttempts), chartData, dom, lib.broken, old(chartInstances), old(lib.instances),
                            renderAttempts, chartInstances, lib.instances)
    {
      renderAttempts := renderAttempts + 1;
      if renderAttempts > MaxAttempts {
        renderAttempts := 0;
        return RenderRejected;
      }
      if chartData.None? {
        return RenderRejected;
      }
      var data := chartData.value;
      var i := 0;
      while i < |Targets|
        invariant 0 <= i <= |Targets|
        invariant lib.Valid() && WellKeyed(chartInstances)
        invariant chartData == old(chartData)
        invariant OneChartPerCanvas(old(lib.instances)) ==> OneChartPerCanvas(lib.instances)
        invariant RenderedSoFar(i, data, dom, lib.broken, old(chartInstances), chartInstances, lib.instances)
      {
        RenderStep(i, data, dom, lib.broken, old(chartInstances), chartInstances, lib.instances, lib.nextSerial);
        var _ := RenderChartWithFallback(i, dom, lib);
        i := i + 1;
      }
      renderAttempts := 0;
      r := Rendered;
    }

    /** Whether the resize sweep calls `resize()` on the entry: a live chart on a laid-out canvas. */
    ghost predicate Resizable(slot: Slot, dom: Dom, live: map<nat, Chart>)
    {
      && slot.Live?
      && slot.chart.serial in live && live[slot.chart.serial] == slot.chart
      && slot.chart.canvasId in dom.canvases
      && dom.canvases[slot.chart.canvasId].offsetWidth > 0
      && dom.canvases[slot.chart.canvasId].offsetHeight > 0
    }

    /**
     * The body of `handleResize`'s timer: entries that are null, whose chart
     * is destroyed or whose canvas is gone or has no area are skipped; the
     * others are resized, and an entry whose `resize()` throws is deleted.
     */
    method HandleResize(dom: Dom, lib: ChartJs, throwing: set<string>) returns (resized: set<string>)
      requires Valid()
      modifies this`chartInstances
      ensures Valid()
      ensures chartInstances == map k | k in old(chartInstances)
        && !(Resizable(old(chartInstances)[k], dom, lib.instances) && k in throwing) :: old(chartInstances)[k]
      ensures resized == set k | k in old(chartInstances)
        && Resizable(old(chartInstances)[k], dom, lib.instances) && k !in throwing
    {
      var entries := chartInstances;
      var pending := entries.Keys;
      resized := {};
      while pending != {}
        invariant pending <= entries.Keys
        invariant chartInstances == map k | k in entries
          && !(k !in pending && Resizable(entries[k], dom, lib.instances) && k in throwing) :: entries[k]
        invariant resized == set k | k in entries && k !in pending
          && Resizable(entries[k], dom, lib.instances) && k !in throwing
        decreases pending
      {
        var id :| id in pending;
        var slot := entries[id];
        if slot.Live? && slot.chart.serial in lib.instances && lib.instances[slot.chart.serial] == slot.chart {
          var canvasId := slot.chart.canvasId;
          if canvasId in dom.canvases && dom.canvases[canvasId].offsetWidth > 0 && dom.canvases[canvasId].offsetHeight > 0 {
            if id in throwing {
              chartInstances := chartInstances - {id};
            } else {
              resized := resized + {id};
            }
          }
        }
        pending := pending - {id};
      }
    }

    /** `cleanupAllChartInstances`: every recorded and every live chart destroyed, the registry emptied. */
    method CleanupAllChartInstances(lib: ChartJs) returns (ok: bool)
      requires Valid() && lib.Valid()
      modifies this`chartInstances, lib`instances
      ensures Valid() && lib.Valid()
      ensures ok && chartInstances == map[] && lib.instances == map[]
    {
      var entries := chartInstances;
      var pending := entries.Keys;
      while pending != {}
        invariant lib.Valid() && pending <= entries.Keys
        // every visited entry's chart is no longer live
        invariant forall id :: id in entries && id !in pending && entries[id].Live? ==>
          !(entries[id].chart.serial in lib.instances && lib.instances[entries[id].chart.serial] == entries[id].chart)
        decreases pending
      {
        var id :| id in pending;
        var slot := entries[id];
        if slot.Live? {
          lib.Destroy(slot.chart);
        }
        pending := pending - {id};
      }
      chartInstances := map[];
      var global := lib.instances.Keys;
      while global != {}
        invariant lib.Valid() && chartInstances == map[]
        invariant lib.instances.Keys <= global
        decreases global
      {
        var k :| k in global;
        if k in lib.instances {
          lib.Destroy(lib.instances[k]);
        }
        global := global - {k};
      }
      assert lib.instances.Keys == {};
      ok := true;
    }

    /**
     * `fetchDataFromServer`: only a result with `success` is taken; then the
     * chart data is replaced and the charts are rendered (not awaited).
     */
    method FetchDataFromServer(reply: Reply, dom: Dom, lib: ChartJs) returns (ok: bool)
      requires Valid() && lib.Valid()
      modifies this`chartData, this`renderAttempts, this`chartInstances, lib
      ensures Valid() && lib.Valid()
      ensures OneChartPerCanvas(old(lib.instances)) ==> OneChartPerCanvas(lib.instances)
      ensures ok == Accepted(reply)
      ensures !ok ==> && chartData == old(chartData) && renderAttempts == old(renderAttempts)
                      && chartInstances == old(chartInstances) && lib.instances == old(lib.instances)
      ensures ok ==> && chartData == reply.data
                     && RenderOutcome(old(renderAttempts), reply.data, dom, lib.broken, old(chartInstances),
                                      old(lib.instances), renderAttempts, chartInstances, lib.instances)
    {
      if !Accepted(reply) {
        return false;
      }
      chartData := reply.data;
      var _ := RenderCharts(dom, lib);
      ok := true;
    }

    /**
     * `loadChartData`: the attempt gate, the container check, then the server,
     * the page's embedded data, or the placeholder, in that order; every tier
     * that delivers resets the counter and renders.
     */
    method LoadChartData(dom: Dom, lib: ChartJs, reply: Reply, parse: string -> Option<Snapshot>)
      returns (r: LoadResult)
      requires Valid() && lib.Valid()
      modifies this`chartData, this`loadAttempts, this`renderAttempts, this`chartInstances, lib
      ensures Valid() && lib.Valid()
      ensures OneChartPerCanvas(old(lib.instances)) ==> OneChartPerCanvas(lib.instances)
      ensures old(loadAttempts) == MaxAttempts ==>
        && r == LoadRejected && loadAttempts == 0 && chartData == old(chartData)
        && renderAttempts == old(renderAttempts)
        && chartInstances == old(chartInstances) && lib.instances == old(lib.instances)
      ensures old(loadAttempts) < MaxAttempts && !dom.hasContainer ==>
        && r == LoadRejected && loadAttempts == old(loadAttempts) + 1 && chartData == old(chartData)
        && renderAttempts == old(renderAttempts)
        && chartInstances == old(chartInstances) && lib.instances == old(lib.instances)
      ensures old(loadAttempts) < MaxAttempts && dom.hasContainer ==>
        && r == Loaded(Tier(reply, dom, parse)) && loadAttempts == 0
        && chartData == TierData(reply, dom, parse)
        && RenderOutcome(old(renderAttempts), chartData, dom, lib.broken, old(chartInstances), old(lib.instances),
                         renderAttempts, chartInstances, lib.instances)
      // the placeholder, once drawn, changes the revenue entry and no other
      ensures r == Loaded(Placeholder) && old(renderAttempts) < MaxAttempts ==>
        OnlyRevenueDrawn(dom, lib.broken, old(chartInstances), chartInstances, lib.instances)
    {
      loadAttempts := loadAttempts + 1;
      if loadAttempts > MaxAttempts {
        loadAttempts := 0;
        return LoadRejected;
      }
      if !dom.hasContainer {
        return LoadRejected;
      }
      var fetched := FetchDataFromServer(reply, dom, lib);
      if fetched {
        loadAttempts := 0;
        return Loaded(Server);
      }
      loadAttempts := 0;
      var source := LoadFromPage(dom, lib, parse);
      r := Loaded(source);
    }

    /**
     * The fallback tiers of `loadChartData`: the page's embedded data when a
     * selector finds text that parses, the placeholder otherwise; either is
     * installed and rendered.
     */
    method LoadFromPage(dom: Dom, lib: ChartJs, parse: string -> Option<Snapshot>) returns (source: Source)
      requires Valid() && lib.Valid()
      modifies this`chartData, this`renderAttempts, this`chartInstances, lib
      ensures Valid() && lib.Valid()
      ensures OneChartPerCanvas(old(lib.instances)) ==> OneChartPerCanvas(lib.instances)
      ensures source == Tier(NoReply, dom, parse) && chartData == TierData(NoReply, dom, parse)
      ensures RenderOutcome(old(renderAttempts), chartData, dom, lib.broken, old(chartInstances), old(lib.instances),
                            renderAttempts, chartInstances, lib.instances)
      ensures source == Placeholder && old(renderAttempts) < MaxAttempts ==>
        OnlyRevenueDrawn(dom, lib.broken, old(chartInstances), chartInstances, lib.instances)
    {
      var text := FindGraphData(dom.nodes);
      source := Placeholder;
      if text != "" && parse(text).Some? {
        chartData := parse(text);
        source := Embedded;
      } else {
        chartData := Some(DummyChartData());
      }
      var _ := RenderCharts(dom, lib);
      if source == Placeholder && old(renderAttempts) < MaxAttempts {
        PlaceholderDrawsOnlyRevenue(dom, lib.broken, old(chartInstances), chartInstances, lib.instances);
      }
    }

    /**
     * `init`: returns at once when initialized; otherwise the attempt gate,
     * then Chart.js, a full cleanup and the data load. A failure reaches the
     * catch block, whose retry test throws: the attempt stays counted.
     */
    method Init(dom: Dom, lib: ChartJs, chartJsReady: bool, reply: Reply, parse: string -> Option<Snapshot>)
      returns (r: InitResult)
      requires Valid() && lib.Valid()
      modifies this`initialized, this`initAttempts, this`loadAttempts, this`renderAttempts, this`chartData,
               this`chartInstances, lib
      ensures Valid() && lib.Valid()
      ensures refreshing == old(refreshing)
      ensures old(initialized) ==> r == AlreadyInitialized && unchanged(this) && lib.instances == old(lib.instances)
      ensures !old(initialized) && old(initAttempts) == MaxAttempts ==>
        && r == GaveUp && initAttempts == 0 && !initialized && chartData == old(chartData)
        && loadAttempts == old(loadAttempts) && renderAttempts == old(renderAttempts)
        && chartInstances == old(chartInstances) && lib.instances == old(lib.instances)
      ensures !old(initialized) && old(initAttempts) < MaxAttempts && !chartJsReady ==>
        && r == Crashed && initAttempts == old(initAttempts) + 1 && !initialized && chartData == old(chartData)
        && loadAttempts == old(loadAttempts) && renderAttempts == old(renderAttempts)
        && chartInstances == old(chartInstances) && lib.instances == old(lib.instances)
      ensures !old(initialized) && old(initAttempts) < MaxAttempts && chartJsReady ==>
        && (r == Initialized <==> dom.hasContainer && old(loadAttempts) < MaxAttempts)
        && (r == Initialized ==> initialized && initAttempts == 0 && loadAttempts == 0
                                 && chartData == TierData(reply, dom, parse) && OneChartPerCanvas(lib.instances)
                                 // the load renders into the registry the cleanup emptied
                                 && RenderOutcome(old(renderAttempts), chartData, dom, lib.broken, map[], map[],
                                                  renderAttempts, chartInstances, lib.instances))
        && (r != Initialized ==> r == Crashed && !initialized && initAttempts == old(initAttempts) + 1
                                 && chartData == old(chartData) && renderAttempts == old(renderAttempts)
                                 && loadAttempts == (if old(loadAttempts) == MaxAttempts then 0 else old(loadAttempts) + 1)
                                 && chartInstances == map[] && lib.instances == map[])
    {
      if initialized {
        return AlreadyInitialized;
      }
      initAttempts := initAttempts + 1;
      if initAttempts > MaxAttempts {
        initAttempts := 0;
        return GaveUp;
      }
      if !chartJsReady {
        return Crashed;
      }
      var loaded := SetUpCharts(dom, lib, reply, parse);
      if loaded.LoadRejected? {
        return Crashed;
      }
      initialized := true;
      initAttempts := 0;
      r := Initialized;
    }

    /** The part of `init`'s `try` once Chart.js is there: a fresh registry, a full cleanup, the data load. */
    method SetUpCharts(dom: Dom, lib: ChartJs, reply: Reply, parse: string -> Option<Snapshot>) returns (loaded: LoadResult)
      requires Valid() && lib.Valid()
      modifies this`loadAttempts, this`renderAttempts, this`chartData, this`chartInstances, lib
      ensures Valid() && lib.Valid()
      ensures loaded.Loaded? <==> dom.hasContainer && old(loadAttempts) < MaxAttempts
      ensures loaded.Loaded? ==>
        && loadAttempts == 0 && chartData == TierData(reply, dom, parse) && OneChartPerCanvas(lib.instances)
        && RenderOutcome(old(renderAttempts), chartData, dom, lib.broken, map[], map[],
                         renderAttempts, chartInstances, lib.instances)
      ensures loaded.LoadRejected? ==>
        && chartData == old(chartData) && renderAttempts == old(renderAttempts)
        && loadAttempts == (if old(loadAttempts) == MaxAttempts then 0 else old(loadAttempts) + 1)
        && chartInstances == map[] && lib.instances == map[]
    {
      chartInstances := map[];
      var _ := CleanupAllChartInstances(lib);
      loaded := LoadChartData(dom, lib, reply, parse);
    }

    /** The synchronous start of `refreshAllCharts`: the guard, the flag, the backup copy. */
    method BeginRefresh() returns (started: bool, backup: Option<Snapshot>)
      modifies this`refreshing
      ensures started == !old(refreshing) && refreshing
      ensures backup == chartData
    {
      started := !refreshing;
      refreshing := true;
      backup := chartData;
    }

    /**
     * The rest of `refreshAllCharts`, once the server has answered: new data
     * and a render; on any failure the backup is put back and rendered, and
     * a render failure there is the fatal exit. The flag is cleared on every
     * exit.
     */
    method CompleteRefresh(backup: Option<Snapshot>, dom: Dom, lib: ChartJs, reply: Reply) returns (r: RefreshResult)
      requires Valid() && lib.Valid()
      modifies this`chartData, this`refreshing, this`renderAttempts, this`chartInstances, lib
      ensures Valid() && lib.Valid()
      ensures OneChartPerCanvas(old(lib.instances)) ==> OneChartPerCanvas(lib.instances)
      ensures !refreshing && r != AlreadyRefreshing
      ensures r == Refreshed <==> Accepted(reply) && reply.data.Some? && old(renderAttempts) < MaxAttempts
      ensures r == Refreshed ==> chartData == reply.data
      ensures r == RefreshCrashed <==>
        backup.Some? && (if Accepted(reply) then reply.data.None? && old(renderAttempts) == MaxAttempts - 1
                         else old(renderAttempts) == MaxAttempts)
      ensures r != Refreshed && backup.Some? ==> chartData == backup
      ensures r != Refreshed && backup.None? ==> chartData == (if Accepted(reply) then reply.data else old(chartData))
      // the registry: drawn from the new data, redrawn from the backup, or as it was
      ensures r == Refreshed ==>
        RenderOutcome(old(renderAttempts), reply.data, dom, lib.broken, old(chartInstances), old(lib.instances),
                      renderAttempts, chartInstances, lib.instances)
      ensures r != Refreshed && backup.Some? ==>
        RenderOutcome(CountBeforeRestore(old(renderAttempts), reply), backup, dom, lib.broken,
                      old(chartInstances), old(lib.instances), renderAttempts, chartInstances, lib.instances)
      ensures r != Refreshed && backup.None? ==>
        && renderAttempts == CountBeforeRestore(old(renderAttempts), reply)
        && chartInstances == old(chartInstances) && lib.instances == old(lib.instances)
    {
      var failed := true;
      if Accepted(reply) {
        chartData := reply.data;
        var rendered := RenderCharts(dom, lib);
        failed := rendered.RenderRejected?;
      }
      if !failed {
        refreshing := false;
        return Refreshed;
      }
      if backup.Some? {
        chartData := backup;
        var restored := RenderCharts(dom, lib);
        if restored.RenderRejected? {
          refreshing := false;
          return RefreshCrashed;
        }
      }
      refreshing := false;
      r := RefreshFailed;
    }

    /** `refreshAllCharts` with nothing interleaved between its start and the server's answer. */
    method RefreshAllCharts(dom: Dom, lib: ChartJs, reply: Reply) returns (r: RefreshResult)
      requires Valid() && lib.Valid()
      modifies this`chartData, this`refreshing, this`renderAttempts, this`chartInstances, lib
      ensures Valid() && lib.Valid()
      ensures OneChartPerCanvas(old(lib.instances)) ==> OneChartPerCanvas(lib.instances)
      ensures old(refreshing) ==> r == AlreadyRefreshing && unchanged(this) && lib.instances == old(lib.instances)
      ensures !old(refreshing) ==> !refreshing && r != AlreadyRefreshing
      ensures !old(refreshing) ==>
        (r == Refreshed <==> Accepted(reply) && reply.data.Some? && old(renderAttempts) < MaxAttempts)
      ensures !old(refreshing) && r == Refreshed ==> Accepted(reply) && chartData == reply.data
      ensures !old(refreshing) ==>
        (r == RefreshCrashed <==>
          old(chartData).Some? && (if Accepted(reply) then reply.data.None? && old(renderAttempts) == MaxAttempts - 1
                                   else old(renderAttempts) == MaxAttempts))
      ensures !old(refreshing) && r != Refreshed && old(chartData).Some? ==> chartData == old(chartData)
      ensures !old(refreshing) && r != Refreshed && old(chartData).None? ==>
        chartData == (if Accepted(reply) then reply.data else old(chartData))
      ensures !old(refreshing) && r == Refreshed ==>
        RenderOutcome(old(renderAttempts), reply.data, dom, lib.broken, old(chartInstances), old(lib.instances),
                      renderAttempts, chartInstances, lib.instances)
      ensures !old(refreshing) && r != Refreshed && old(chartData).Some? ==>
        RenderOutcome(CountBeforeRestore(old(renderAttempts), reply), old(chartData), dom, lib.broken,
                      old(chartInstances), old(lib.instances), renderAttempts, chartInstances, lib.instances)
      ensures !old(refreshing) && r != Refreshed && old(chartData).None? ==>
        && renderAttempts == CountBeforeRestore(old(renderAttempts), reply)
        && chartInstances == old(chartInstances) && lib.instances == old(lib.instances)
    {
      if refreshing {
        return AlreadyRefreshing;
      }
      var started, backup := BeginRefresh();
      r := CompleteRefresh(backup, dom, lib, reply);
    }
  }

  /** A refresh requested while another awaits the server returns at once and changes nothing. */
  method OverlappingRefreshes(c: LibraryDashboardController, dom: Dom, lib: ChartJs, first: Reply, second: Reply)
    returns (r1: RefreshResult, r2: RefreshResult)
    requires c.Valid() && lib.Valid() && !c.refreshing
    modifies c, lib
    ensures r2 == AlreadyRefreshing && r1 != AlreadyRefreshing && !c.refreshing
  {
    var started, backup := c.BeginRefresh();
    r2 := c.RefreshAllCharts(dom, lib, second);
    r1 := c.CompleteRefresh(backup, dom, lib, first);
  }

  /**
   * The retry branch of `init` never runs: with Chart.js missing, three calls
   * crash and leave the counter at 1, 2 and 3, and the fourth gives up and
   * resets it.
   */
  method InitGivesUpOnFourthCall(dom: Dom, lib: ChartJs, reply: Reply, parse: string -> Option<Snapshot>)
    returns (results: seq<InitResult>, c: LibraryDashboardController)
    requires lib.Valid()
    modifies lib
    ensures results == [Crashed, Crashed, Crashed, GaveUp] && c.initAttempts == 0 && !c.initialized
  {
    c := new LibraryDashboardController();
    var r1 := c.Init(dom, lib, false, reply, parse);
    assert c.initAttempts == 1;
    var r2 := c.Init(dom, lib, false, reply, parse);
    assert c.initAttempts == 2;
    var r3 := c.Init(dom, lib, false, reply, parse);
    assert c.initAttempts == 3;
    var r4 := c.Init(dom, lib, false, reply, parse);
    results := [r1, r2, r3, r4];
  }
}
