/**
 * The panel editor (src/components/EditModal.tsx): an editing session holds
 * the active tab and two drafts, one per panel type. Opening the editor
 * initialises the drafts, the chart series is edited point by point, and
 * saving hands the active draft back, tagged with its type.
 */
module EditModal {
  import opened Wrappers
  import opened Types
  import opened Seqs

  /** The metric draft of a new panel, before its id is stamped. */
  const DefaultMetricData: MetricCard := MetricCard("", "", "", "", "", Neutral, "BarChart3")

  /** The chart draft of a new panel, before its id is stamped: a line chart over five years, all zero. */
  const DefaultChartData: ChartPanel := ChartPanel("", "", Line, [
    ChartDataPoint("2019", 0.0), ChartDataPoint("2020", 0.0), ChartDataPoint("2021", 0.0),
    ChartDataPoint("2022", 0.0), ChartDataPoint("2023", 0.0)])

  /** The point "add point" appends. */
  const BlankPoint: ChartDataPoint := ChartDataPoint("", 0.0)

  /** The least number of points the editor lets a series drop to. */
  const MinPoints: nat := 2

  /** updateChartDataPoint's `field` together with its `value`: a name is a string, a value a number. */
  datatype PointEdit = SetName(name: string) | SetValue(value: real)

  /** The series with one field of point `i` replaced. */
  function UpdatePoint(s: seq<ChartDataPoint>, i: int, e: PointEdit): (r: seq<ChartDataPoint>)
    requires 0 <= i < |s|
    ensures |r| == |s|
    ensures forall j :: 0 <= j < |s| && j != i ==> r[j] == s[j]
    ensures e.SetName? ==> r[i].name == e.name && r[i].value == s[i].value
    ensures e.SetValue? ==> r[i].value == e.value && r[i].name == s[i].name
  {
    s[i := match e
           case SetName(n) => s[i].(name := n)
           case SetValue(v) => s[i].(value := v)]
  }

  /** The series with a blank point appended. */
  function AddPoint(s: seq<ChartDataPoint>): (r: seq<ChartDataPoint>)
    ensures |r| == |s| + 1 && r[..|s|] == s && r[|s|] == BlankPoint
  {
    s + [BlankPoint]
  }

  /** The series without point `i`, unless it has no more than `MinPoints` points. */
  function RemovePoint(s: seq<ChartDataPoint>, i: int): (r: seq<ChartDataPoint>)
    ensures |r| == if |s| > MinPoints && 0 <= i < |s| then |s| - 1 else |s|
    ensures |s| >= MinPoints ==> |r| >= MinPoints
  {
    if |s| > MinPoints then RemoveIndex(s, i) else s
  }

  /**
   * Removing a point: with more than two points and `i` in range exactly
   * point `i` goes and the rest keep their order; otherwise nothing changes.
   * A series of at least two points never drops below two.
   */
  lemma RemovePointGuard(s: seq<ChartDataPoint>, i: int)
    ensures |s| > MinPoints && 0 <= i < |s| ==> RemovePoint(s, i) == s[..i] + s[i + 1..]
    ensures !(|s| > MinPoints && 0 <= i < |s|) ==> RemovePoint(s, i) == s
    ensures |s| >= MinPoints ==> |RemovePoint(s, i)| >= MinPoints
  {
    RemoveIndexIsSplice(s, i);
  }

  /** The default drafts: empty texts, neutral growth and the generic icon; five zero points named 2019 to 2023. */
  lemma DefaultDrafts()
    ensures DefaultMetricData.title == "" && DefaultMetricData.value == "" && DefaultMetricData.unit == ""
    ensures DefaultMetricData.growth == "" && DefaultMetricData.growthType == Neutral && DefaultMetricData.icon == "BarChart3"
    ensures DefaultChartData.title == "" && DefaultChartData.kind == Line && |DefaultChartData.points| == 5
    ensures forall j :: 0 <= j < 5 ==> DefaultChartData.points[j] == ChartDataPoint(["2019", "2020", "2021", "2022", "2023"][j], 0.0)
  {
  }

  /** The payload a session saves when `t` is the active tab: the draft of that type, whose shape matches `t`. */
  function Draft(t: PanelType, m: MetricCard, c: ChartPanel): (d: PanelData)
    ensures TagOf(d) == t
    ensures t == Metric ==> d.metric == m
    ensures t == Chart ==> d.chart == c
  {
    match t
    case Metric => MetricData(m)
    case Chart => ChartData(c)
  }

  /** The editor's state for one editing episode. */
  class EditSession {
    var activeTab: PanelType
    var metricData: MetricCard
    var chartData: ChartPanel

    /** The series has the number of points the editor keeps it at. */
    predicate SeriesValid()
      reads this
    {
      |chartData.points| >= MinPoints
    }

    /** The component's first render: the given tab and both default drafts. */
    constructor(initialType: PanelType)
      ensures activeTab == initialType && metricData == DefaultMetricData && chartData == DefaultChartData
      ensures SeriesValid()
    {
      activeTab := initialType;
      metricData := DefaultMetricData;
      chartData := DefaultChartData;
    }

    /**
     * The effect that runs when the editor opens. The tab becomes
     * `initialType`. With initial data, the draft of that type becomes the
     * data as given and the other draft is left as it was; without, both
     * drafts become defaults, each stamped with its own clock read. A closed
     * editor changes nothing.
     */
    method Open(isOpen: bool, initialData: Option<PanelData>, initialType: PanelType, clock1: string, clock2: string)
      modifies this
      ensures !isOpen ==> activeTab == old(activeTab) && metricData == old(metricData) && chartData == old(chartData)
      ensures isOpen ==> activeTab == initialType
      ensures isOpen && initialData.None? ==>
        metricData == DefaultMetricData.(id := clock1) && chartData == DefaultChartData.(id := clock2)
      ensures isOpen && initialData.Some? && initialData.value.MetricData? && initialType == Metric ==>
        metricData == initialData.value.metric && chartData == old(chartData)
      ensures isOpen && initialData.Some? && initialData.value.ChartData? && initialType == Chart ==>
        chartData == initialData.value.chart && metricData == old(metricData)
      ensures isOpen && initialData.Some? && TagOf(initialData.value) != initialType ==>
        metricData == old(metricData) && chartData == old(chartData)
    {
      if isOpen {
        activeTab := initialType;
        match initialData {
          case Some(d) =>
            match d {
              case MetricData(m) =>
                if initialType == Metric { metricData := m; }
              case ChartData(c) =>
                if initialType == Chart { chartData := c; }
            }
          case None =>
          metricData := DefaultMetricData.(id := clock1);
          chartData := DefaultChartData.(id := clock2);
        }
      }
    }

    /** Switching tabs. */
    method SelectTab(t: PanelType)
      modifies this`activeTab
      ensures activeTab == t
    {
      activeTab := t;
    }

    /** handleSave: the metric draft tagged metric when that tab is active, the chart draft tagged chart otherwise. */
    method HandleSave() returns (data: PanelData, t: PanelType)
      ensures t == activeTab && TagOf(data) == t
      ensures data == Draft(activeTab, metricData, chartData)
    {
      if activeTab == Metric {
        data, t := MetricData(metricData), Metric;
      } else {
        data, t := ChartData(chartData), Chart;
      }
    }

    /** updateChartDataPoint: one field of point `i` changes; the rest of both drafts stays. */
    method UpdateChartDataPoint(i: int, e: PointEdit)
      requires 0 <= i < |chartData.points|
      modifies this`chartData
      ensures chartData == old(chartData).(points := UpdatePoint(old(chartData.points), i, e))
      ensures old(SeriesValid()) ==> SeriesValid()
    {
      chartData := chartData.(points := UpdatePoint(chartData.points, i, e));
    }

    /** addChartDataPoint: a blank point is appended; the rest of both drafts stays. */
    method AddChartDataPoint()
      modifies this`chartData
      ensures chartData == old(chartData).(points := AddPoint(old(chartData.points)))
      ensures old(SeriesValid()) ==> SeriesValid()
    {
      chartData := chartData.(points := AddPoint(chartData.points));
    }

    /** removeChartDataPoint: point `i` goes unless that would leave too few; the rest of both drafts stays. */
    method RemoveChartDataPoint(i: int)
      modifies this`chartData
      ensures chartData == old(chartData).(points := RemovePoint(old(chartData.points), i))
      ensures old(SeriesValid()) ==> SeriesValid()
    {
      RemovePointGuard(chartData.points, i);
      if |chartData.points| > MinPoints {
        chartData := chartData.(points := RemoveIndex(chartData.points, i));
      }
    }
  }
}
