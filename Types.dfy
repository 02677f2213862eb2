/**
 * The dashboard's data model (src/types/index.ts). The closed string-literal
 * unions become enumerations, with the literal each variant is written as in
 * stored and exported JSON. A panel's payload becomes a sum type, but the
 * panel keeps its own type tag beside it: the source never ties the two
 * together and only checks the tag before casting, so `WellTagged` states the
 * agreement instead of the types enforcing it.
 */
module Types {
  import opened Wrappers

  /** `growthType` of a metric card. */
  datatype GrowthType = Positive | Negative | Neutral

  /** The kind of a chart (`ChartPanel.type`). */
  datatype ChartKind = Line | Bar

  /** The type tag of a panel (`PanelType`). */
  datatype PanelType = Metric | Chart

  /** One point of a chart's series; JavaScript numbers are modelled as reals. */
  datatype ChartDataPoint = ChartDataPoint(name: string, value: real)

  datatype MetricCard = MetricCard(
    id: string,
    title: string,
    value: string,
    unit: string,
    growth: string,
    growthType: GrowthType,
    icon: string)

  /** A chart payload; `kind` is the source's `type` and `points` its `data`. */
  datatype ChartPanel = ChartPanel(id: string, title: string, kind: ChartKind, points: seq<ChartDataPoint>)

  /** The payload of a panel, `MetricCard | ChartPanel`. */
  datatype PanelData = MetricData(metric: MetricCard) | ChartData(chart: ChartPanel)

  /** A panel; `tag` is the source's `type`. */
  datatype Panel = Panel(id: string, tag: PanelType, data: PanelData)

  function GrowthTypeName(g: GrowthType): string {
    match g
    case Positive => "positive"
    case Negative => "negative"
    case Neutral => "neutral"
  }

  /** Reads a `growthType` literal; exactly the three literals of the union are accepted. */
  function ParseGrowthType(s: string): (r: Option<GrowthType>)
    ensures r.Some? <==> s == "positive" || s == "negative" || s == "neutral"
    ensures r.Some? ==> GrowthTypeName(r.value) == s
  {
    if s == "positive" then Some(Positive)
    else if s == "negative" then Some(Negative)
    else if s == "neutral" then Some(Neutral)
    else None
  }

  lemma GrowthTypeRoundTrip(g: GrowthType)
    ensures ParseGrowthType(GrowthTypeName(g)) == Some(g)
  {
  }

  function ChartKindName(k: ChartKind): string {
    match k
    case Line => "line"
    case Bar => "bar"
  }

  /** Reads a chart `type` literal; exactly "line" and "bar" are accepted. */
  function ParseChartKind(s: string): (r: Option<ChartKind>)
    ensures r.Some? <==> s == "line" || s == "bar"
    ensures r.Some? ==> ChartKindName(r.value) == s
  {
    if s == "line" then Some(Line)
    else if s == "bar" then Some(Bar)
    else None
  }

  lemma ChartKindRoundTrip(k: ChartKind)
    ensures ParseChartKind(ChartKindName(k)) == Some(k)
  {
  }

  function PanelTypeName(t: PanelType): string {
    match t
    case Metric => "metric"
    case Chart => "chart"
  }

  /** Reads a `PanelType` literal; exactly "metric" and "chart" are accepted. */
  function ParsePanelType(s: string): (r: Option<PanelType>)
    ensures r.Some? <==> s == "metric" || s == "chart"
    ensures r.Some? ==> PanelTypeName(r.value) == s
  {
    if s == "metric" then Some(Metric)
    else if s == "chart" then Some(Chart)
    else None
  }

  lemma PanelTypeRoundTrip(t: PanelType)
    ensures ParsePanelType(PanelTypeName(t)) == Some(t)
  {
  }

  /** The tag that matches the shape of a payload. */
  function TagOf(d: PanelData): PanelType {
    match d
    case MetricData(_) => Metric
    case ChartData(_) => Chart
  }

  /** The `id` field every payload carries. */
  function DataId(d: PanelData): string {
    match d
    case MetricData(m) => m.id
    case ChartData(c) => c.id
  }

  /** `{ ...data, id }`: the payload with its `id` field overwritten and nothing else changed. */
  function WithId(d: PanelData, id: string): (r: PanelData)
    ensures DataId(r) == id && TagOf(r) == TagOf(d)
    ensures DataId(d) == id ==> r == d
  {
    match d
    case MetricData(m) => MetricData(m.(id := id))
    case ChartData(c) => ChartData(c.(id := id))
  }

  /** Stamping a payload and then stamping its old id back restores it: only `id` was touched. */
  lemma WithIdRestores(d: PanelData, id: string)
    ensures WithId(WithId(d, id), DataId(d)) == d
  {
  }

  /** The panel's tag agrees with the shape of its payload. */
  predicate WellTagged(p: Panel) {
    TagOf(p.data) == p.tag
  }

  /** Nothing ties a panel's tag to its payload: a chart-tagged panel may carry a metric payload. */
  lemma TagNotTiedToShape()
    ensures exists p: Panel :: !WellTagged(p)
  {
    var m := MetricCard("", "", "", "", "", Neutral, "");
    assert !WellTagged(Panel("", Chart, MetricData(m)));
  }

  /** The payload repeats the panel's id. */
  predicate IdInSync(p: Panel) {
    DataId(p.data) == p.id
  }
}
