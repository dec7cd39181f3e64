/**
 * The chart builders of the simulations page, reduced to the data they
 * arrange: the legend, the category axis and the series (name, values and
 * colour), or the plotted points for the value-by-value charts. Axis titles,
 * grid margins, line widths and tooltips are styling and are not modelled.
 */
module SimulationCharts {
  import opened Wrappers
  import opened Text
  import opened SimulationData

  datatype Series = Series(name: string, data: seq<real>, color: Option<string>)

  /**
   * `Blank` is the `{}` a chart field starts with; `Categorical` charts have a
   * category axis (an empty legend stands for "no legend"); `PointPlot`
   * draws a single series of (x, y) pairs on two value axes.
   */
  datatype Chart =
    | Blank
    | Categorical(legend: seq<string>, categories: seq<string>, series: seq<Series>)
    | PointPlot(seriesName: string, points: seq<(real, real)>)

  /** Every series has one value per category, and a legend, when present, names the series in order. */
  ghost predicate WellFormed(c: Chart) {
    c.Categorical? ==>
      (forall k :: 0 <= k < |c.series| ==> |c.series[k].data| == |c.categories|) &&
      (c.legend == [] || (|c.legend| == |c.series| && forall k :: 0 <= k < |c.series| ==> c.legend[k] == c.series[k].name))
  }

  /** `getTimeSeriesChart`: one category per forecast point, labelled with its time. */
  function TimeSeriesChart(data: seq<ForecastPoint>): (c: Chart)
    ensures WellFormed(c)
    ensures c.Categorical? && c.legend == ["Actual", "ML Forecast"] && |c.series| == 2
    ensures |c.categories| == |data|
    ensures forall i :: 0 <= i < |data| ==>
              c.categories[i] == IntToDecimal(data[i].time) &&
              c.series[0].data[i] == data[i].actual && c.series[1].data[i] == data[i].predicted
  {
    Categorical(
      ["Actual", "ML Forecast"],
      seq(|data|, i requires 0 <= i < |data| => IntToDecimal(data[i].time)),
      [Series("Actual", seq(|data|, i requires 0 <= i < |data| => data[i].actual), Some("#0d9488")),
       Series("ML Forecast", seq(|data|, i requires 0 <= i < |data| => data[i].predicted), Some("#f59e0b"))])
  }

  /** Distinct times give distinct axis labels, so no two forecast points share a category. */
  lemma TimeSeriesLabelsDistinct(data: seq<ForecastPoint>, i: int, j: int)
    requires 0 <= i < j < |data| && data[i].time != data[j].time
    ensures TimeSeriesChart(data).categories[i] != TimeSeriesChart(data).categories[j]
  {
    IntToDecimalInjective(data[i].time, data[j].time);
  }

  /** `getBarChart`: Demand, Supply and Inventory bars per month. */
  function BarChart(data: seq<SimulationPoint>): (c: Chart)
    ensures WellFormed(c)
    ensures c.Categorical? && c.legend == ["Demand", "Supply", "Inventory"] && |c.series| == 3
    ensures |c.categories| == |data|
    ensures forall i :: 0 <= i < |data| ==>
              c.categories[i] == data[i].time && c.series[0].data[i] == data[i].demand &&
              c.series[1].data[i] == data[i].supply && c.series[2].data[i] == data[i].inventory
  {
    Categorical(
      ["Demand", "Supply", "Inventory"],
      seq(|data|, i requires 0 <= i < |data| => data[i].time),
      [Series("Demand", seq(|data|, i requires 0 <= i < |data| => data[i].demand), Some("#0d9488")),
       Series("Supply", seq(|data|, i requires 0 <= i < |data| => data[i].supply), Some("#f59e0b")),
       Series("Inventory", seq(|data|, i requires 0 <= i < |data| => data[i].inventory), Some("#3b82f6"))])
  }

  /** `getLogisticCurveChart`: the curve's points, unchanged and in order. */
  function LogisticCurveChart(points: seq<CurvePoint>): (c: Chart)
    ensures c.PointPlot? && c.seriesName == "Price Response" && |c.points| == |points|
    ensures forall i :: 0 <= i < |points| ==> c.points[i] == (points[i].x, points[i].y)
  {
    PointPlot("Price Response", seq(|points|, i requires 0 <= i < |points| => (points[i].x, points[i].y)))
  }

  /** `getScatterChart`: each point as (volume, quality). */
  function ScatterChart(points: seq<ScatterPoint>): (c: Chart)
    ensures c.PointPlot? && c.seriesName == "Data Points" && |c.points| == |points|
    ensures forall i :: 0 <= i < |points| ==> c.points[i] == (points[i].volume, points[i].quality)
  {
    PointPlot("Data Points", seq(|points|, i requires 0 <= i < |points| => (points[i].volume, points[i].quality)))
  }

  /** `getSensitivityChart`: one category per parameter change, with demand and supply lines. */
  function SensitivityChart(data: seq<SensitivityPoint>): (c: Chart)
    ensures WellFormed(c)
    ensures c.Categorical? && c.legend == ["Demand Sensitivity", "Supply Sensitivity"] && |c.series| == 2
    ensures |c.categories| == |data|
    ensures forall i :: 0 <= i < |data| ==>
              c.categories[i] == IntToDecimal(data[i].parameter) &&
              c.series[0].data[i] == data[i].demand && c.series[1].data[i] == data[i].supply
  {
    Categorical(
      ["Demand Sensitivity", "Supply Sensitivity"],
      seq(|data|, i requires 0 <= i < |data| => IntToDecimal(data[i].parameter)),
      [Series("Demand Sensitivity", seq(|data|, i requires 0 <= i < |data| => data[i].demand), Some("#0d9488")),
       Series("Supply Sensitivity", seq(|data|, i requires 0 <= i < |data| => data[i].supply), Some("#f59e0b"))])
  }

  /** `getFeatureImportanceChart`: one bar per feature, no legend. */
  function FeatureImportanceChart(items: seq<FeatureItem>): (c: Chart)
    ensures WellFormed(c)
    ensures c.Categorical? && c.legend == [] && |c.series| == 1 && c.series[0].name == "Importance Score"
    ensures |c.categories| == |items|
    ensures forall i :: 0 <= i < |items| ==> c.categories[i] == items[i].name && c.series[0].data[i] == items[i].value
  {
    Categorical(
      [],
      seq(|items|, i requires 0 <= i < |items| => items[i].name),
      [Series("Importance Score", seq(|items|, i requires 0 <= i < |items| => items[i].value), Some("#8b5cf6"))])
  }

  /** The comparison palette. */
  const ComparisonPalette: seq<string> := ["#2d6b6a", "#64748b", "#f97316"]

  /** `colors[idx]`: `undefined` past the end of the palette. */
  function PaletteColor(idx: nat): (r: Option<string>)
    ensures r.Some? <==> idx < |ComparisonPalette|
  {
    if idx < |ComparisonPalette| then Some(ComparisonPalette[idx]) else None
  }

  /** `getComparisonChart`: one line per simulation, named after it, coloured by its position. */
  function ComparisonChart(sims: seq<SavedSimulation>, times: seq<string>, field: Field): (c: Chart)
    ensures c.Categorical? && c.categories == times && |c.series| == |sims| && |c.legend| == |sims|
    ensures forall k :: 0 <= k < |sims| ==>
              c.legend[k] == sims[k].name &&
              c.series[k] == Series(sims[k].name, ResultsOf(sims[k].results, field), PaletteColor(k))
  {
    Categorical(
      seq(|sims|, k requires 0 <= k < |sims| => sims[k].name),
      times,
      seq(|sims|, k requires 0 <= k < |sims| => Series(sims[k].name, ResultsOf(sims[k].results, field), PaletteColor(k))))
  }

  /** When every simulation has one value per time, the comparison chart is well formed. */
  lemma ComparisonWellFormed(sims: seq<SavedSimulation>, times: seq<string>, field: Field)
    requires forall k :: 0 <= k < |sims| ==> |ResultsOf(sims[k].results, field)| == |times|
    ensures WellFormed(ComparisonChart(sims, times, field))
  {
  }

  /**
   * Up to three simulations (the selection cap) every line gets a colour of
   * its own; a fourth would get none.
   */
  lemma ComparisonColorsDistinct(sims: seq<SavedSimulation>, times: seq<string>, field: Field)
    ensures var c := ComparisonChart(sims, times, field);
            |sims| <= 3 ==>
              (forall k :: 0 <= k < |sims| ==> c.series[k].color.Some?) &&
              (forall k, l :: 0 <= k < l < |sims| ==> c.series[k].color != c.series[l].color)
    ensures |sims| > 3 ==> ComparisonChart(sims, times, field).series[3].color == None
  {
  }

  datatype HeatLevel = High | Medium | Low

  function HeatLevelColor(l: HeatLevel): string {
    match l
    case High => "#ef4444"
    case Medium => "#f59e0b"
    case Low => "#22c55e"
  }

  /** The thresholds of `getHeatmapColor`: above 0.7 high, above 0.4 medium, otherwise low. */
  function HeatLevelOf(value: real): (l: HeatLevel)
    ensures l == High <==> value > 0.7
    ensures l == Medium <==> 0.4 < value <= 0.7
    ensures l == Low <==> value <= 0.4
  {
    if value > 0.7 then High else if value > 0.4 then Medium else Low
  }

  /** `getHeatmapColor`. */
  function HeatmapColor(value: real): (r: string)
    ensures r == "#ef4444" <==> value > 0.7
    ensures r == "#f59e0b" <==> 0.4 < value <= 0.7
    ensures r == "#22c55e" <==> value <= 0.4
  {
    HeatLevelColor(HeatLevelOf(value))
  }

  function Rank(l: HeatLevel): int {
    match l
    case Low => 0
    case Medium => 1
    case High => 2
  }

  /** A larger value never gets a cooler colour. */
  lemma HeatLevelMonotone(v: real, w: real)
    requires v <= w
    ensures Rank(HeatLevelOf(v)) <= Rank(HeatLevelOf(w))
  {
  }

  /** `getConfusionMatrixColor`: green at (0, 0), teal on the rest of the diagonal, red off it. */
  function ConfusionMatrixColor(x: int, y: int): (r: string)
    ensures r == "#22c55e" <==> x == y == 0
    ensures r == "#0d9488" <==> x == y && x != 0
    ensures r == "#ef4444" <==> x != y
  {
    if x == y then (if x == 0 then "#22c55e" else "#0d9488") else "#ef4444"
  }

  /** The colouring only asks whether a cell is on the diagonal, so it is symmetric. */
  lemma ConfusionMatrixColorSymmetric(x: int, y: int)
    ensures ConfusionMatrixColor(x, y) == ConfusionMatrixColor(y, x)
  {
  }
}
