/**
 * The simulations page: the saved-simulation list, the comparison selection
 * (at most three ids), the save / duplicate / delete handlers, and which
 * chart the main panel and the comparison panels show.
 *
 * The clock (`Date.now()`, `new Date()`) and `Math.random()` are parameters:
 * `now` is a millisecond reading, and `Draws` holds the random numbers a
 * save consumes, each in [0, 1).
 */
module Simulations {
  import opened Wrappers
  import opened Seqs
  import opened Text
  import opened Routing
  import opened SimulationData
  import opened SimulationCharts

  // ------------------------------------------------------ comparison selection

  /** The comparison selection never holds more ids than this. */
  const MaxSelected: int := 3

  function Unequal(id: string): string -> bool {
    x => x != id
  }

  /**
   * `toggleSimulationSelection` on the id list: a selected id is removed, a new
   * one is appended while fewer than three are selected, otherwise nothing
   * changes.
   */
  function ToggleSelection(ids: seq<string>, id: string): (r: seq<string>)
    ensures id in r <==> id !in ids && |ids| < MaxSelected
    ensures forall x :: x != id ==> (x in r <==> x in ids)
  {
    if id in ids then Filter(ids, Unequal(id))
    else if |ids| < MaxSelected then ids + [id]
    else ids
  }

  /** The selection invariant: at most three ids, none twice. */
  lemma ToggleKeepsSelectionValid(ids: seq<string>, id: string)
    requires |ids| <= MaxSelected && NoDup(ids)
    ensures |ToggleSelection(ids, id)| <= MaxSelected && NoDup(ToggleSelection(ids, id))
  {
    if id in ids {
      FilterNoDup(ids, Unequal(id));
    }
  }

  /** Selecting a new id and toggling it again restores the selection exactly. */
  lemma ToggleTwiceRestores(ids: seq<string>, id: string)
    requires id !in ids && |ids| < MaxSelected
    ensures ToggleSelection(ToggleSelection(ids, id), id) == ids
  {
    FilterAppend(ids, [id], Unequal(id));
    FilterAll(ids, Unequal(id));
    assert [id][1..] == [];
  }

  // ------------------------------------------------------------ saved list

  /** Ids of saved simulations are distinct (true whenever no two saves share a clock reading). */
  ghost predicate UniqueSimIds(saved: seq<SavedSimulation>) {
    forall i, j :: 0 <= i < j < |saved| ==> saved[i].id != saved[j].id
  }

  function WithoutSim(id: string): SavedSimulation -> bool {
    (s: SavedSimulation) => s.id != id
  }

  function HasSelectedId(ids: seq<string>): SavedSimulation -> bool {
    (s: SavedSimulation) => s.id in ids
  }

  /** The saved simulations whose id is selected, in saved-list order. */
  function SelectedSimulations(saved: seq<SavedSimulation>, ids: seq<string>): (r: seq<SavedSimulation>)
    ensures forall k :: 0 <= k < |r| ==> r[k] in saved && r[k].id in ids
    ensures forall k :: 0 <= k < |saved| && saved[k].id in ids ==> saved[k] in r
    ensures |saved| == 1 ==> r == if saved[0].id in ids then saved else []
  {
    Filter(saved, HasSelectedId(ids))
  }

  /**
   * Selecting from two lists one after the other selects from each and keeps
   * them in that order: the comparison lines follow the saved-list order.
   */
  lemma SelectedSimulationsAppend(a: seq<SavedSimulation>, b: seq<SavedSimulation>, ids: seq<string>)
    ensures SelectedSimulations(a + b, ids) == SelectedSimulations(a, ids) + SelectedSimulations(b, ids)
  {
    FilterAppend(a, b, HasSelectedId(ids));
  }

  /**
   * With distinct saved ids, no more simulations are charted than ids are
   * selected, so the selection cap keeps the comparison within the palette.
   */
  lemma SelectedWithinCap(saved: seq<SavedSimulation>, ids: seq<string>)
    requires UniqueSimIds(saved)
    ensures |SelectedSimulations(saved, ids)| <= |ids|
  {
    var sel := SelectedSimulations(saved, ids);
    FilterNoDup(saved, HasSelectedId(ids));
    var selIds := seq(|sel|, k requires 0 <= k < |sel| => sel[k].id);
    forall k, l | 0 <= k < l < |sel| ensures selIds[k] != selIds[l] {
      var i :| 0 <= i < |saved| && saved[i] == sel[k];
      var j :| 0 <= j < |saved| && saved[j] == sel[l];
      assert i != j;
    }
    DistinctWithinIsShorter(selIds, ids);
  }

  /** The three comparison charts of the page. */
  datatype ComparisonCharts = ComparisonCharts(demand: Chart, supply: Chart, inventory: Chart)

  function ChartOf(c: ComparisonCharts, f: Field): Chart {
    match f
    case Demand => c.demand
    case Supply => c.supply
    case Inventory => c.inventory
  }

  /** `updateComparisonCharts`: below two selections the charts are left as they were. */
  function ComparisonChartsFor(saved: seq<SavedSimulation>, ids: seq<string>, current: ComparisonCharts): (r: ComparisonCharts)
    ensures |ids| < 2 ==> r == current
    ensures |ids| >= 2 ==> forall f :: ChartOf(r, f) == ComparisonChart(SelectedSimulations(saved, ids), BaselineTimes(), f)
  {
    if |ids| < 2 then current
    else
      var sims := SelectedSimulations(saved, ids);
      var times := BaselineTimes();
      ComparisonCharts(ComparisonChart(sims, times, Demand), ComparisonChart(sims, times, Supply),
                       ComparisonChart(sims, times, Inventory))
  }

  /**
   * With a valid selection and distinct saved ids, every line of every
   * comparison chart has a palette colour, and no two lines share one.
   */
  lemma ComparisonLinesDistinctlyColoured(saved: seq<SavedSimulation>, ids: seq<string>, current: ComparisonCharts, f: Field)
    requires UniqueSimIds(saved) && 2 <= |ids| <= MaxSelected
    ensures var c := ChartOf(ComparisonChartsFor(saved, ids, current), f);
            c.Categorical? &&
            (forall k :: 0 <= k < |c.series| ==> c.series[k].color.Some?) &&
            (forall k, l :: 0 <= k < l < |c.series| ==> c.series[k].color != c.series[l].color)
  {
    SelectedWithinCap(saved, ids);
    ComparisonColorsDistinct(SelectedSimulations(saved, ids), BaselineTimes(), f);
  }

  // ------------------------------------------------------------- main chart

  /** `updateMainChart`: five named visualisations; every other name shows the time series. */
  function MainChartFor(visualization: string, scatter: seq<ScatterPoint>, curve: seq<CurvePoint>): (c: Chart)
    ensures c == TimeSeriesChart(ForecastData) <==>
            visualization !in ["Bar Chart", "Logistic Curve", "Scatter Plot", "Sensitivity Line Plot"]
  {
    if visualization == "Time Series" then TimeSeriesChart(ForecastData)
    else if visualization == "Bar Chart" then BarChart(SimulationBaseline)
    else if visualization == "Logistic Curve" then LogisticCurveChart(curve)
    else if visualization == "Scatter Plot" then ScatterChart(scatter)
    else if visualization == "Sensitivity Line Plot" then SensitivityChart(SensitivityData)
    else TimeSeriesChart(ForecastData)
  }

  /** The two offered visualisations without a builder of their own fall back to the time series. */
  lemma UnbuiltVisualizationsFallBack(scatter: seq<ScatterPoint>, curve: seq<CurvePoint>)
    ensures "Confusion Matrix" in VisualizationTypes && "Heatmap" in VisualizationTypes
    ensures MainChartFor("Confusion Matrix", scatter, curve) == TimeSeriesChart(ForecastData)
    ensures MainChartFor("Heatmap", scatter, curve) == TimeSeriesChart(ForecastData)
  {
    assert VisualizationTypes[3] == "Confusion Matrix" && VisualizationTypes[5] == "Heatmap";
  }

  // ------------------------------------------------------- save and duplicate

  /** The random numbers one save consumes: three for the parameters, one per month for each series. */
  datatype Draws = Draws(
    demandShift: real, supplyChange: real, priceFluctuation: real,
    demand: seq<real>, supply: seq<real>, inventory: seq<real>)

  /** The number of months in the baseline, one random draw per month and series. */
  const BaselineMonths: nat := 12

  predicate CoversBaseline(d: Draws) {
    |d.demand| == BaselineMonths && |d.supply| == BaselineMonths && |d.inventory| == BaselineMonths
  }

  ghost predicate UnitDraws(d: Draws) {
    0.0 <= d.demandShift < 1.0 && 0.0 <= d.supplyChange < 1.0 && 0.0 <= d.priceFluctuation < 1.0 &&
    (forall i :: 0 <= i < |d.demand| ==> 0.0 <= d.demand[i] < 1.0) &&
    (forall i :: 0 <= i < |d.supply| ==> 0.0 <= d.supply[i] < 1.0) &&
    (forall i :: 0 <= i < |d.inventory| ==> 0.0 <= d.inventory[i] < 1.0)
  }

  /** `Math.random() * width - width / 2`: a unit draw spread over [-width/2, width/2). */
  function Centered(draw: real, width: real): (r: real)
    ensures 0.0 <= draw < 1.0 && width > 0.0 ==> -width / 2.0 <= r < width / 2.0
  {
    draw * width - width / 2.0
  }

  /** `(Math.random() - 0.5) * spread` lies in [-spread/2, spread/2). */
  lemma OffsetBound(draw: real, spread: real)
    requires 0.0 <= draw < 1.0 && spread > 0.0
    ensures -spread / 2.0 <= (draw - 0.5) * spread < spread / 2.0
  {
    assert (draw - 0.5) * spread == draw * spread - spread / 2.0;
  }

  /** `base.map((b, i) => b + (draw_i - 0.5) * spread)`: each value within half a spread of its base. */
  function Perturb(base: seq<real>, draws: seq<real>, spread: real): (r: seq<real>)
    requires |draws| == |base|
    ensures |r| == |base|
    ensures forall i :: 0 <= i < |base| && 0.0 <= draws[i] < 1.0 && spread > 0.0 ==>
              base[i] - spread / 2.0 <= r[i] < base[i] + spread / 2.0
  {
    var r := seq(|base|, i requires 0 <= i < |base| => base[i] + (draws[i] - 0.5) * spread);
    assert forall i :: 0 <= i < |base| && 0.0 <= draws[i] < 1.0 && spread > 0.0 ==>
             base[i] - spread / 2.0 <= r[i] < base[i] + spread / 2.0 by {
      forall i | 0 <= i < |base| && 0.0 <= draws[i] < 1.0 && spread > 0.0 {
        OffsetBound(draws[i], spread);
      }
    }
    r
  }

  function BaselineDemand(): (r: seq<real>)
    ensures |r| == BaselineMonths
  {
    seq(|SimulationBaseline|, i requires 0 <= i < |SimulationBaseline| => SimulationBaseline[i].demand)
  }

  function BaselineSupply(): (r: seq<real>)
    ensures |r| == BaselineMonths
  {
    seq(|SimulationBaseline|, i requires 0 <= i < |SimulationBaseline| => SimulationBaseline[i].supply)
  }

  function BaselineInventory(): (r: seq<real>)
    ensures |r| == BaselineMonths
  {
    seq(|SimulationBaseline|, i requires 0 <= i < |SimulationBaseline| => SimulationBaseline[i].inventory)
  }

  /** `sim-${Date.now()}`. */
  function SimId(now: nat): string {
    "sim-" + NatToDecimal(now)
  }

  /** Saves at different clock readings get different ids. */
  lemma SimIdInjective(m: nat, n: nat)
    requires m != n
    ensures SimId(m) != SimId(n)
  {
    NatToDecimalInjective(m, n);
    assert SimId(m)[4..] == NatToDecimal(m);
    assert SimId(n)[4..] == NatToDecimal(n);
  }

  /** The record `onSaveSimulation` appends. */
  function NewSimulation(now: nat, timestamp: int, name: string, sector: Sector, variable: string,
                         month: string, year: string, d: Draws): (s: SavedSimulation)
    requires CoversBaseline(d)
    ensures s.id == SimId(now) && s.name == name && s.sector == sector && s.variable == variable &&
            s.month == month && s.year == year && s.timestamp == timestamp
    ensures forall f :: |ResultsOf(s.results, f)| == BaselineMonths
  {
    SavedSimulation(
      SimId(now), name, sector, variable, month, year, timestamp,
      Parameters(Centered(d.demandShift, 10.0), Centered(d.supplyChange, 8.0), Centered(d.priceFluctuation, 6.0)),
      Results(Perturb(BaselineDemand(), d.demand, 10.0), Perturb(BaselineSupply(), d.supply, 10.0),
              Perturb(BaselineInventory(), d.inventory, 8.0)))
  }

  /**
   * A saved run stays close to the baseline: demand and supply within 5 of
   * each month's value, inventory within 4, and the parameters within
   * +-5, +-4 and +-3.
   */
  lemma NewSimulationNearBaseline(now: nat, timestamp: int, name: string, sector: Sector, variable: string,
                                  month: string, year: string, d: Draws, i: int)
    requires CoversBaseline(d) && UnitDraws(d) && 0 <= i < |SimulationBaseline|
    ensures var s := NewSimulation(now, timestamp, name, sector, variable, month, year, d);
            var b := SimulationBaseline[i];
            b.demand - 5.0 <= s.results.demand[i] < b.demand + 5.0 &&
            b.supply - 5.0 <= s.results.supply[i] < b.supply + 5.0 &&
            b.inventory - 4.0 <= s.results.inventory[i] < b.inventory + 4.0 &&
            -5.0 <= s.parameters.demandShift < 5.0 && -4.0 <= s.parameters.supplyChange < 4.0 &&
            -3.0 <= s.parameters.priceFluctuation < 3.0
  {
  }

  /** A name that is empty or all whitespace. */
  predicate IsBlank(name: string) {
    forall i :: 0 <= i < |name| ==> IsJsWhitespace(name[i])
  }

  /** `!name.trim()` holds exactly for the blank names. */
  lemma IsBlankIff(name: string)
    ensures Trim(name) == [] <==> IsBlank(name)
  {
    TrimEmptyIff(name);
  }

  /** The copy `onDuplicateSimulation` appends: a fresh id, the name marked as a copy, a new timestamp. */
  function Duplicate(sim: SavedSimulation, now: nat, timestamp: int): (d: SavedSimulation)
    ensures d.id == SimId(now) && d.name == sim.name + " (Copy)" && d.timestamp == timestamp
    ensures d.(id := sim.id, name := sim.name, timestamp := sim.timestamp) == sim
  {
    sim.(id := SimId(now), name := sim.name + " (Copy)", timestamp := timestamp)
  }

  // ----------------------------------------------------------- the component

  /** Every field of the component, for stating a handler's whole effect at once. */
  datatype PageState = PageState(
    sector: Sector,
    activeTab: string,
    selectedVariable: string,
    selectedMonth: string,
    selectedYear: string,
    selectedVisualization: string,
    savedSimulations: seq<SavedSimulation>,
    selectedSimulationIds: seq<string>,
    showUploadDialog: bool,
    showSaveDialog: bool,
    simulationName: string,
    mainChart: Chart,
    featureImportanceChart: Chart,
    comparisonCharts: ComparisonCharts,
    heatmapData: seq<HeatmapCell>,
    scatterData: seq<ScatterPoint>,
    logisticCurveData: seq<CurvePoint>)

  const InitialState: PageState := PageState(
    Grain, "simulations", "Capture volume", "January", "2024", "Time Series",
    [], [], false, false, "", Blank, Blank, ComparisonCharts(Blank, Blank, Blank), [], [], [])

  class SimulationsComponent {
    var sector: Sector
    var activeTab: string
    var selectedVariable: string
    var selectedMonth: string
    var selectedYear: string
    var selectedVisualization: string
    var savedSimulations: seq<SavedSimulation>
    var selectedSimulationIds: seq<string>
    var showUploadDialog: bool
    var showSaveDialog: bool
    var simulationName: string
    var mainChart: Chart
    var featureImportanceChart: Chart
    var comparisonCharts: ComparisonCharts
    var heatmapData: seq<HeatmapCell>
    var scatterData: seq<ScatterPoint>
    var logisticCurveData: seq<CurvePoint>

    ghost function State(): PageState
      reads this
    {
      PageState(sector, activeTab, selectedVariable, selectedMonth, selectedYear, selectedVisualization,
                savedSimulations, selectedSimulationIds, showUploadDialog, showSaveDialog, simulationName,
                mainChart, featureImportanceChart, comparisonCharts, heatmapData, scatterData, logisticCurveData)
    }

    /** The selection cap and duplicate-freedom of the comparison selection. */
    ghost predicate Valid()
      reads this
    {
      |selectedSimulationIds| <= MaxSelected && NoDup(selectedSimulationIds)
    }

    constructor()
      ensures Valid() && State() == InitialState
    {
      sector, activeTab := Grain, "simulations";
      selectedVariable, selectedMonth, selectedYear, selectedVisualization := "Capture volume", "January", "2024", "Time Series";
      savedSimulations, selectedSimulationIds := [], [];
      showUploadDialog, showSaveDialog, simulationName := false, false, "";
      mainChart, featureImportanceChart, comparisonCharts := Blank, Blank, ComparisonCharts(Blank, Blank, Blank);
      heatmapData, scatterData, logisticCurveData := [], [], [];
    }

    /** `ngOnInit`: resolve the sector, take the generated sample data, build every chart. */
    method NgOnInit(routeSector: Option<Sector>, currentSector: Option<Sector>,
                    heatmap: seq<HeatmapCell>, scatter: seq<ScatterPoint>, curve: seq<CurvePoint>)
      modifies this
      ensures State() == old(State()).(
                sector := ResolveSector(routeSector, currentSector),
                heatmapData := heatmap, scatterData := scatter, logisticCurveData := curve,
                mainChart := MainChartFor(old(selectedVisualization), scatter, curve),
                featureImportanceChart := FeatureImportanceChart(FeatureImportanceData),
                comparisonCharts := ComparisonChartsFor(old(savedSimulations), old(selectedSimulationIds), old(comparisonCharts)))
    {
      sector := ResolveSector(routeSector, currentSector);
      GenerateSampleData(heatmap, scatter, curve);
      UpdateCharts();
    }

    /** `generateSampleData`, with the generators' random output passed in. */
    method GenerateSampleData(heatmap: seq<HeatmapCell>, scatter: seq<ScatterPoint>, curve: seq<CurvePoint>)
      modifies this
      ensures State() == old(State()).(heatmapData := heatmap, scatterData := scatter, logisticCurveData := curve)
    {
      heatmapData, scatterData, logisticCurveData := heatmap, scatter, curve;
    }

    method UpdateCharts()
      modifies this
      ensures State() == old(State()).(
                mainChart := MainChartFor(selectedVisualization, scatterData, logisticCurveData),
                featureImportanceChart := FeatureImportanceChart(FeatureImportanceData),
                comparisonCharts := ComparisonChartsFor(savedSimulations, selectedSimulationIds, old(comparisonCharts)))
    {
      UpdateMainChart();
      UpdateFeatureImportanceChart();
      UpdateComparisonCharts();
    }

    method UpdateMainChart()
      modifies this
      ensures State() == old(State()).(mainChart := MainChartFor(selectedVisualization, scatterData, logisticCurveData))
    {
      mainChart := MainChartFor(selectedVisualization, scatterData, logisticCurveData);
    }

    method UpdateFeatureImportanceChart()
      modifies this
      ensures State() == old(State()).(featureImportanceChart := FeatureImportanceChart(FeatureImportanceData))
    {
      featureImportanceChart := FeatureImportanceChart(FeatureImportanceData);
    }

    method UpdateComparisonCharts()
      modifies this
      ensures State() == old(State()).(
                comparisonCharts := ComparisonChartsFor(savedSimulations, selectedSimulationIds, old(comparisonCharts)))
    {
      if |selectedSimulationIds| < 2 {
        return;
      }
      var sims := SelectedSimulations(savedSimulations, selectedSimulationIds);
      var times := BaselineTimes();
      comparisonCharts := ComparisonCharts(ComparisonChart(sims, times, Demand), ComparisonChart(sims, times, Supply),
                                           ComparisonChart(sims, times, Inventory));
    }

    method OnTabChange(tab: string)
      modifies this
      ensures State() == old(State()).(activeTab := tab)
    {
      activeTab := tab;
    }

    /** `onSectorChange`: the navigation it triggers is not modelled. */
    method OnSectorChange(newSector: Sector)
      modifies this
      ensures State() == old(State()).(sector := newSector)
    {
      sector := newSector;
    }

    method OnVisualizationChange(visualization: string)
      modifies this
      ensures State() == old(State()).(
                selectedVisualization := visualization,
                mainChart := MainChartFor(visualization, scatterData, logisticCurveData))
    {
      selectedVisualization := visualization;
      UpdateMainChart();
    }

    method OnRunSimulation()
      modifies this
      ensures State() == old(State()).(showSaveDialog := true)
    {
      showSaveDialog := true;
    }

    /**
     * `onSaveSimulation`: nothing happens for a blank name; otherwise one
     * simulation is appended and the dialog is cleared and closed.
     */
    method OnSaveSimulation(now: nat, timestamp: int, draws: Draws)
      requires CoversBaseline(draws)
      modifies this
      ensures IsBlank(old(simulationName)) ==> State() == old(State())
      ensures !IsBlank(old(simulationName)) ==>
                State() == old(State()).(
                  savedSimulations := old(savedSimulations) +
                    [NewSimulation(now, timestamp, old(simulationName), old(sector), old(selectedVariable),
                                   old(selectedMonth), old(selectedYear), draws)],
                  simulationName := "",
                  showSaveDialog := false)
    {
      var name := simulationName;
      if IsBlank(name) {
        return;
      }
      var sim := NewSimulation(now, timestamp, name, sector, selectedVariable, selectedMonth, selectedYear, draws);
      savedSimulations, simulationName, showSaveDialog := savedSimulations + [sim], "", false;
    }

    /** `onDeleteSimulation`: drop the id from both lists, then refresh the comparison. */
    method OnDeleteSimulation(id: string)
      requires Valid()
      modifies this
      ensures Valid()
      ensures State() == old(State()).(
                savedSimulations := Filter(old(savedSimulations), WithoutSim(id)),
                selectedSimulationIds := Filter(old(selectedSimulationIds), Unequal(id)),
                comparisonCharts := ComparisonChartsFor(Filter(old(savedSimulations), WithoutSim(id)),
                                                        Filter(old(selectedSimulationIds), Unequal(id)),
                                                        old(comparisonCharts)))
    {
      FilterNoDup(selectedSimulationIds, Unequal(id));
      savedSimulations := Filter(savedSimulations, WithoutSim(id));
      selectedSimulationIds := Filter(selectedSimulationIds, Unequal(id));
      UpdateComparisonCharts();
    }

    method OnDuplicateSimulation(simulation: SavedSimulation, now: nat, timestamp: int)
      modifies this
      ensures State() == old(State()).(savedSimulations := old(savedSimulations) + [Duplicate(simulation, now, timestamp)])
    {
      savedSimulations := savedSimulations + [Duplicate(simulation, now, timestamp)];
    }

    method ToggleSimulationSelection(id: string)
      requires Valid()
      modifies this
      ensures Valid()
      ensures IsSimulationSelected(id) <==> !old(IsSimulationSelected(id)) && |old(selectedSimulationIds)| < MaxSelected
      ensures State() == old(State()).(
                selectedSimulationIds := ToggleSelection(old(selectedSimulationIds), id),
                comparisonCharts := ComparisonChartsFor(old(savedSimulations), ToggleSelection(old(selectedSimulationIds), id),
                                                        old(comparisonCharts)))
    {
      ToggleKeepsSelectionValid(selectedSimulationIds, id);
      selectedSimulationIds := ToggleSelection(selectedSimulationIds, id);
      UpdateComparisonCharts();
    }

    /**
     * A checked row: its saved simulations are exactly those among the saved
     * simulations whose id is selected.
     */
    function IsSimulationSelected(id: string): (r: bool)
      reads this
      ensures r ==> forall s :: s in savedSimulations && s.id == id ==>
                      s in SelectedSimulations(savedSimulations, selectedSimulationIds)
      ensures !r ==> forall s :: s in savedSimulations && s.id == id ==>
                       s !in SelectedSimulations(savedSimulations, selectedSimulationIds)
    {
      id in selectedSimulationIds
    }

    method CloseSaveDialog()
      modifies this
      ensures State() == old(State()).(showSaveDialog := false, simulationName := "")
    {
      showSaveDialog := false;
      simulationName := "";
    }

    method CloseUploadDialog()
      modifies this
      ensures State() == old(State()).(showUploadDialog := false)
    {
      showUploadDialog := false;
    }

    /** `onFileUpload`: only the number of chosen files matters; the dialog closes when there is one. */
    method OnFileUpload(fileCount: nat)
      modifies this
      ensures fileCount > 0 ==> State() == old(State()).(showUploadDialog := false)
      ensures fileCount == 0 ==> State() == old(State())
    {
      if fileCount > 0 {
        showUploadDialog := false;
      }
    }
  }
}
