/**
 * The simulations page's record shapes and its constant sample tables: the
 * forecast series, the monthly demand/supply/inventory baseline that saved
 * simulations perturb, the sensitivity sweep and the feature importances.
 */
module SimulationData {
  import Routing

  datatype ForecastPoint = ForecastPoint(time: int, actual: real, predicted: real)

  datatype SimulationPoint = SimulationPoint(time: string, demand: real, supply: real, inventory: real)

  datatype SensitivityPoint = SensitivityPoint(parameter: int, demand: real, supply: real)

  datatype FeatureItem = FeatureItem(name: string, value: real)

  datatype ScatterPoint = ScatterPoint(volume: real, quality: real)

  datatype CurvePoint = CurvePoint(x: real, y: real)

  datatype HeatmapCell = HeatmapCell(x: int, y: int, value: real)

  datatype Parameters = Parameters(demandShift: real, supplyChange: real, priceFluctuation: real)

  datatype Results = Results(demand: seq<real>, supply: seq<real>, inventory: seq<real>)

  /** The three result series a comparison chart can show. */
  datatype Field = Demand | Supply | Inventory

  function ResultsOf(r: Results, f: Field): seq<real> {
    match f
    case Demand => r.demand
    case Supply => r.supply
    case Inventory => r.inventory
  }

  /** A saved run; `timestamp` is the clock reading in milliseconds since the epoch. */
  datatype SavedSimulation = SavedSimulation(
    id: string,
    name: string,
    sector: Routing.Sector,
    variable: string,
    month: string,
    year: string,
    timestamp: int,
    parameters: Parameters,
    results: Results)

  const SimulationVariables: seq<string> := [
    "Capture volume", "Imports", "Exports", "Quantity available for consumption",
    "Quantity consumed (kg or tons)", "Market price"
  ]

  const Months: seq<string> := [
    "January", "February", "March", "April", "May", "June",
    "July", "August", "September", "October", "November", "December"
  ]

  const Years: seq<string> := ["2024", "2023", "2022", "2021", "2020"]

  const VisualizationTypes: seq<string> := [
    "Time Series", "Bar Chart", "Logistic Curve", "Confusion Matrix",
    "Scatter Plot", "Heatmap", "Sensitivity Line Plot"
  ]

  const ForecastData: seq<ForecastPoint> := [
    ForecastPoint(0, 5.0, 5.0),
    ForecastPoint(5, 5.3, 5.2),
    ForecastPoint(10, 5.8, 5.7),
    ForecastPoint(15, 6.1, 6.0),
    ForecastPoint(20, 6.3, 6.2),
    ForecastPoint(25, 6.4, 6.3),
    ForecastPoint(30, 5.8, 5.9),
    ForecastPoint(35, 5.0, 5.2),
    ForecastPoint(40, 4.2, 4.5),
    ForecastPoint(45, 4.0, 4.2),
    ForecastPoint(50, 4.5, 4.6),
    ForecastPoint(55, 4.8, 4.9),
    ForecastPoint(60, 4.6, 4.7)
  ]

  const SimulationBaseline: seq<SimulationPoint> := [
    SimulationPoint("Jan", 60.0, 55.0, 45.0),
    SimulationPoint("Feb", 65.0, 58.0, 43.0),
    SimulationPoint("Mar", 68.0, 62.0, 41.0),
    SimulationPoint("Apr", 72.0, 65.0, 39.0),
    SimulationPoint("May", 75.0, 68.0, 37.0),
    SimulationPoint("Jun", 78.0, 72.0, 35.0),
    SimulationPoint("Jul", 82.0, 75.0, 33.0),
    SimulationPoint("Aug", 85.0, 78.0, 31.0),
    SimulationPoint("Sep", 88.0, 82.0, 29.0),
    SimulationPoint("Oct", 90.0, 85.0, 28.0),
    SimulationPoint("Nov", 92.0, 88.0, 27.0),
    SimulationPoint("Dec", 95.0, 90.0, 26.0)
  ]

  const SensitivityData: seq<SensitivityPoint> := [
    SensitivityPoint(-20, 52.0, 48.0),
    SensitivityPoint(-15, 56.0, 51.0),
    SensitivityPoint(-10, 60.0, 55.0),
    SensitivityPoint(-5, 64.0, 59.0),
    SensitivityPoint(0, 68.0, 62.0),
    SensitivityPoint(5, 72.0, 66.0),
    SensitivityPoint(10, 76.0, 70.0),
    SensitivityPoint(15, 80.0, 74.0),
    SensitivityPoint(20, 84.0, 78.0)
  ]

  const FeatureImportanceData: seq<FeatureItem> := [
    FeatureItem("\U{0394}Sea Temp", 0.24),
    FeatureItem("\U{0394}Chlorophyll", 0.21),
    FeatureItem("\U{0394}Landings", 0.18),
    FeatureItem("\U{0394}Inventory", 0.15),
    FeatureItem("\U{0394}Imports", 0.12)
  ]

  /** The month labels of the baseline, the x-axis of every comparison chart. */
  function BaselineTimes(): (r: seq<string>)
    ensures |r| == |SimulationBaseline|
    ensures forall i :: 0 <= i < |r| ==> r[i] == SimulationBaseline[i].time
  {
    seq(|SimulationBaseline|, i requires 0 <= i < |SimulationBaseline| => SimulationBaseline[i].time)
  }
}
