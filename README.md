# SecureFood supply-chain dashboard: a Dafny model of its view-model logic

This project models the deterministic view-model code of an Angular dashboard.
The dashboard shows three food supply chains (grain in Ukraine, fruits and
vegetables in Portugal, fish in Greece), a simulations page and a reports page.
The modelled parts are:

- **The three case-study diagrams** (`grain.dfy`, `fish.dfy`, `fruits.dfy`, with
  the logic they share in `supply_chain.dfy`).
  - Each holds a constant node table, a connection list and, for grain and
    fish, named routes through the chain.
  - Selecting a route or a node toggles it; hovering sets the hovered node.
  - Zoom is clamped to [0.5, 1.5].
  - A connection is emphasised when its endpoints are neighbours on the
    selected route (grain, fish) or touch the selected node (fruits). That
    decides its opacity and stroke width.
  - Each connector is drawn as a straight line, a rounded elbow, a quadratic
    arc or the default cubic curve. The model keeps its segments and their
    real coordinates, not the SVG text.
  - Each component is a class with the source's fields. Its handlers are
    methods that state the whole new state.
- **Routing helpers** (`routing.dfy`): URL generation, the sector to use-case-id
  mapping, the route table, breadcrumbs, and reading the sector and page back
  out of a URL.
- **The simulations page** (`simulation_data.dfy`, `simulation_charts.dfy`,
  `simulations.dfy`).
  - The chart builders are reduced to the data they arrange.
  - The heat-map and confusion-matrix colour rules.
  - The saved-simulation list, and the comparison selection capped at three.
  - Save, duplicate and delete.
  - Which chart the main panel shows.
- **The reports page** (`reports.dfy`): the file list, its per-type counts,
  filter and summary cards, deleting a file and uploading new files.
- **Sector styling shared by both pages** (`sector_style.dfy`).

The shared modules are:

- `Wrappers` for `Option`, which models `null` and `undefined`.
- `Seqs` for `Array.prototype.filter` and duplicate-freedom.
- `Text` for string prefixes and suffixes, JavaScript `trim`, `split(sep)[0]`,
  capitalisation and decimal rendering of numbers.

Inputs are passed in as parameters:

- Clock readings: milliseconds as `nat`; formatted dates as strings.
- Random draws, each in [0, 1).
- The route's sector and the navigation service's current sector.

## Model

| member | source | states |
|---|---|---|
| SupplyChain.FindNode | src/app/components/case-studies/grain-case-study/grain-case-study.component.ts:289-291 | `find` by id: `None` exactly when no node has the id; otherwise the first node carrying it |
| SupplyChain.FindNodeUnique | src/app/components/case-studies/grain-case-study/grain-case-study.component.ts:289-291 | with unique ids, looking up any node's id returns that node |
| SupplyChain.IndexOf | src/app/components/case-studies/grain-case-study/grain-case-study.component.ts:301-302 | `indexOf`: -1 exactly when absent; otherwise a position holding the value with no earlier occurrence |
| SupplyChain.IndexOfDistinct | src/app/components/case-studies/grain-case-study/grain-case-study.component.ts:301-302 | on a route without repeats, `indexOf` of the element at i is i |
| SupplyChain.Toggle | src/app/components/case-studies/grain-case-study/grain-case-study.component.ts:306-308 | choosing the selected value clears the selection; any other value becomes the selection |
| SupplyChain.ZoomPercent | src/app/components/case-studies/grain-case-study/grain-case-study.component.ts:380-382 | `Math.round(zoom * 100)`: the percentage is the zoom (in tenths) times 100, inside the clamp a multiple of 10 between 50 and 150, and 100 exactly at the default zoom |
| SupplyChain.ZoomStaysInRange | src/app/components/case-studies/grain-case-study/grain-case-study.component.ts:323-333 | any sequence of zoom-in, zoom-out and reset presses keeps the zoom within [0.5, 1.5] |
| SupplyChain.ZoomInRepeated | src/app/components/case-studies/grain-case-study/grain-case-study.component.ts:323-325 | n zoom-in presses add n tenths, saturating at 1.5 |
| SupplyChain.ZoomOutRepeated | src/app/components/case-studies/grain-case-study/grain-case-study.component.ts:327-329 | n zoom-out presses remove n tenths, saturating at 0.5 |
| SupplyChain.ConnectionHighlightedIff | src/app/components/case-studies/grain-case-study/grain-case-study.component.ts:298-304 | on a route without repeats, the index-distance test holds exactly when the endpoints are neighbours on the route, in either order |
| SupplyChain.PathConnectionOpacity | src/app/components/case-studies/grain-case-study/grain-case-study.component.ts:364-369 | 0.9 exactly when highlighted, 0.2 exactly when a route is selected and the connection is not on it, 0.5 exactly when no route is selected |
| SupplyChain.PathStrokeWidth | src/app/components/case-studies/grain-case-study/grain-case-study.component.ts:371-373 | width 3 exactly when highlighted, otherwise 2, in particular 2 with no route selected |
| SupplyChain.PathNodeOpacity | src/app/components/case-studies/grain-case-study/grain-case-study.component.ts:375-378 | 1 exactly when no route is selected or the node is on it; 0.4 exactly when a route excludes it |
| SupplyChain.NodeConnectionOpacity | src/app/components/case-studies/fruits-case-study/fruits-case-study.component.ts:258-263 | 0.9 exactly when the selected node is an endpoint, 0.2 exactly when another node is selected, 0.5 exactly when none is |
| SupplyChain.NodeStrokeWidth | src/app/components/case-studies/fruits-case-study/fruits-case-study.component.ts:265-267 | width 3 exactly when the selected node is an endpoint, and 2 exactly otherwise (nothing selected, or another node selected) |
| SupplyChain.ChainHighlight | src/app/components/case-studies/fruits-case-study/fruits-case-study.component.ts:208-210 | on a chain of distinct nodes, selecting node k highlights exactly the connections k-1 and k that exist: one at either end, two inside |
| SupplyChain.ChainHighlightFrom | src/app/components/case-studies/fruits-case-study/fruits-case-study.component.ts:208-210 | the same characterisation restricted to the connections from a given index on (the induction behind ChainHighlight) |
| SupplyChain.CubicConnector | src/app/components/case-studies/grain-case-study/grain-case-study.component.ts:349-361 | the default curve runs from the source's right-centre to the target's left-centre; both control points are on the vertical through the horizontal midpoint, the first level with the start and the second with the end |
| SupplyChain.CubicLevelIsHorizontal | src/app/components/case-studies/fruits-case-study/fruits-case-study.component.ts:242-255 | between nodes at the same height the whole cubic lies on the line through their vertical centres |
| SupplyChain.StraightConnector | src/app/components/case-studies/grain-case-study/grain-case-study.component.ts:345-348 | one line from the source's bottom-centre to the target's top-centre |
| SupplyChain.ElbowConnector | src/app/components/case-studies/grain-case-study/grain-case-study.component.ts:351-355 | right-centre to left-centre via horizontal, corner, vertical, corner, horizontal runs; the first run bends 30% of the way across; each corner spans one radius (25) both ways with its control point one radius past the bend, level with the start or the end; the first corner turns down exactly when the target is lower; the vertical run stops one radius short of the target's height on the side it comes from (`y2 - 25` going down, `y2 + 25` otherwise) |
| SupplyChain.ArcConnector | src/app/components/case-studies/grain-case-study/grain-case-study.component.ts:356-359 | right-centre to left-centre with one quadratic control point at the horizontal midpoint, 30 above the start |
| GrainCaseStudy.ConnectionPath | src/app/components/case-studies/grain-case-study/grain-case-study.component.ts:335-362 | empty exactly when an endpoint id is missing; otherwise foreign to mills is the straight drop, logistics to either elevator the elbow, elevator-field to mills the arc, and every other pair the default cubic, each between the two found nodes |
| GrainCaseStudy.SeaElbowTurnsUp | src/app/components/case-studies/grain-case-study/grain-case-study.component.ts:351-354 | with the page's node table, logistics to elevator-sea is a five-segment elbow whose first corner turns up |
| GrainCaseStudy.FieldElbowTurnsDown | src/app/components/case-studies/grain-case-study/grain-case-study.component.ts:351-354 | logistics to elevator-field is a five-segment elbow whose first corner turns down |
| GrainCaseStudy.ForeignToMillsIsVertical | src/app/components/case-studies/grain-case-study/grain-case-study.component.ts:345-348 | foreign to mills is a single vertical line |
| GrainCaseStudy.FieldToMillsArcs | src/app/components/case-studies/grain-case-study/grain-case-study.component.ts:356-359 | with the page's node table, elevator-field to mills is one quadratic arc whose control point is 30 above its start and which ends level with it |
| GrainCaseStudy.ElbowTurns | src/app/components/case-studies/grain-case-study/grain-case-study.component.ts:351-355 | on any node table, a logistics-to-elevator elbow has five segments and its first corner turns down exactly when the elevator sits lower than the hub |
| GrainCaseStudy.StraightIsVertical | src/app/components/case-studies/grain-case-study/grain-case-study.component.ts:345-348 | on any node table, the foreign-to-mills connector is one line, vertical exactly when the two nodes share a column |
| GrainCaseStudy.ArcRises | src/app/components/case-studies/grain-case-study/grain-case-study.component.ts:356-359 | on any node table, the elevator-field-to-mills arc has its control 30 above its start and ends level exactly when the two nodes share a row |
| GrainCaseStudy.EveryNodeDeclared | src/app/components/case-studies/grain-case-study/grain-case-study.component.ts:53-236 | every node type has an entry in the node table |
| GrainCaseStudy.StaticDataConsistent | src/app/components/case-studies/grain-case-study/grain-case-study.component.ts:53-259 | node ids are unique, every connection's endpoints are declared, every route is repeat-free and follows declared connections |
| GrainCaseStudy.HighlightedIffAdjacent | src/app/components/case-studies/grain-case-study/grain-case-study.component.ts:298-304 | with a route selected, a connection is highlighted exactly when its endpoints are neighbours on that route (characterises the page's `IsConnectionHighlighted` and `IsNodeHighlighted`, built on `SupplyChain.IsConnectionHighlighted` and `SupplyChain.IsNodeHighlighted`) |
| GrainCaseStudy.ExportScenario | src/app/components/case-studies/grain-case-study/grain-case-study.component.ts:364-378 | with export selected: farm opacity 1, mills 0.4; farm to logistics 0.9 and width 3; mills to feed-mills 0.2 and width 2 |
| GrainCaseStudy.GrainCaseStudyComponent.constructor | src/app/components/case-studies/grain-case-study/grain-case-study.component.ts:48-51 | nothing hovered or selected, zoom 1.0 |
| GrainCaseStudy.GrainCaseStudyComponent.SelectPath | src/app/components/case-studies/grain-case-study/grain-case-study.component.ts:306-308 | the route selection toggles; hover, node selection and zoom are unchanged |
| GrainCaseStudy.GrainCaseStudyComponent.OnNodeHover | src/app/components/case-studies/grain-case-study/grain-case-study.component.ts:310-312 | the hovered node is set unconditionally; nothing else changes |
| GrainCaseStudy.GrainCaseStudyComponent.OnNodeClick | src/app/components/case-studies/grain-case-study/grain-case-study.component.ts:314-316 | the node selection toggles; nothing else changes |
| GrainCaseStudy.GrainCaseStudyComponent.CloseNodeDetail | src/app/components/case-studies/grain-case-study/grain-case-study.component.ts:318-321 | the node selection is cleared; nothing else changes |
| GrainCaseStudy.GrainCaseStudyComponent.ZoomIn | src/app/components/case-studies/grain-case-study/grain-case-study.component.ts:323-325 | one tenth more, capped at 1.5; the clamp invariant is kept; selections unchanged |
| GrainCaseStudy.GrainCaseStudyComponent.ZoomOut | src/app/components/case-studies/grain-case-study/grain-case-study.component.ts:327-329 | one tenth less, floored at 0.5; the clamp invariant is kept; selections unchanged |
| GrainCaseStudy.GrainCaseStudyComponent.ResetZoom | src/app/components/case-studies/grain-case-study/grain-case-study.component.ts:331-333 | zoom back to 1.0; selections unchanged |
| GrainCaseStudy.GrainCaseStudyComponent.GetConnectionPath | src/app/components/case-studies/grain-case-study/grain-case-study.component.ts:335-338 | with the page's own node table no connection gets the empty path, and each gets the connector the module's `ConnectionPath` assigns to its pair |
| GrainCaseStudy.GrainCaseStudyComponent.GetConnectionOpacity | src/app/components/case-studies/grain-case-study/grain-case-study.component.ts:364-369 | 0.9 / 0.2 / 0.5 exactly for highlighted / other with a route selected / no route selected |
| GrainCaseStudy.GrainCaseStudyComponent.GetConnectionStrokeWidth | src/app/components/case-studies/grain-case-study/grain-case-study.component.ts:371-373 | 3 exactly when highlighted, else 2 |
| GrainCaseStudy.GrainCaseStudyComponent.GetNodeOpacity | src/app/components/case-studies/grain-case-study/grain-case-study.component.ts:375-378 | 1 exactly when no route is selected or the node is on it, else 0.4 |
| GrainCaseStudy.GrainCaseStudyComponent.GetZoomPercent | src/app/components/case-studies/grain-case-study/grain-case-study.component.ts:380-382 | `Math.round(this.zoom * 100)`: the current zoom times 100, between 50 and 150 within the clamp |
| FishCaseStudy.AquacultureBranchIsDefault | src/app/components/case-studies/fish-case-study/fish-case-study.component.ts:320-337 | the aquaculture to secondary-processing special case draws exactly the default cubic |
| FishCaseStudy.ConnectionPath | src/app/components/case-studies/fish-case-study/fish-case-study.component.ts:302-338 | empty exactly when an endpoint id is missing; otherwise always the default cubic |
| FishCaseStudy.EveryNodeDeclared | src/app/components/case-studies/fish-case-study/fish-case-study.component.ts:53-208 | every node type has an entry in the node table |
| FishCaseStudy.StaticDataConsistent | src/app/components/case-studies/fish-case-study/fish-case-study.component.ts:53-226 | unique ids, declared endpoints, repeat-free routes along declared connections |
| FishCaseStudy.HighlightedIffAdjacent | src/app/components/case-studies/fish-case-study/fish-case-study.component.ts:265-271 | with a route selected, a connection is highlighted exactly when its endpoints are neighbours on it (characterises the page's `IsConnectionHighlighted` and `IsNodeHighlighted`) |
| FishCaseStudy.SharedTrunk | src/app/components/case-studies/fish-case-study/fish-case-study.component.ts:223-226 | whichever route is selected, fingerlings, transport and aquaculture stay at opacity 1 and the two trunk connections at 0.9 |
| FishCaseStudy.RoutesCoverConnections | src/app/components/case-studies/fish-case-study/fish-case-study.component.ts:210-226 | every declared connection is highlighted by the export route or by the domestic route |
| FishCaseStudy.FishCaseStudyComponent.constructor | src/app/components/case-studies/fish-case-study/fish-case-study.component.ts:48-51 | nothing hovered or selected, zoom 1.0 |
| FishCaseStudy.FishCaseStudyComponent.SelectPath | src/app/components/case-studies/fish-case-study/fish-case-study.component.ts:273-275 | the route selection toggles; nothing else changes |
| FishCaseStudy.FishCaseStudyComponent.OnNodeHover | src/app/components/case-studies/fish-case-study/fish-case-study.component.ts:277-279 | the hovered node is set unconditionally; nothing else changes |
| FishCaseStudy.FishCaseStudyComponent.OnNodeClick | src/app/components/case-studies/fish-case-study/fish-case-study.component.ts:281-283 | the node selection toggles; nothing else changes |
| FishCaseStudy.FishCaseStudyComponent.CloseNodeDetail | src/app/components/case-studies/fish-case-study/fish-case-study.component.ts:285-288 | the node selection is cleared; nothing else changes |
| FishCaseStudy.FishCaseStudyComponent.ZoomIn | src/app/components/case-studies/fish-case-study/fish-case-study.component.ts:290-292 | one tenth more, capped at 1.5, clamp kept, selections unchanged |
| FishCaseStudy.FishCaseStudyComponent.ZoomOut | src/app/components/case-studies/fish-case-study/fish-case-study.component.ts:294-296 | one tenth less, floored at 0.5, clamp kept, selections unchanged |
| FishCaseStudy.FishCaseStudyComponent.ResetZoom | src/app/components/case-studies/fish-case-study/fish-case-study.component.ts:298-300 | zoom back to 1.0, selections unchanged |
| FishCaseStudy.FishCaseStudyComponent.GetConnectionPath | src/app/components/case-studies/fish-case-study/fish-case-study.component.ts:302-305 | with the page's own node table no connection gets the empty path, and each gets the connector the module's `ConnectionPath` assigns to its pair |
| FishCaseStudy.FishCaseStudyComponent.GetConnectionOpacity | src/app/components/case-studies/fish-case-study/fish-case-study.component.ts:340-345 | 0.9 / 0.2 / 0.5 exactly for highlighted / other with a route selected / no route selected |
| FishCaseStudy.FishCaseStudyComponent.GetConnectionStrokeWidth | src/app/components/case-studies/fish-case-study/fish-case-study.component.ts:347-349 | 3 exactly when highlighted, else 2 |
| FishCaseStudy.FishCaseStudyComponent.GetNodeOpacity | src/app/components/case-studies/fish-case-study/fish-case-study.component.ts:351-354 | 1 exactly when no route is selected or the node is on it, else 0.4 |
| FishCaseStudy.FishCaseStudyComponent.GetZoomPercent | src/app/components/case-studies/fish-case-study/fish-case-study.component.ts:356-358 | `Math.round(this.zoom * 100)`: the current zoom times 100, between 50 and 150 within the clamp |
| FruitsCaseStudy.ConnectionPath | src/app/components/case-studies/fruits-case-study/fruits-case-study.component.ts:237-256 | empty exactly when an endpoint id is missing; otherwise the default cubic |
| FruitsCaseStudy.EveryNodeDeclared | src/app/components/case-studies/fruits-case-study/fruits-case-study.component.ts:51-164 | every node type has an entry in the node table |
| FruitsCaseStudy.StaticDataConsistent | src/app/components/case-studies/fruits-case-study/fruits-case-study.component.ts:51-174 | unique ids and declared endpoints |
| FruitsCaseStudy.ConnectionsFormChain | src/app/components/case-studies/fruits-case-study/fruits-case-study.component.ts:166-174 | the seven connections link eight distinct nodes in one chain |
| FruitsCaseStudy.ConnectorsAreLevel | src/app/components/case-studies/fruits-case-study/fruits-case-study.component.ts:51-164 | every stage sits at y 180, so the connector between any two stages, and both its control points, lie at y 204 |
| FruitsCaseStudy.SelectionHighlightsNeighbours | src/app/components/case-studies/fruits-case-study/fruits-case-study.component.ts:208-210 | selecting an end node highlights one connection, an inner node exactly its two neighbouring connections (characterises the page's `IsConnectionHighlighted`) |
| FruitsCaseStudy.ProcessingScenario | src/app/components/case-studies/fruits-case-study/fruits-case-study.component.ts:258-267 | with processing selected: bulk-transport to processing 0.9 and width 3, wholesale to logistics 0.2 and width 2 |
| FruitsCaseStudy.FruitsCaseStudyComponent.constructor | src/app/components/case-studies/fruits-case-study/fruits-case-study.component.ts:47-49 | nothing hovered or selected, zoom 1.0 |
| FruitsCaseStudy.FruitsCaseStudyComponent.OnNodeHover | src/app/components/case-studies/fruits-case-study/fruits-case-study.component.ts:212-214 | the hovered node is set unconditionally; nothing else changes |
| FruitsCaseStudy.FruitsCaseStudyComponent.OnNodeClick | src/app/components/case-studies/fruits-case-study/fruits-case-study.component.ts:216-218 | the node selection toggles; nothing else changes |
| FruitsCaseStudy.FruitsCaseStudyComponent.CloseNodeDetail | src/app/components/case-studies/fruits-case-study/fruits-case-study.component.ts:220-223 | the node selection is cleared; nothing else changes |
| FruitsCaseStudy.FruitsCaseStudyComponent.ZoomIn | src/app/components/case-studies/fruits-case-study/fruits-case-study.component.ts:225-227 | one tenth more, capped at 1.5, clamp kept |
| FruitsCaseStudy.FruitsCaseStudyComponent.ZoomOut | src/app/components/case-studies/fruits-case-study/fruits-case-study.component.ts:229-231 | one tenth less, floored at 0.5, clamp kept |
| FruitsCaseStudy.FruitsCaseStudyComponent.ResetZoom | src/app/components/case-studies/fruits-case-study/fruits-case-study.component.ts:233-235 | zoom back to 1.0 |
| FruitsCaseStudy.FruitsCaseStudyComponent.GetConnectionPath | src/app/components/case-studies/fruits-case-study/fruits-case-study.component.ts:237-240 | with the page's own node table no connection gets the empty path, and each gets the connector the module's `ConnectionPath` assigns to its pair |
| FruitsCaseStudy.FruitsCaseStudyComponent.GetConnectionOpacity | src/app/components/case-studies/fruits-case-study/fruits-case-study.component.ts:258-263 | 0.9 / 0.2 / 0.5 exactly for touching the selected node / other with a node selected / nothing selected |
| FruitsCaseStudy.FruitsCaseStudyComponent.GetConnectionStrokeWidth | src/app/components/case-studies/fruits-case-study/fruits-case-study.component.ts:265-267 | 3 exactly when highlighted, else 2 |
| FruitsCaseStudy.FruitsCaseStudyComponent.GetZoomPercent | src/app/components/case-studies/fruits-case-study/fruits-case-study.component.ts:269-271 | `Math.round(this.zoom * 100)`: the current zoom times 100, between 50 and 150 within the clamp |
| Routing.SectorToUseCaseId | src/app/models/routing.model.ts:22-29 | grain is use case 1, fruits 2 and fish 3, each id exactly for its sector |
| Routing.UseCaseIdToSector | src/app/models/routing.model.ts:31-38 | id 2 names fruits and id 3 fish, exactly; every other id, including 1 and anything outside 1..3, names grain |
| Routing.UseCaseIdRoundTrip | src/app/models/routing.model.ts:22-38 | sector to id to sector is the identity, and so is id to sector to id for ids 1..3 |
| Routing.RouteTableAgreesWithGeneratePath | src/app/models/routing.model.ts:48-68 | every literal URL in the route table is the one `generatePath` builds for its sector and page, and none is the home URL |
| Routing.GenerateBreadcrumbs | src/app/models/routing.model.ts:71-91 | one to three crumbs, Home first; a sector adds its display name linking to its dashboard; a third crumb, the capitalised page name linking to its URL, appears exactly when a sector and a non-dashboard page are given |
| Routing.SectorPrefixesExclusive | src/app/models/routing.model.ts:99-102 | a path starts with at most one sector prefix |
| Routing.PageSuffixesExclusive | src/app/models/routing.model.ts:105-108 | a path ends with at most one page suffix |
| Routing.GetSectorFromPath | src/app/models/routing.model.ts:99-102 | a sector is returned only when the path starts with its `/`-prefix, and nothing exactly when no prefix matches |
| Routing.GetPageFromPath | src/app/models/routing.model.ts:105-108 | a page is returned only when the path ends with its `/`-suffix, and nothing exactly when no suffix matches |
| Routing.SectorFromPrefixedPath | src/app/models/routing.model.ts:99-102 | any path beginning with a sector's prefix yields that sector, whatever follows |
| Routing.PageFromSuffixedPath | src/app/models/routing.model.ts:105-108 | any path ending with a page's suffix yields that page, whatever precedes |
| Routing.GeneratePathRoundTrip | src/app/models/routing.model.ts:17-19 | parsing a generated URL gives back its sector and its page (characterises `Routing.GeneratePath`) |
| Routing.SectorPrefixWithoutBoundary | src/app/models/routing.model.ts:100-100 | the sector match has no word boundary: `/grainery` reads as grain |
| Routing.SectorNeedsLeadingSlash | src/app/models/routing.model.ts:100-100 | the match is anchored at a leading slash: a bare sector name yields nothing |
| Routing.BreadcrumbPathsResolve | src/app/models/routing.model.ts:71-91 | every crumb after Home links to a URL that parses back to the crumb's sector, and to the dashboard or the given page |
| Routing.IsPathActive | src/app/models/routing.model.ts:94-96 | equal paths are active, and a current URL active for a generated target reads back as exactly that target's sector and page |
| Routing.ActiveOnGenerated | src/app/models/routing.model.ts:94-96 | between two generated URLs, the link is active exactly when both sector and page agree (both directions) |
| Routing.ResolveSector | src/app/components/pages/simulations/simulations.component.ts:105-110 | the route's sector if given, else the navigation service's, else grain |
| SimulationData.BaselineTimes | src/app/components/pages/simulations/simulations.component.ts:153-153 | one month label per baseline row, in order |
| SimulationCharts.TimeSeriesChart | src/app/components/pages/simulations/simulations.chart-config.ts:10-51 | legend Actual / ML Forecast; category i is point i's time and both series take their i-th value from point i |
| SimulationCharts.TimeSeriesLabelsDistinct | src/app/components/pages/simulations/simulations.chart-config.ts:10-51 | points with different times get different axis labels |
| SimulationCharts.BarChart | src/app/components/pages/simulations/simulations.chart-config.ts:53-88 | exactly Demand, Supply and Inventory series, each aligned with the month categories |
| SimulationCharts.LogisticCurveChart | src/app/components/pages/simulations/simulations.chart-config.ts:90-120 | the curve's points, unchanged and in order, under "Price Response" |
| SimulationCharts.ScatterChart | src/app/components/pages/simulations/simulations.chart-config.ts:122-150 | each sample as (volume, quality), in order, under "Data Points" |
| SimulationCharts.SensitivityChart | src/app/components/pages/simulations/simulations.chart-config.ts:152-191 | the parameter changes as categories, aligned with the demand and supply series |
| SimulationCharts.FeatureImportanceChart | src/app/components/pages/simulations/simulations.chart-config.ts:193-212 | feature names as categories aligned with their importance values, no legend |
| SimulationCharts.PaletteColor | src/app/components/pages/simulations/simulations.chart-config.ts:219-219 | a colour exists exactly for the first three positions |
| SimulationCharts.ComparisonChart | src/app/components/pages/simulations/simulations.chart-config.ts:214-235 | one series and one legend entry per simulation, in order, named after it and holding its chosen result series; categories are the given times |
| SimulationCharts.ComparisonWellFormed | src/app/components/pages/simulations/simulations.chart-config.ts:214-235 | when every simulation has one value per time the chart is well formed |
| SimulationCharts.ComparisonColorsDistinct | src/app/components/pages/simulations/simulations.chart-config.ts:219-233 | up to three simulations every line has its own colour; a fourth line would have none |
| SimulationCharts.HeatLevelOf | src/app/components/pages/simulations/simulations.chart-config.ts:237-241 | high exactly above 0.7, medium exactly in (0.4, 0.7], low exactly at 0.4 and below |
| SimulationCharts.HeatmapColor | src/app/components/pages/simulations/simulations.chart-config.ts:237-241 | red, amber and green exactly on those three ranges |
| SimulationCharts.HeatLevelMonotone | src/app/components/pages/simulations/simulations.chart-config.ts:237-241 | a larger value never gets a cooler level |
| SimulationCharts.ConfusionMatrixColor | src/app/components/pages/simulations/simulations.chart-config.ts:243-246 | green exactly at (0, 0), teal exactly on the rest of the diagonal, red exactly off it |
| SimulationCharts.ConfusionMatrixColorSymmetric | src/app/components/pages/simulations/simulations.chart-config.ts:243-246 | the colouring is symmetric in its two coordinates |
| SectorStyle.SectorStyleDistinct | src/app/components/pages/simulations/simulations.component.ts:161-177 | different sectors get different icons and different gradients (about `SectorStyle.SectorIcon` and `SectorStyle.SectorGradientClass`) |
| Simulations.ToggleSelection | src/app/components/pages/simulations/simulations.component.ts:253-260 | the toggled id ends up selected exactly when it was not and fewer than three were; every other id keeps its membership |
| Simulations.ToggleKeepsSelectionValid | src/app/components/pages/simulations/simulations.component.ts:253-260 | toggling keeps the selection at most three ids long and free of duplicates |
| Simulations.ToggleTwiceRestores | src/app/components/pages/simulations/simulations.component.ts:253-260 | selecting a new id below the cap and toggling it again restores the selection exactly |
| Simulations.SelectedSimulations | src/app/components/pages/simulations/simulations.component.ts:152-152 | exactly the saved simulations whose id is selected; a one-element list is kept exactly when its id is selected |
| Simulations.SelectedSimulationsAppend | src/app/components/pages/simulations/simulations.component.ts:150-159 | selecting from two lists one after the other selects from each in turn, so the compared lines (and their palette colours) follow the saved-list order |
| Simulations.SelectedWithinCap | src/app/components/pages/simulations/simulations.component.ts:150-159 | with distinct saved ids, no more simulations are charted than ids are selected |
| Simulations.ComparisonChartsFor | src/app/components/pages/simulations/simulations.component.ts:150-159 | below two selections the charts are left as they were; otherwise each chart is the comparison of the selected simulations over the month labels |
| Simulations.ComparisonLinesDistinctlyColoured | src/app/components/pages/simulations/simulations.component.ts:150-159 | with a valid selection of two or three and distinct saved ids, every comparison line has a palette colour and no two share one |
| Simulations.MainChartFor | src/app/components/pages/simulations/simulations.component.ts:124-144 | the time series is shown exactly when the visualisation is not one of the four other named charts |
| Simulations.UnbuiltVisualizationsFallBack | src/app/components/pages/simulations/simulations.component.ts:124-144 | Confusion Matrix and Heatmap, both offered, fall back to the time series |
| Simulations.OffsetBound | src/app/components/pages/simulations/simulations.component.ts:226-228 | `(random - 0.5) * spread` lies in [-spread/2, spread/2) |
| Simulations.Centered | src/app/components/pages/simulations/simulations.component.ts:220-224 | `random * width - width/2` lies in [-width/2, width/2) |
| Simulations.Perturb | src/app/components/pages/simulations/simulations.component.ts:225-229 | as long as the baseline, each value within half a spread of its baseline value |
| Simulations.SimIdInjective | src/app/components/pages/simulations/simulations.component.ts:213-213 | saves at different clock readings get different ids (about `Simulations.SimId`) |
| Simulations.NewSimulation | src/app/components/pages/simulations/simulations.component.ts:212-230 | the new record carries the fresh id, the entered name, the current sector, variable, month and year and the timestamp; each result series is as long as the baseline |
| Simulations.NewSimulationNearBaseline | src/app/components/pages/simulations/simulations.component.ts:219-229 | demand and supply stay within 5 and inventory within 4 of each month's baseline; the parameters stay within ±5, ±4 and ±3 |
| Simulations.IsBlankIff | src/app/components/pages/simulations/simulations.component.ts:210-210 | `!name.trim()` holds exactly when the name is empty or every character is JavaScript whitespace, so that is the guard the save handler uses (characterises `Simulations.IsBlank`) |
| Simulations.Duplicate | src/app/components/pages/simulations/simulations.component.ts:243-251 | the copy has a fresh id, the name with " (Copy)" and the new timestamp, and agrees with the original in every other field |
| Simulations.SimulationsComponent.constructor | src/app/components/pages/simulations/simulations.component.ts:54-99 | the page's initial field values; the selection invariant holds |
| Simulations.SimulationsComponent.NgOnInit | src/app/components/pages/simulations/simulations.component.ts:105-110 | resolves the sector, stores the sample data and rebuilds all charts; nothing else changes |
| Simulations.SimulationsComponent.GenerateSampleData | src/app/components/pages/simulations/simulations.component.ts:112-116 | stores the three generated data sets; nothing else changes |
| Simulations.SimulationsComponent.UpdateCharts | src/app/components/pages/simulations/simulations.component.ts:118-122 | main, feature-importance and comparison charts rebuilt; nothing else changes |
| Simulations.SimulationsComponent.UpdateMainChart | src/app/components/pages/simulations/simulations.component.ts:124-144 | only the main chart changes, to the chart the visualisation selects |
| Simulations.SimulationsComponent.UpdateFeatureImportanceChart | src/app/components/pages/simulations/simulations.component.ts:146-148 | only the feature-importance chart changes |
| Simulations.SimulationsComponent.UpdateComparisonCharts | src/app/components/pages/simulations/simulations.component.ts:150-159 | only the comparison charts change, and only with two or more selections |
| Simulations.SimulationsComponent.OnTabChange | src/app/components/pages/simulations/simulations.component.ts:191-193 | only the active tab changes |
| Simulations.SimulationsComponent.OnSectorChange | src/app/components/pages/simulations/simulations.component.ts:195-198 | only the sector changes |
| Simulations.SimulationsComponent.OnVisualizationChange | src/app/components/pages/simulations/simulations.component.ts:200-203 | the visualisation and the main chart change together; nothing else does |
| Simulations.SimulationsComponent.OnRunSimulation | src/app/components/pages/simulations/simulations.component.ts:205-207 | only the save dialog opens |
| Simulations.SimulationsComponent.OnSaveSimulation | src/app/components/pages/simulations/simulations.component.ts:209-235 | a blank name changes nothing; otherwise exactly one new simulation is appended, and the name and dialog are cleared |
| Simulations.SimulationsComponent.OnDeleteSimulation | src/app/components/pages/simulations/simulations.component.ts:237-241 | the id leaves both the saved list and the selection, the rest keep their order, the comparison is refreshed, and the selection invariant is kept |
| Simulations.SimulationsComponent.OnDuplicateSimulation | src/app/components/pages/simulations/simulations.component.ts:243-251 | exactly one copy is appended; nothing else changes |
| Simulations.SimulationsComponent.ToggleSimulationSelection | src/app/components/pages/simulations/simulations.component.ts:253-260 | the id ends up checked exactly when it was unchecked and fewer than three were checked; the selection toggles, the comparison is refreshed, and the selection invariant is kept |
| Simulations.SimulationsComponent.IsSimulationSelected | src/app/components/pages/simulations/simulations.component.ts:262-264 | a checked id's saved simulations are all among the saved simulations whose id is selected, and an unchecked id's are none of them |
| Simulations.SimulationsComponent.CloseSaveDialog | src/app/components/pages/simulations/simulations.component.ts:275-278 | the dialog closes and the name is cleared; nothing else changes |
| Simulations.SimulationsComponent.CloseUploadDialog | src/app/components/pages/simulations/simulations.component.ts:280-282 | only the upload dialog closes |
| Simulations.SimulationsComponent.OnFileUpload | src/app/components/pages/simulations/simulations.component.ts:284-290 | the upload dialog closes exactly when at least one file was chosen |
| Reports.CountOf | src/app/components/pages/reports/reports.component.ts:172-178 | a type's count never exceeds the number of files |
| Reports.CountsAddUp | src/app/components/pages/reports/reports.component.ts:168-178 | Excel and CSV counts add up to the total |
| Reports.FilteredFiles | src/app/components/pages/reports/reports.component.ts:180-189 | all files for the all filter; otherwise exactly the files of the chosen type; a one-element list is kept exactly when the filter admits its file, which with `FilteredFilesAppend` fixes the order and multiplicity of `files.filter(...)` |
| Reports.FilteredFilesAppend | src/app/components/pages/reports/reports.component.ts:180-189 | filtering two lists one after the other filters each and keeps them in order |
| Reports.StatsCards | src/app/components/pages/reports/reports.component.ts:191-230 | four cards titled Total, Excel, CSV and Status; the status card reads "All synced" and has no filter |
| Reports.StatCardsMatchFilters | src/app/components/pages/reports/reports.component.ts:191-230 | each counting card shows the length of the list its filter selects, and the Excel and CSV cards add up to the total card |
| Reports.SectorTitles | src/app/components/pages/reports/reports.component.ts:146-148 | the titles are "Grain", "Fruits & Vegetables" and "Fish" (the values of `Reports.SectorTitle`) |
| Reports.TypeFromName | src/app/components/pages/reports/reports.component.ts:275-275 | CSV exactly when the name ends with ".csv" |
| Reports.NewFileItems | src/app/components/pages/reports/reports.component.ts:262-276 | one entry per chosen file in the chosen order, with the file's name, date and size in MB, the id `<clock>-<index>`, and CSV exactly for ".csv" names |
| Reports.UploadIdsDistinct | src/app/components/pages/reports/reports.component.ts:263-263 | files of one upload get distinct ids |
| Reports.UploadIdsDiffer | src/app/components/pages/reports/reports.component.ts:263-263 | two uploaded files share an id only if both their clock readings and their indices agree |
| Reports.UploadIdsAvoidInitial | src/app/components/pages/reports/reports.component.ts:55-98 | an uploaded file's id never equals an initial file's id |
| Reports.UploadCounts | src/app/components/pages/reports/reports.component.ts:258-280 | after an upload each type's count grows by the number of chosen names of that type |
| Reports.DeleteAbsentIsNoop | src/app/components/pages/reports/reports.component.ts:250-252 | deleting an id no file has leaves the list unchanged |
| Reports.FileIconGradient | src/app/components/pages/reports/reports.component.ts:282-284 | green exactly for "Excel", blue for anything else |
| Reports.TypeBadgeStyle | src/app/components/pages/reports/reports.component.ts:286-290 | the green badge exactly for "Excel", the blue one for anything else |
| Reports.TypeStylesDiffer | src/app/components/pages/reports/reports.component.ts:282-290 | the two file types are styled apart |
| Reports.ReportsComponent.constructor | src/app/components/pages/reports/reports.component.ts:50-98 | grain, the files tab, the all filter and the six initial files |
| Reports.ReportsComponent.NgOnInit | src/app/components/pages/reports/reports.component.ts:141-144 | only the sector changes, to the resolved sector |
| Reports.ReportsComponent.OnFilterChange | src/app/components/pages/reports/reports.component.ts:232-236 | no filter leaves the active filter alone; any filter replaces it; nothing else changes |
| Reports.ReportsComponent.OnTabChange | src/app/components/pages/reports/reports.component.ts:242-244 | only the active tab changes |
| Reports.ReportsComponent.OnDelete | src/app/components/pages/reports/reports.component.ts:250-252 | every file with the id goes, every other file stays in order; nothing else changes |
| Reports.ReportsComponent.OnFileUpload | src/app/components/pages/reports/reports.component.ts:258-280 | no files changes nothing; otherwise the new entries go ahead of the old list, which is kept intact, and the files tab opens |

## Left out

- Templates, Angular decorators, dependency injection, `event.stopPropagation()`
  and `console.log` are not modelled. The download handlers only log, so they
  are left out as well.
- Navigation is not modelled: the router calls in `onSectorChange` and
  `onBackToUseCases`, and the navigation service itself. The service's current
  sector enters only as a parameter of sector resolution.
- Translation and the `sectorDisplayNames` field copies are not modelled; the
  display names themselves are `Routing.DisplayName`.
- Zoom is kept in exact tenths (5 to 15). The floating-point drift of repeated
  `zoom ± 0.1` in IEEE-754 arithmetic is not modelled, so `Math.round` of the
  product is exact here.
- Connectors are segment datatypes with real coordinates, not the SVG
  path-data text. In particular the decimal text of grain's `dx * 0.3`
  offsets is not modelled.
- The ECharts option literals of the case-study pages, and the styling fields
  of the chart builders, are not modelled. This covers axis names, grid
  margins, line widths, tooltips, area colours and symbol sizes.
- The random sample generators of the simulations page are parameters. So are
  `Math.random`, `Date.now()`, `new Date()`, the file size's `toFixed(1)` and
  the `toLocaleString` date.
- `getSimulationAvg` and `getSimulationGap` are not modelled. They divide
  floating-point sums and give NaN on an empty series.
- Constants with no logic are not modelled: the option lists other than
  `VISUALIZATION_TYPES`, `datasetType`, `kpiCards`, `QUICK_ACCESS_TYPES`,
  `CONFUSION_MATRIX`, the report templates and the tab list.
- The simulations page's `getHeatmapColor` and `getConfusionMatrixColor`
  methods only forward to the chart-config functions, which are modelled.
- Simulations.SimulationsComponent.OnFileUpload: only the number of chosen
  files is modelled, because the handler only logs the first file's name.
- Simulations.MainChartFor: its contract states only which visualisation
  names fall back to the time series. The chart each of the four other names
  selects is given by its body.
- Grain, fish and fruits GetConnectionPath: these class members state that
  the page's own table never gives the empty path and hand over to the
  module's `ConnectionPath`, whose contract states which connector each pair
  gets.
- JavaScript numbers are modelled as exact integers and reals. NaN, infinities
  and IEEE rounding are not modelled (outside zoom, covered above), so for
  instance `getHeatmapColor(NaN)`, green in the source, has no counterpart.
- Sector styling: the `default` branches of `sectorIcon` and
  `sectorGradientClass` cannot be reached with a sector. They differ between
  the two pages ('gradient-primary' and 'gradient-teal').
- Ids that come from the clock are unique only across different milliseconds.
  That holds for `sim-<ms>` ids and upload ids alike. Two saves in the same
  millisecond would share an id, and then deleting one deletes both;
  `Simulations.UniqueSimIds` is therefore a hypothesis of the lemmas that need
  it, not an invariant of the page.
- Comparison charts are replaced as values. The source instead assigns into
  the fields of the existing `comparisonCharts` object, which is not aliased
  elsewhere, so the observable state is the same.
