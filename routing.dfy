/**
 * The routing model: sectors and menu pages, the `/<sector>/<page>` URL
 * scheme, the use-case id mapping, the fixed route table, breadcrumbs, and
 * recovering the sector and page from a URL.
 */
module Routing {
  import opened Wrappers
  import opened Text

  datatype Sector = Grain | Fruits | Fish

  datatype MenuItem = Dashboard | Monitoring | Simulations | Reports

  datatype Breadcrumb = Breadcrumb(caption: string, path: string)

  function SectorName(s: Sector): string {
    match s
    case Grain => "grain"
    case Fruits => "fruits"
    case Fish => "fish"
  }

  function PageName(p: MenuItem): string {
    match p
    case Dashboard => "dashboard"
    case Monitoring => "monitoring"
    case Simulations => "simulations"
    case Reports => "reports"
  }

  /** `generatePath`: `/<sector>/<page>`. */
  function GeneratePath(sector: Sector, page: MenuItem): string {
    "/" + SectorName(sector) + "/" + PageName(page)
  }

  /** `sectorToUseCaseId`. */
  function SectorToUseCaseId(sector: Sector): (id: int)
    ensures 1 <= id <= 3
    ensures id == 1 <==> sector == Grain
    ensures id == 2 <==> sector == Fruits
    ensures id == 3 <==> sector == Fish
  {
    match sector
    case Grain => 1
    case Fruits => 2
    case Fish => 3
  }

  /** `useCaseIdToSector`: ids other than 1, 2, 3 fall back to grain. */
  function UseCaseIdToSector(id: int): (s: Sector)
    ensures s == Fruits <==> id == 2
    ensures s == Fish <==> id == 3
    ensures s == Grain <==> id != 2 && id != 3
    ensures (id < 1 || id > 3) ==> s == Grain
  {
    if id == 2 then Fruits else if id == 3 then Fish else Grain
  }

  /** The two mappings are inverse on sectors and on the ids 1..3. */
  lemma UseCaseIdRoundTrip(sector: Sector, id: int)
    ensures UseCaseIdToSector(SectorToUseCaseId(sector)) == sector
    ensures 1 <= id <= 3 ==> SectorToUseCaseId(UseCaseIdToSector(id)) == id
  {
  }

  /** `sectorDisplayNames`. */
  function DisplayName(s: Sector): string {
    match s
    case Grain => "Grain (Ukraine)"
    case Fruits => "Fruits & Vegetables (Portugal)"
    case Fish => "Fish (Greece)"
  }

  const Home: string := "/"

  /** The `routes` table: one literal URL per sector and page. */
  function RouteTable(sector: Sector, page: MenuItem): string {
    match (sector, page)
    case (Grain, Dashboard) => "/grain/dashboard"
    case (Grain, Monitoring) => "/grain/monitoring"
    case (Grain, Simulations) => "/grain/simulations"
    case (Grain, Reports) => "/grain/reports"
    case (Fruits, Dashboard) => "/fruits/dashboard"
    case (Fruits, Monitoring) => "/fruits/monitoring"
    case (Fruits, Simulations) => "/fruits/simulations"
    case (Fruits, Reports) => "/fruits/reports"
    case (Fish, Dashboard) => "/fish/dashboard"
    case (Fish, Monitoring) => "/fish/monitoring"
    case (Fish, Simulations) => "/fish/simulations"
    case (Fish, Reports) => "/fish/reports"
  }

  /** Every literal in the route table is the URL `generatePath` builds. */
  lemma RouteTableAgreesWithGeneratePath(sector: Sector, page: MenuItem)
    ensures RouteTable(sector, page) == GeneratePath(sector, page)
    ensures RouteTable(sector, page) != Home
  {
    assert GeneratePath(sector, page) == SectorPrefix(sector) + PageSuffix(page);
    match sector
    case Grain => GrainRoutes(page);
    case Fruits => FruitsRoutes(page);
    case Fish => FishRoutes(page);
  }

  lemma GrainRoutes(page: MenuItem)
    ensures RouteTable(Grain, page) == SectorPrefix(Grain) + PageSuffix(page)
  {
    match page
    case Dashboard => assert "/grain/dashboard" == "/grain" + "/dashboard";
    case Monitoring => assert "/grain/monitoring" == "/grain" + "/monitoring";
    case Simulations => assert "/grain/simulations" == "/grain" + "/simulations";
    case Reports => assert "/grain/reports" == "/grain" + "/reports";
  }

  lemma FruitsRoutes(page: MenuItem)
    ensures RouteTable(Fruits, page) == SectorPrefix(Fruits) + PageSuffix(page)
  {
    match page
    case Dashboard => assert "/fruits/dashboard" == "/fruits" + "/dashboard";
    case Monitoring => assert "/fruits/monitoring" == "/fruits" + "/monitoring";
    case Simulations => assert "/fruits/simulations" == "/fruits" + "/simulations";
    case Reports => assert "/fruits/reports" == "/fruits" + "/reports";
  }

  lemma FishRoutes(page: MenuItem)
    ensures RouteTable(Fish, page) == SectorPrefix(Fish) + PageSuffix(page)
  {
    match page
    case Dashboard => assert "/fish/dashboard" == "/fish" + "/dashboard";
    case Monitoring => assert "/fish/monitoring" == "/fish" + "/monitoring";
    case Simulations => assert "/fish/simulations" == "/fish" + "/simulations";
    case Reports => assert "/fish/reports" == "/fish" + "/reports";
  }

  /** `generateBreadcrumbs`: Home; then the sector's dashboard; then the page unless it is the dashboard. */
  function GenerateBreadcrumbs(sector: Option<Sector>, page: Option<MenuItem>): (r: seq<Breadcrumb>)
    ensures 1 <= |r| <= 3
    ensures r[0] == Breadcrumb("Home", Home)
    ensures sector.None? ==> |r| == 1
    ensures sector.Some? ==> |r| >= 2 && r[1] == Breadcrumb(DisplayName(sector.value), GeneratePath(sector.value, Dashboard))
    ensures |r| == 3 <==> sector.Some? && page.Some? && page.value != Dashboard
    ensures |r| == 3 ==> r[2] == Breadcrumb(Capitalize(PageName(page.value)), GeneratePath(sector.value, page.value))
  {
    var home := [Breadcrumb("Home", Home)];
    if sector.None? then home
    else
      var withSector := home + [Breadcrumb(DisplayName(sector.value), "/" + SectorName(sector.value) + "/dashboard")];
      if page.Some? && page.value != Dashboard then
        withSector + [Breadcrumb(Capitalize(PageName(page.value)), "/" + SectorName(sector.value) + "/" + PageName(page.value))]
      else withSector
  }

  /**
   * `isPathActive`: an exact comparison. Equal paths are active, and when the
   * current URL is active for a generated target it reads back as that
   * target's sector and page.
   */
  function IsPathActive(currentPath: string, targetPath: string): (r: bool)
    ensures currentPath == targetPath ==> r
    ensures r ==> forall s, p :: targetPath == GeneratePath(s, p) ==>
                    GetSectorFromPath(currentPath) == Some(s) && GetPageFromPath(currentPath) == Some(p)
  {
    if currentPath == targetPath then
      assert forall s, p :: targetPath == GeneratePath(s, p) ==>
               GetSectorFromPath(currentPath) == Some(s) && GetPageFromPath(currentPath) == Some(p) by {
        forall s, p | targetPath == GeneratePath(s, p)
          ensures GetSectorFromPath(currentPath) == Some(s) && GetPageFromPath(currentPath) == Some(p)
        {
          GeneratePathRoundTrip(s, p);
        }
      }
      true
    else
      false
  }

  /** Between generated URLs, a link is active exactly for its own sector and page. */
  lemma ActiveOnGenerated(s: Sector, p: MenuItem, s2: Sector, p2: MenuItem)
    ensures IsPathActive(GeneratePath(s, p), GeneratePath(s2, p2)) <==> s == s2 && p == p2
  {
    GeneratePathRoundTrip(s, p);
    GeneratePathRoundTrip(s2, p2);
  }

  /** The URL prefix `/<sector>` that `getSectorFromPath` looks for. */
  function SectorPrefix(s: Sector): (r: string)
    ensures r == "/" + SectorName(s)
  {
    match s
    case Grain => "/grain"
    case Fruits => "/fruits"
    case Fish => "/fish"
  }

  /** The URL suffix `/<page>` that `getPageFromPath` looks for. */
  function PageSuffix(p: MenuItem): (r: string)
    ensures r == "/" + PageName(p)
  {
    match p
    case Dashboard => "/dashboard"
    case Monitoring => "/monitoring"
    case Simulations => "/simulations"
    case Reports => "/reports"
  }

  /** No URL starts with two different sector prefixes. */
  lemma SectorPrefixesExclusive(path: string, s: Sector, t: Sector)
    requires StartsWith(path, SectorPrefix(s)) && StartsWith(path, SectorPrefix(t))
    ensures s == t
  {
    assert path[1] == SectorPrefix(s)[1] == SectorPrefix(t)[1];
    assert path[2] == SectorPrefix(s)[2] == SectorPrefix(t)[2];
  }

  /** No URL ends with two different page suffixes. */
  lemma PageSuffixesExclusive(path: string, p: MenuItem, q: MenuItem)
    requires EndsWith(path, PageSuffix(p)) && EndsWith(path, PageSuffix(q))
    ensures p == q
  {
    var n, sp, sq := |path|, PageSuffix(p), PageSuffix(q);
    assert path[n - 1] == sp[|sp| - 1] == sq[|sq| - 1];
    assert path[n - 2] == sp[|sp| - 2] == sq[|sq| - 2];
  }

  /** `getSectorFromPath`: `^\/(grain|fruits|fish)`, tried in that order. */
  function GetSectorFromPath(path: string): (r: Option<Sector>)
    ensures r.Some? ==> StartsWith(path, SectorPrefix(r.value))
    ensures r.None? <==> forall s :: !StartsWith(path, SectorPrefix(s))
  {
    if StartsWith(path, SectorPrefix(Grain)) then Some(Grain)
    else if StartsWith(path, SectorPrefix(Fruits)) then Some(Fruits)
    else if StartsWith(path, SectorPrefix(Fish)) then Some(Fish)
    else None
  }

  /** `getPageFromPath`: `\/(dashboard|monitoring|simulations|reports)$`. */
  function GetPageFromPath(path: string): (r: Option<MenuItem>)
    ensures r.Some? ==> EndsWith(path, PageSuffix(r.value))
    ensures r.None? <==> forall p :: !EndsWith(path, PageSuffix(p))
  {
    if EndsWith(path, PageSuffix(Dashboard)) then Some(Dashboard)
    else if EndsWith(path, PageSuffix(Monitoring)) then Some(Monitoring)
    else if EndsWith(path, PageSuffix(Simulations)) then Some(Simulations)
    else if EndsWith(path, PageSuffix(Reports)) then Some(Reports)
    else None
  }

  /** Whatever else the URL holds, a sector prefix decides the sector. */
  lemma SectorFromPrefixedPath(s: Sector, rest: string)
    ensures GetSectorFromPath(SectorPrefix(s) + rest) == Some(s)
  {
    var path := SectorPrefix(s) + rest;
    assert StartsWith(path, SectorPrefix(s));
    SectorPrefixesExclusive(path, s, GetSectorFromPath(path).value);
  }

  /** Whatever comes before it, a page suffix decides the page. */
  lemma PageFromSuffixedPath(front: string, p: MenuItem)
    ensures GetPageFromPath(front + PageSuffix(p)) == Some(p)
  {
    var path := front + PageSuffix(p);
    EndsWithAppend(front, PageSuffix(p));
    PageSuffixesExclusive(path, p, GetPageFromPath(path).value);
  }

  /** Parsing a generated URL gives back its sector and its page. */
  lemma GeneratePathRoundTrip(sector: Sector, page: MenuItem)
    ensures GetSectorFromPath(GeneratePath(sector, page)) == Some(sector)
    ensures GetPageFromPath(GeneratePath(sector, page)) == Some(page)
  {
    GeneratePathSplits(sector, page);
    SectorFromPrefixedPath(sector, PageSuffix(page));
    PageFromSuffixedPath(SectorPrefix(sector), page);
  }

  /** A generated URL is its sector's prefix followed by its page's suffix. */
  lemma GeneratePathSplits(sector: Sector, page: MenuItem)
    ensures GeneratePath(sector, page) == SectorPrefix(sector) + PageSuffix(page)
  {
    var a, b, c, d := "/", SectorName(sector), "/", PageName(page);
    assert a + b + c + d == (a + b) + (c + d);
  }

  /**
   * The sector match has no word boundary: any URL that merely begins with a
   * sector's name, such as `/grainery`, is read as that sector.
   */
  lemma SectorPrefixWithoutBoundary()
    ensures GetSectorFromPath("/grainery") == Some(Grain)
  {
    assert "/grainery" == SectorPrefix(Grain) + "ery";
    SectorFromPrefixedPath(Grain, "ery");
  }

  /** The match is anchored: without the leading slash no sector is found. */
  lemma SectorNeedsLeadingSlash(s: Sector, rest: string)
    ensures GetSectorFromPath(SectorName(s) + rest) == None
  {
    var path := SectorName(s) + rest;
    forall t ensures !StartsWith(path, SectorPrefix(t)) {
      assert path[0] == SectorName(s)[0] != '/';
    }
  }

  /** Every breadcrumb after Home links to a URL of the breadcrumb's own sector. */
  lemma BreadcrumbPathsResolve(sector: Option<Sector>, page: Option<MenuItem>, i: int)
    requires 1 <= i < |GenerateBreadcrumbs(sector, page)|
    ensures GetSectorFromPath(GenerateBreadcrumbs(sector, page)[i].path) == sector
    ensures GetPageFromPath(GenerateBreadcrumbs(sector, page)[i].path) ==
            if i == 1 then Some(Dashboard) else page
  {
    GeneratePathRoundTrip(sector.value, Dashboard);
    if i == 2 {
      GeneratePathRoundTrip(sector.value, page.value);
    }
  }

  /**
   * The sector a page shows: the route parameter when present, else the
   * navigation service's current sector, else grain (`a || b || 'grain'`).
   */
  function ResolveSector(routeSector: Option<Sector>, currentSector: Option<Sector>): (s: Sector)
    ensures routeSector.Some? ==> s == routeSector.value
    ensures routeSector.None? && currentSector.Some? ==> s == currentSector.value
    ensures routeSector.None? && currentSector.None? ==> s == Grain
  {
    if routeSector.Some? then routeSector.value
    else if currentSector.Some? then currentSector.value
    else Grain
  }
}
