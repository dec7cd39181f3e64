/**
 * The `sectorIcon` and `sectorGradientClass` getters that the simulations
 * and reports pages both define. Their `default` branches differ between
 * the two pages but cannot be reached with a `Sector`, so one definition
 * serves both.
 */
module SectorStyle {
  import opened Routing

  function SectorIcon(s: Sector): string {
    match s
    case Fish => "fish"
    case Grain => "wheat"
    case Fruits => "apple"
  }

  function SectorGradientClass(s: Sector): string {
    match s
    case Fish => "gradient-blue"
    case Grain => "gradient-amber"
    case Fruits => "gradient-green"
  }

  /** Each sector has an icon and a gradient of its own. */
  lemma SectorStyleDistinct(s: Sector, t: Sector)
    requires s != t
    ensures SectorIcon(s) != SectorIcon(t)
    ensures SectorGradientClass(s) != SectorGradientClass(t)
  {
  }
}
