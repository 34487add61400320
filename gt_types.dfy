/**
 * gt2000/engine/Types.kt: the older game's `Area`, `Light`, `Medium` and
 * `Costs` tables, which gt2000/engine/GameState.kt imports.
 */
module GtTypes {
  import opened Wrappers
  import opened Currencies

  datatype Area = WindowSill | Bedroom | SpareRoom | Apartment | Warehouse

  function AreaOrdinal(a: Area): int
  {
    match a
    case WindowSill => 0
    case Bedroom => 1
    case SpareRoom => 2
    case Apartment => 3
    case Warehouse => 4
  }

  function Dimension(a: Area): int
  {
    match a
    case WindowSill => 1
    case Bedroom => 2
    case SpareRoom => 4
    case Apartment => 8
    case Warehouse => 16
  }

  function AreaCost(a: Area): Option<Currency>
  {
    match a
    case WindowSill => None
    case Bedroom => Some(Currency(2_000))
    case SpareRoom => Some(Currency(6_000))
    case Apartment => Some(Currency(30_000))
    case Warehouse => Some(Currency(250_000))
  }

  /** `total`: one pot per grid cell. */
  function Total(a: Area): (t: int)
    ensures 1 <= t <= 256
  {
    Dimension(a) * Dimension(a)
  }

  /** Dimensions (and so pot counts) strictly increase in declaration order. */
  lemma DimensionsIncrease(a: Area, b: Area)
    requires AreaOrdinal(a) < AreaOrdinal(b)
    ensures 2 * Dimension(a) <= Dimension(b)
    ensures Total(a) < Total(b)
  {
  }

  datatype Light = Ambient | CFL | Halogen | LED

  function LightOrdinal(l: Light): int
  {
    match l
    case Ambient => 0
    case CFL => 1
    case Halogen => 2
    case LED => 3
  }

  function Strength(l: Light): int
  {
    match l
    case Ambient => 1
    case CFL => 2
    case Halogen => 5
    case LED => 5
  }

  function JoulesPerTick(l: Light): int
  {
    match l
    case Ambient => 0
    case CFL => 1
    case Halogen => 10
    case LED => 1
  }

  function LightCost(l: Light): Option<Currency>
  {
    match l
    case Ambient => None
    case CFL => Some(Currency(1_000))
    case Halogen => Some(Currency(100_000))
    case LED => Some(Currency(1_200_000))
  }

  /** Strength never decreases from tier to tier (Halogen and LED tie at 5). */
  lemma StrengthNonDecreasing(a: Light, b: Light)
    requires LightOrdinal(a) <= LightOrdinal(b)
    ensures Strength(a) <= Strength(b)
  {
  }

  datatype Medium = Soil | SoilPerlite | Hydroponics

  function MediumOrdinal(m: Medium): int
  {
    match m
    case Soil => 0
    case SoilPerlite => 1
    case Hydroponics => 2
  }

  function Effectiveness(m: Medium): int
  {
    match m
    case Soil => 1
    case SoilPerlite => 2
    case Hydroponics => 4
  }

  function LitresPerTick(m: Medium): int
  {
    1
  }

  function MediumCost(m: Medium): Option<Currency>
  {
    match m
    case Soil => None
    case SoilPerlite => Some(Currency(1_000))
    case Hydroponics => Some(Currency(100_000))
  }

  /** Effectiveness strictly increases 1, 2, 4. */
  lemma EffectivenessIncreases(a: Medium, b: Medium)
    requires MediumOrdinal(a) < MediumOrdinal(b)
    ensures Effectiveness(a) < Effectiveness(b)
  {
  }

  /** The base tiers are the only ones without a price. */
  lemma BaseTiersHaveNoCost(a: Area, l: Light, m: Medium)
    ensures AreaCost(a).None? <==> a == WindowSill
    ensures LightCost(l).None? <==> l == Ambient
    ensures MediumCost(m).None? <==> m == Soil
  {
  }

  datatype Costs = ElectricityJoule | WaterLitre

  function UnitCost(c: Costs): int
  {
    match c
    case ElectricityJoule => 20
    case WaterLitre => 10
  }
}
