/** engine/Area.kt: the growing-area tiers, each a square grid of pots. */
module Areas {
  import opened Wrappers
  import opened Currencies
  import Upgradable

  datatype Area = WindowSill | Bedroom | SpareRoom | Apartment | Warehouse | BusinessPark

  /** `values()`, in declaration order. */
  function Values(): seq<Area>
  {
    [WindowSill, Bedroom, SpareRoom, Apartment, Warehouse, BusinessPark]
  }

  function Ordinal(a: Area): int
  {
    match a
    case WindowSill => 0
    case Bedroom => 1
    case SpareRoom => 2
    case Apartment => 3
    case Warehouse => 4
    case BusinessPark => 5
  }

  /** Side length of the pot grid. */
  function Dimension(a: Area): int
  {
    match a
    case WindowSill => 1
    case Bedroom => 2
    case SpareRoom => 4
    case Apartment => 8
    case Warehouse => 16
    case BusinessPark => 32
  }

  function Cost(a: Area): Option<Currency>
  {
    match a
    case WindowSill => None
    case Bedroom => Some(Currency(5_000))
    case SpareRoom => Some(Currency(50_000))
    case Apartment => Some(Currency(1_000_000))
    case Warehouse => Some(Currency(90_000_000))
    case BusinessPark => Some(Currency(1_000_000_000))
  }

  /** `total`: the number of pots, one per grid cell. */
  function Total(a: Area): (t: int)
    ensures 1 <= t <= 1024
  {
    Dimension(a) * Dimension(a)
  }

  /** `upgrades`: the tiers after this one, of which only the first is taken. */
  function Upgrades(a: Area): seq<Area>
  {
    Upgradable.NextTiers(Values(), Ordinal, a)
  }

  lemma ValuesEnumerated()
    ensures Upgradable.Enumerates(Values(), Ordinal)
    ensures forall a :: 0 <= Ordinal(a) < |Values()| && Values()[Ordinal(a)] == a
  {
  }

  /** The only upgrade offered is the immediately next tier; the last tier has none. */
  lemma UpgradesIsNextTier(a: Area)
    ensures Upgrades(a) == if a == BusinessPark then [] else [Values()[Ordinal(a) + 1]]
    ensures forall u :: u in Upgrades(a) ==> Ordinal(u) == Ordinal(a) + 1
  {
    ValuesEnumerated();
    Upgradable.UpgradesIsNextTier(Values(), Ordinal, a);
    assert (a == BusinessPark) == (Ordinal(a) + 1 == |Values()|);
  }

  /** The upgrade, when there is one, holds four times as many pots. */
  lemma UpgradeHoldsMorePots(a: Area)
    ensures forall u :: u in Upgrades(a) ==> Total(u) == 4 * Total(a)
  {
    UpgradesIsNextTier(a);
    match a
    case BusinessPark =>
    case _ =>
      var u := Values()[Ordinal(a) + 1];
      assert Upgrades(a) == [u];
      assert Dimension(u) == 2 * Dimension(a);
  }

  /** Each tier doubles the side length of the one before it. */
  lemma DimensionsDouble()
    ensures Dimension(Values()[0]) == 1
    ensures forall i :: 0 <= i < |Values()| - 1 ==>
      Dimension(Values()[i + 1]) == 2 * Dimension(Values()[i])
  {
  }

  /** Later tiers never have fewer pots; the largest area holds 1024. */
  lemma TotalsIncrease(a: Area, b: Area)
    requires Ordinal(a) <= Ordinal(b)
    ensures Total(a) <= Total(b)
    ensures Total(b) <= Total(BusinessPark) == 1024
  {
  }

  /** The starting tier is free to hold and cannot be bought; prices then strictly increase. */
  lemma CostsIncrease(a: Area, b: Area)
    requires Ordinal(a) < Ordinal(b)
    ensures Cost(WindowSill) == None
    ensures Cost(b).Some?
    ensures Cost(a).Some? ==> Cost(a).value.total < Cost(b).value.total
  {
  }
}
