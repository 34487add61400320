/** engine/Medium.kt: the growing-medium tiers. */
module Media {
  import opened Wrappers
  import opened Currencies
  import Upgradable

  datatype Medium = Soil | SoilPerlite | Hydroponics

  function Values(): seq<Medium>
  {
    [Soil, SoilPerlite, Hydroponics]
  }

  function Ordinal(m: Medium): int
  {
    match m
    case Soil => 0
    case SoilPerlite => 1
    case Hydroponics => 2
  }

  function Effectiveness(m: Medium): int
  {
    match m
    case Soil => 2
    case SoilPerlite => 3
    case Hydroponics => 5
  }

  function LitresPerCostTick(m: Medium): int
  {
    1
  }

  function Cost(m: Medium): Option<Currency>
  {
    match m
    case Soil => None
    case SoilPerlite => Some(Currency(500))
    case Hydroponics => Some(Currency(50_000))
  }

  function Upgrades(m: Medium): seq<Medium>
  {
    Upgradable.NextTiers(Values(), Ordinal, m)
  }

  lemma ValuesEnumerated()
    ensures Upgradable.Enumerates(Values(), Ordinal)
  {
  }

  /** The only upgrade offered is the next tier; Hydroponics has none. */
  lemma UpgradesIsNextTier(m: Medium)
    ensures Upgrades(m) == if m == Hydroponics then [] else [Values()[Ordinal(m) + 1]]
    ensures forall u :: u in Upgrades(m) ==> Ordinal(u) == Ordinal(m) + 1
  {
    ValuesEnumerated();
    Upgradable.UpgradesIsNextTier(Values(), Ordinal, m);
    assert (m == Hydroponics) == (Ordinal(m) + 1 == |Values()|);
  }

  /** Effectiveness strictly increases; every tier uses one litre per cost tick. */
  lemma EffectivenessIncreases(a: Medium, b: Medium)
    requires Ordinal(a) < Ordinal(b)
    ensures Effectiveness(a) < Effectiveness(b)
    ensures LitresPerCostTick(a) == LitresPerCostTick(b) == 1
  {
  }

  /** Soil is the free base tier. */
  lemma SoilIsFree()
    ensures Cost(Soil) == None
    ensures forall m :: m != Soil ==> Cost(m).Some?
  {
  }
}
