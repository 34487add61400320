/** engine/Light.kt: the lighting tiers. */
module Lights {
  import opened Wrappers
  import opened Currencies
  import Upgradable

  datatype Light = Ambient | CFL | Halogen | LED

  function Values(): seq<Light>
  {
    [Ambient, CFL, Halogen, LED]
  }

  function Ordinal(l: Light): int
  {
    match l
    case Ambient => 0
    case CFL => 1
    case Halogen => 2
    case LED => 3
  }

  function Strength(l: Light): int
  {
    match l
    case Ambient => 1
    case CFL => 2
    case Halogen => 5
    case LED => 7
  }

  function JoulesPerCostTick(l: Light): int
  {
    match l
    case Ambient => 0
    case CFL => 1
    case Halogen => 10
    case LED => 1
  }

  function Cost(l: Light): Option<Currency>
  {
    match l
    case Ambient => None
    case CFL => Some(Currency(5_000))
    case Halogen => Some(Currency(350_000))
    case LED => Some(Currency(4_200_000))
  }

  function Upgrades(l: Light): seq<Light>
  {
    Upgradable.NextTiers(Values(), Ordinal, l)
  }

  lemma ValuesEnumerated()
    ensures Upgradable.Enumerates(Values(), Ordinal)
  {
  }

  /** The only upgrade offered is the next tier; LED has none. */
  lemma UpgradesIsNextTier(l: Light)
    ensures Upgrades(l) == if l == LED then [] else [Values()[Ordinal(l) + 1]]
    ensures forall u :: u in Upgrades(l) ==> Ordinal(u) == Ordinal(l) + 1
  {
    ValuesEnumerated();
    Upgradable.UpgradesIsNextTier(Values(), Ordinal, l);
    assert (l == LED) == (Ordinal(l) + 1 == |Values()|);
  }

  /** Strength strictly increases from tier to tier. */
  lemma StrengthIncreases(a: Light, b: Light)
    requires Ordinal(a) < Ordinal(b)
    ensures Strength(a) < Strength(b)
  {
  }

  /** Ambient light is the free base tier and draws no power. */
  lemma AmbientIsFree()
    ensures Cost(Ambient) == None && JoulesPerCostTick(Ambient) == 0
    ensures forall l :: l != Ambient ==> Cost(l).Some?
  {
  }
}
