/** engine/Membership.kt: the buyer clubs a player sells through, and their prices. */
module Memberships {
  import opened Wrappers
  import opened Currencies
  import opened KotlinInt
  import Upgradable

  datatype Membership = Friends | Club | HeatExchange

  function Values(): seq<Membership>
  {
    [Friends, Club, HeatExchange]
  }

  function Ordinal(m: Membership): int
  {
    match m
    case Friends => 0
    case Club => 1
    case HeatExchange => 2
  }

  function PricePerScoville(m: Membership): Currency
  {
    match m
    case Friends => Currency(1)
    case Club => Currency(2)
    case HeatExchange => Currency(4)
  }

  function Cost(m: Membership): Option<Currency>
  {
    match m
    case Friends => None
    case Club => Some(Currency(150_000))
    case HeatExchange => Some(Currency(500_000_000))
  }

  /** Price of one pepper of a type with `scovilles` heat: 2 plus the per-thousand-scoville price, at least one thousand counted. */
  function UnitPrice(m: Membership, scovilles: int): int
  {
    2 + Max(TruncDiv(scovilles, 1000), 1) * PricePerScoville(m).total
  }

  /** `total(plantType, quantity)` for a plant type with the given scoville count. */
  function Total(m: Membership, scovilles: int, quantity: int): int
  {
    UnitPrice(m, scovilles) * quantity
  }

  /**
   * `total(distillateType, quantity)`. The distillate type is not part of this
   * model: its base scoville count and price multiplier are parameters.
   */
  function DistillateTotal(m: Membership, baseScovilles: int, priceMultiplier: int, quantity: int): (t: int)
    ensures priceMultiplier == 0 || quantity == 0 ==> t == 0
    ensures 0 <= baseScovilles < 1000 ==> t == 0
  {
    (TruncDiv(baseScovilles, 1000) * PricePerScoville(m).total) * quantity * priceMultiplier
  }

  function Upgrades(m: Membership): seq<Membership>
  {
    Upgradable.NextTiers(Values(), Ordinal, m)
  }

  lemma ValuesEnumerated()
    ensures Upgradable.Enumerates(Values(), Ordinal)
  {
  }

  /** The only upgrade offered is the next tier; HeatExchange has none. */
  lemma UpgradesIsNextTier(m: Membership)
    ensures Upgrades(m) == if m == HeatExchange then [] else [Values()[Ordinal(m) + 1]]
    ensures forall u :: u in Upgrades(m) ==> Ordinal(u) == Ordinal(m) + 1
  {
    ValuesEnumerated();
    Upgradable.UpgradesIsNextTier(Values(), Ordinal, m);
    assert (m == HeatExchange) == (Ordinal(m) + 1 == |Values()|);
  }

  /** Below 2000 scovilles (including a negative count) a pepper sells at 2 plus the tier price. */
  lemma MildUnitPrice(m: Membership, scovilles: int)
    requires scovilles < 2000
    ensures UnitPrice(m, scovilles) == 2 + PricePerScoville(m).total
  {
  }

  /** Nothing sold earns nothing, and the total is linear in quantity. */
  lemma TotalLinear(m: Membership, scovilles: int, q1: int, q2: int)
    ensures Total(m, scovilles, 0) == 0
    ensures Total(m, scovilles, q1 + q2) == Total(m, scovilles, q1) + Total(m, scovilles, q2)
  {
    var p := UnitPrice(m, scovilles);
    assert p * (q1 + q2) == p * q1 + p * q2;
  }

  /** A higher tier never pays less for the same non-negative sale. */
  lemma TotalMonotoneInTier(a: Membership, b: Membership, scovilles: int, quantity: int)
    requires Ordinal(a) <= Ordinal(b)
    requires quantity >= 0
    ensures Total(a, scovilles, quantity) <= Total(b, scovilles, quantity)
  {
    var k := Max(TruncDiv(scovilles, 1000), 1);
    assert k >= 1;
    assert UnitPrice(a, scovilles) <= UnitPrice(b, scovilles) by {
      assert PricePerScoville(a).total <= PricePerScoville(b).total;
      MulMonotone(k, PricePerScoville(a).total, PricePerScoville(b).total);
    }
    MulMonotone(quantity, UnitPrice(a, scovilles), UnitPrice(b, scovilles));
  }

  /** Tier prices strictly increase 1, 2, 4. */
  lemma PricesIncrease(a: Membership, b: Membership)
    requires Ordinal(a) < Ordinal(b)
    ensures PricePerScoville(a).total < PricePerScoville(b).total
    ensures PricePerScoville(b).total == 2 * PricePerScoville(Values()[Ordinal(b) - 1]).total
  {
  }
}
