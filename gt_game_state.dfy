/**
 * gt2000/engine/GameState.kt: the older game's state. Plants are a growing
 * list (at most one per pot of the area) rather than a grid of slots, the
 * area never changes, and the running costs use the older unit prices.
 * Starting time is a parameter, in epoch milliseconds.
 */
module GtGame {
  import opened Wrappers
  import opened GtTypes
  import opened Plants
  import GtBuyers
  import KotlinInt
  import Game

  type StockLevel = Game.StockLevel

  datatype Snapshot = Snapshot(
    balance: int,
    inventory: map<PlantType, StockLevel>,
    plants: seq<Plant>,
    area: Area,
    light: Light,
    medium: Medium,
    date: int)

  const TheBuyer := GtBuyers.Friends

  function Initial(now: int): Snapshot
  {
    Snapshot(Game.StartingBalance,
             map[BellPepper := Game.StockLevel(1, 5), Evolcano := Game.StockLevel(10, 500)],
             [], WindowSill, Ambient, Soil, now)
  }

  /** Kotlin's `MutableList.remove`: drop the first occurrence, reporting whether there was one. */
  function Remove<T(==)>(s: seq<T>, x: T): (r: (seq<T>, bool))
  {
    var i := Game.IndexOf(s, x);
    if i < 0 then (s, false) else (s[..i] + s[i + 1..], true)
  }

  /** `calculateCosts` with the older tables. */
  function TickCosts(light: Light, medium: Medium): int
  {
    JoulesPerTick(light) * UnitCost(ElectricityJoule) + LitresPerTick(medium) * UnitCost(WaterLitre)
  }

  function HarvestOf(g: Snapshot, plant: Plant): Snapshot
  {
    if !IsRipe(plant, g.date) then g
    else g.(inventory := Game.AddPeppers(g.inventory, plant.plantType, Harvest(plant)),
            plants := Remove(g.plants, plant).0)
  }

  function CompostOf(g: Snapshot, plant: Plant): (Snapshot, bool)
  {
    var r := Remove(g.plants, plant);
    (g.(plants := r.0), r.1)
  }

  function SellProduceOf(g: Snapshot, t: PlantType): Snapshot
  {
    if t in g.inventory then
      var stock := g.inventory[t];
      g.(balance := g.balance + GtBuyers.Total(TheBuyer, Scovilles(t), stock.peppers),
         inventory := g.inventory[t := stock.(peppers := 0)])
    else g
  }

  function BuyLightOf(g: Snapshot, desired: Light): (Snapshot, Game.Status)
  {
    var d := Game.Deduction(g.balance, LightCost(desired));
    (if d.0 == Game.Paid then g.(balance := d.1, light := desired) else g, Game.PurchaseStatus(d.0))
  }

  function BuyMediumOf(g: Snapshot, desired: Medium): (Snapshot, Game.Status)
  {
    var d := Game.Deduction(g.balance, MediumCost(desired));
    (if d.0 == Game.Paid then g.(balance := d.1, medium := desired) else g, Game.PurchaseStatus(d.0))
  }

  /** `plantSeed`: appended while the list is shorter than the area's pot count and the seed is paid for. */
  function PlantSeedOf(g: Snapshot, seed: Seed): (Snapshot, Game.Status)
  {
    if |g.plants| >= Total(g.area) then (g, Game.Completed)
    else
      var d := Game.Deduction(g.balance, Cost(seed.plantType));
      if d.0 != Game.Paid then (g, Game.PurchaseStatus(d.0))
      else (g.(balance := d.1, plants := g.plants + [Plant(seed.plantType, g.date)]), Game.Completed)
  }

  function OnTickOf(g: Snapshot): (Snapshot, bool)
  {
    var balance := g.balance + 0;
    if TickCosts(g.light, g.medium) > balance then (g, true)
    else (g.(balance := balance, date := g.date + Game.TickMillis), false)
  }

  // ---------------------------------------------------------------------------
  // Properties of the commands
  // ---------------------------------------------------------------------------

  /** No more plants than pots, no debt, no negative stock. */
  predicate Valid(g: Snapshot)
  {
    && |g.plants| <= Total(g.area)
    && g.balance >= 0
    && forall t :: t in g.inventory ==> g.inventory[t].seeds >= 0 && g.inventory[t].peppers >= 0
  }

  lemma InitialValid(now: int)
    ensures Valid(Initial(now)) && Initial(now).plants == []
    ensures Total(Initial(now).area) == 1
  {
  }

  /** Deleting index `i` keeps the elements around it in order and drops one copy of `s[i]`. */
  lemma DeleteAt<T>(s: seq<T>, i: int)
    requires 0 <= i < |s|
    ensures |s[..i] + s[i + 1..]| == |s| - 1
    ensures multiset(s[..i] + s[i + 1..]) == multiset(s) - multiset{s[i]}
    ensures var r := s[..i] + s[i + 1..];
      && (forall k :: 0 <= k < i ==> r[k] == s[k])
      && (forall k :: i <= k < |s| - 1 ==> r[k] == s[k + 1])
  {
    var r := s[..i] + s[i + 1..];
    assert s == s[..i] + [s[i]] + s[i + 1..];
    assert multiset(s) == multiset(s[..i]) + multiset{s[i]} + multiset(s[i + 1..]);
    forall k | i <= k < |s| - 1
      ensures r[k] == s[k + 1]
    {
      assert r[k] == s[i + 1..][k - i];
    }
  }

  /**
   * Removal takes out exactly one copy of `x` when there is one: the first,
   * with everything before and after it kept in order; otherwise nothing.
   */
  lemma RemoveSpec<T>(s: seq<T>, x: T)
    ensures Remove(s, x).1 <==> x in s
    ensures !Remove(s, x).1 ==> Remove(s, x).0 == s
    ensures Remove(s, x).1 ==>
      var i := Game.IndexOf(s, x);
      && |Remove(s, x).0| == |s| - 1
      && multiset(Remove(s, x).0) == multiset(s) - multiset{x}
      && (forall k :: 0 <= k < i ==> Remove(s, x).0[k] == s[k] && s[k] != x)
      && (forall k :: i <= k < |s| - 1 ==> Remove(s, x).0[k] == s[k + 1])
  {
    var i := Game.IndexOf(s, x);
    if i >= 0 {
      DeleteAt(s, i);
    }
  }

  /**
   * A seed is appended, stamped with the current time and charged, exactly
   * when there is a free pot and a price the balance covers.
   */
  lemma PlantSeedSpec(g: Snapshot, seed: Seed)
    ensures var (g', status) := PlantSeedOf(g, seed);
      && (g'.plants != g.plants <==>
            |g.plants| < Total(g.area) && Game.Deduction(g.balance, Cost(seed.plantType)).0 == Game.Paid)
      && (g'.plants != g.plants ==>
            g'.plants == g.plants + [Plant(seed.plantType, g.date)]
            && g'.balance == g.balance - Cost(seed.plantType).value.total)
      && (g'.plants == g.plants ==> g' == g)
      && (status == Game.NullPointer <==> |g.plants| < Total(g.area) && Cost(seed.plantType).None?)
    ensures Valid(g) ==> Valid(PlantSeedOf(g, seed).0)
  {
    if |g.plants| < Total(g.area) && Game.Deduction(g.balance, Cost(seed.plantType)).0 == Game.Paid {
      assert |PlantSeedOf(g, seed).0.plants| == |g.plants| + 1;
    }
  }

  /**
   * Harvesting a ripe plant adds its 15 peppers and removes one copy of it
   * from the list, if present; an unripe or dead plant changes nothing.
   */
  lemma HarvestSpec(g: Snapshot, plant: Plant)
    ensures !IsRipe(plant, g.date) ==> HarvestOf(g, plant) == g
    ensures IsRipe(plant, g.date) ==>
      var g' := HarvestOf(g, plant);
      var t := plant.plantType;
      && t in g'.inventory
      && g'.inventory[t].peppers == (if t in g.inventory then g.inventory[t].peppers else 0) + 15
      && multiset(g'.plants) == multiset(g.plants) - multiset{plant}
      && g'.balance == g.balance && g'.date == g.date
    ensures Valid(g) ==> Valid(HarvestOf(g, plant))
  {
    RemoveSpec(g.plants, plant);
  }

  /** Composting removes one copy and reports whether the plant was there. */
  lemma CompostSpec(g: Snapshot, plant: Plant)
    ensures CompostOf(g, plant).1 <==> plant in g.plants
    ensures multiset(CompostOf(g, plant).0.plants) == multiset(g.plants) - multiset{plant}
    ensures CompostOf(g, plant).0 == g.(plants := CompostOf(g, plant).0.plants)
    ensures Valid(g) ==> Valid(CompostOf(g, plant).0)
  {
    RemoveSpec(g.plants, plant);
  }

  /** Selling is priced linearly in scovilles and zeroes the type's peppers. */
  lemma SellProduceSpec(g: Snapshot, t: PlantType)
    ensures t !in g.inventory ==> SellProduceOf(g, t) == g
    ensures t in g.inventory ==>
      var g' := SellProduceOf(g, t);
      && g'.balance == g.balance + KotlinInt.Max(Scovilles(t), 1) * g.inventory[t].peppers
      && g'.inventory[t] == Game.StockLevel(g.inventory[t].seeds, 0)
    ensures Valid(g) ==> Valid(SellProduceOf(g, t))
  {
    if t in g.inventory {
      var p := g.inventory[t].peppers;
      assert GtBuyers.Total(TheBuyer, Scovilles(t), p) == KotlinInt.Max(Scovilles(t), 1) * p;
      if Valid(g) {
        assert KotlinInt.Max(Scovilles(t), 1) * p >= 0;
      }
    }
  }

  /** A tick ends the game exactly when the costs exceed the balance; otherwise only the clock moves. */
  lemma OnTickSpec(g: Snapshot)
    ensures OnTickOf(g).1 <==> TickCosts(g.light, g.medium) > g.balance
    ensures OnTickOf(g).0 == if OnTickOf(g).1 then g else g.(date := g.date + Game.TickMillis)
    ensures TickCosts(Ambient, Soil) == 10 && TickCosts(Halogen, Hydroponics) == 210
    ensures Valid(g) ==> Valid(OnTickOf(g).0)
  {
  }

  /** Upgrades change only on payment, and the base tiers cannot be bought. */
  lemma UpgradeOnlyWhenPaid(g: Snapshot, l: Light, m: Medium)
    ensures BuyLightOf(g, l).0.light != g.light ==>
      BuyLightOf(g, l).0.light == l && Game.Deduction(g.balance, LightCost(l)).0 == Game.Paid
    ensures BuyMediumOf(g, m).0.medium != g.medium ==>
      BuyMediumOf(g, m).0.medium == m && Game.Deduction(g.balance, MediumCost(m)).0 == Game.Paid
    ensures BuyLightOf(g, Ambient) == (g, Game.NullPointer) && BuyMediumOf(g, Soil) == (g, Game.NullPointer)
    ensures Valid(g) ==> Valid(BuyLightOf(g, l).0) && Valid(BuyMediumOf(g, m).0)
  {
  }

  // ---------------------------------------------------------------------------
  // The game object
  // ---------------------------------------------------------------------------

  class GameState {
    var balance: int
    var inventory: map<PlantType, StockLevel>
    var plants: seq<Plant>
    const area: Area
    var light: Light
    var medium: Medium
    var date: int

    function State(): Snapshot
      reads this
    {
      Snapshot(balance, inventory, plants, area, light, medium, date)
    }

    constructor (now: int)
      ensures State() == Initial(now)
    {
      balance := Game.StartingBalance;
      inventory := map[BellPepper := Game.StockLevel(1, 5), Evolcano := Game.StockLevel(10, 500)];
      plants := [];
      area := WindowSill;
      light := Ambient;
      medium := Soil;
      date := now;
    }

    method DeductPurchaseCost(cost: Option<Currencies.Currency>) returns (r: Game.Purchase)
      modifies this
      ensures (r, balance) == Game.Deduction(old(balance), cost)
      ensures State() == old(State()).(balance := balance)
    {
      if cost.None? {
        return Game.NoPrice;
      }
      if balance >= cost.value.total {
        balance := balance - cost.value.total;
        return Game.Paid;
      }
      return Game.Declined;
    }

    method Harvest(plant: Plant)
      modifies this
      ensures State() == HarvestOf(old(State()), plant)
    {
      if IsRipe(plant, date) {
        inventory := Game.AddPeppers(inventory, plant.plantType, Plants.Harvest(plant));
        var i := Game.IndexOf(plants, plant);
        if i >= 0 {
          plants := plants[..i] + plants[i + 1..];
        }
      }
    }

    method Compost(plant: Plant) returns (removed: bool)
      modifies this
      ensures (State(), removed) == CompostOf(old(State()), plant)
    {
      var i := Game.IndexOf(plants, plant);
      removed := i >= 0;
      if removed {
        plants := plants[..i] + plants[i + 1..];
      }
    }

    method SellProduce(t: PlantType)
      modifies this
      ensures State() == SellProduceOf(old(State()), t)
    {
      if t in inventory {
        var stock := inventory[t];
        balance := balance + GtBuyers.Total(TheBuyer, Scovilles(t), stock.peppers);
        inventory := inventory[t := stock.(peppers := 0)];
      }
    }

    method BuyLightUpgrade(desired: Light) returns (status: Game.Status)
      modifies this
      ensures (State(), status) == BuyLightOf(old(State()), desired)
    {
      var p := DeductPurchaseCost(LightCost(desired));
      if p == Game.Paid {
        light := desired;
      }
      status := Game.PurchaseStatus(p);
    }

    method BuyMediumUpgrade(desired: Medium) returns (status: Game.Status)
      modifies this
      ensures (State(), status) == BuyMediumOf(old(State()), desired)
    {
      var p := DeductPurchaseCost(MediumCost(desired));
      if p == Game.Paid {
        medium := desired;
      }
      status := Game.PurchaseStatus(p);
    }

    method PlantSeed(seed: Seed) returns (status: Game.Status)
      modifies this
      ensures (State(), status) == PlantSeedOf(old(State()), seed)
    {
      status := Game.Completed;
      if |plants| < Total(area) {
        var p := DeductPurchaseCost(Cost(seed.plantType));
        if p == Game.Paid {
          plants := plants + [Plant(seed.plantType, date)];
        }
        status := Game.PurchaseStatus(p);
      }
    }

    method OnTick() returns (gameOver: bool)
      modifies this
      ensures (State(), gameOver) == OnTickOf(old(State()))
    {
      balance := balance + 0;
      if TickCosts(light, medium) > balance {
        return true;
      }
      date := date + Game.TickMillis;
      gameOver := false;
    }
  }
}
