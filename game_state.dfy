/**
 * engine/GameState.kt: the running game. A fixed grid of pot slots (one per
 * cell of the current area, each empty or holding a plant), a balance, an
 * inventory of seeds and peppers per plant type, the current light and
 * medium, and the game clock. Commands buy, plant, harvest, compost and
 * sell; a tick checks the running costs and advances the clock.
 *
 * Times are epoch milliseconds; the starting time (`Instant.now()`) is a
 * parameter. The exceptions the source can throw are statuses here.
 */
module Game {
  import opened Wrappers
  import opened Currencies
  import opened RootTypes
  import opened Plants
  import Buyers
  import KotlinInt

  /** `StockLevel`: seeds and peppers held of one plant type. */
  datatype StockLevel = StockLevel(seeds: int, peppers: int)

  /** Every field a command reads or writes. */
  datatype Snapshot = Snapshot(
    balance: int,
    inventory: map<PlantType, StockLevel>,
    area: Area,
    plants: seq<Option<Plant>>,
    light: Light,
    medium: Medium,
    date: int)

  /**
   * How a command ended: normally, or with the exception the source throws
   * (`cost!!` on a free tier, a list index of -1, `nCopies` of a negative count).
   */
  datatype Status = Completed | NullPointer | IndexOutOfBounds | IllegalArgument

  /** What `deductPurchaseCost` did: charged, refused, or threw on a missing price. */
  datatype Purchase = Paid | Declined | NoPrice

  const StartingBalance := 10_000_000

  /** `plusSeconds(2000)`, in milliseconds. */
  const TickMillis := 2_000_000

  /** The state after construction at time `now`: a spare room of empty slots and the starting stock. */
  function Initial(now: int): Snapshot
  {
    Snapshot(StartingBalance, map[BellPepper := StockLevel(1, 5), Evolcano := StockLevel(10, 500)],
             SpareRoom, seq(Total(SpareRoom), i => None), Ambient, Soil, now)
  }

  /** The buyer never changes: `buyer` has a private setter that is never called. */
  const TheBuyer := Buyers.Friends

  /** Kotlin's `indexOf`: the first index holding `x`, or -1. */
  function IndexOf<T(==)>(s: seq<T>, x: T): (r: int)
    ensures -1 <= r < |s|
    ensures r == -1 <==> x !in s
    ensures r >= 0 ==> s[r] == x && forall k :: 0 <= k < r ==> s[k] != x
  {
    if s == [] then -1
    else if s[0] == x then 0
    else
      var r := IndexOf(s[1..], x);
      assert forall k :: 1 <= k < |s| ==> s[k] == s[1..][k - 1];
      if r == -1 then -1 else r + 1
  }

  /** `deductPurchaseCost`: the outcome and the new balance. */
  function Deduction(balance: int, cost: Option<Currency>): (Purchase, int)
  {
    match cost
    case None => (NoPrice, balance)
    case Some(c) => if balance >= c.total then (Paid, balance - c.total) else (Declined, balance)
  }

  /** `calculateCosts`: electricity and water used per tick at their unit prices. */
  function TickCosts(light: Light, medium: Medium): int
  {
    JoulesPerCostTick(light) * UnitCost(ElectricityJoule) + LitresPerCostTick(medium) * UnitCost(WaterLitre)
  }

  /** The `compute` of `harvest`: add to the type's peppers, creating the entry with no seeds. */
  function AddPeppers(inventory: map<PlantType, StockLevel>, t: PlantType, n: int): map<PlantType, StockLevel>
  {
    if t in inventory then inventory[t := inventory[t].(peppers := inventory[t].peppers + n)]
    else inventory[t := StockLevel(0, n)]
  }

  function HarvestOf(g: Snapshot, plant: Plant): (Snapshot, Status)
  {
    if !IsRipe(plant, g.date) then (g, Completed)
    else
      var stocked := g.(inventory := AddPeppers(g.inventory, plant.plantType, Harvest(plant)));
      var i := IndexOf(g.plants, Some(plant));
      if i < 0 then (stocked, IndexOutOfBounds)
      else (stocked.(plants := g.plants[i := None]), Completed)
  }

  function CompostOf(g: Snapshot, plant: Plant): (Snapshot, Status)
  {
    var i := IndexOf(g.plants, Some(plant));
    if i < 0 then (g, IndexOutOfBounds)
    else (g.(plants := g.plants[i := None]), Completed)
  }

  function SellProduceOf(g: Snapshot, t: PlantType): Snapshot
  {
    if t in g.inventory then
      var stock := g.inventory[t];
      g.(balance := g.balance + Buyers.Total(TheBuyer, Scovilles(t), stock.peppers),
         inventory := g.inventory[t := stock.(peppers := 0)])
    else g
  }

  /** The shared shape of `buyLightUpgrade` and `buyMediumUpgrade`: pay, or keep the old tier. */
  function PurchaseStatus(p: Purchase): Status
  {
    if p == NoPrice then NullPointer else Completed
  }

  function BuyLightOf(g: Snapshot, desired: Light): (Snapshot, Status)
  {
    var d := Deduction(g.balance, LightCost(desired));
    (if d.0 == Paid then g.(balance := d.1, light := desired) else g, PurchaseStatus(d.0))
  }

  function BuyMediumOf(g: Snapshot, desired: Medium): (Snapshot, Status)
  {
    var d := Deduction(g.balance, MediumCost(desired));
    (if d.0 == Paid then g.(balance := d.1, medium := desired) else g, PurchaseStatus(d.0))
  }

  /** `buyAreaUpgrade`: pay, then append the new area's extra slots; a smaller area throws after paying. */
  function BuyAreaOf(g: Snapshot, desired: Area): (Snapshot, Status)
  {
    var d := Deduction(g.balance, AreaCost(desired));
    if d.0 != Paid then (g, PurchaseStatus(d.0))
    else
      var extra := Total(desired) - Total(g.area);
      if extra < 0 then (g.(balance := d.1), IllegalArgument)
      else (g.(balance := d.1, plants := g.plants + seq(extra, i => None), area := desired), Completed)
  }

  /** `plantSeed`: into the first empty slot, if there is one and the seed is paid for. */
  function PlantSeedOf(g: Snapshot, seed: Seed): (Snapshot, Status)
  {
    var index := IndexOf(g.plants, None);
    if index < 0 then (g, Completed)
    else
      var d := Deduction(g.balance, Cost(seed.plantType));
      if d.0 != Paid then (g, PurchaseStatus(d.0))
      else (g.(balance := d.1, plants := g.plants[index := Some(Plant(seed.plantType, g.date))]), Completed)
  }

  /** `onTick`: whether the game is over, and the state after the tick. Income is 0; the cost is not deducted. */
  function OnTickOf(g: Snapshot): (Snapshot, bool)
  {
    var balance := g.balance + 0;
    if TickCosts(g.light, g.medium) > balance then (g, true)
    else (g.(balance := balance, date := g.date + TickMillis), false)
  }

  // ---------------------------------------------------------------------------
  // Properties of the commands
  // ---------------------------------------------------------------------------

  /** The state the commands keep: one slot per pot of the area, no debt, no negative stock. */
  predicate Valid(g: Snapshot)
  {
    && |g.plants| == Total(g.area)
    && g.balance >= 0
    && forall t :: t in g.inventory ==> g.inventory[t].seeds >= 0 && g.inventory[t].peppers >= 0
  }

  lemma InitialValid(now: int)
    ensures Valid(Initial(now))
    ensures |Initial(now).plants| == 16 && forall i :: 0 <= i < 16 ==> Initial(now).plants[i] == None
  {
  }

  /**
   * A purchase succeeds exactly when there is a price the balance can
   * afford, and then takes exactly that price; otherwise the balance stays.
   */
  lemma DeductionSpec(balance: int, cost: Option<Currency>)
    ensures Deduction(balance, cost).0 == Paid <==> cost.Some? && CanAfford(Currency(balance), cost.value)
    ensures Deduction(balance, cost).0 == NoPrice <==> cost.None?
    ensures Deduction(balance, cost).1 == if Deduction(balance, cost).0 == Paid then balance - cost.value.total else balance
    ensures cost.Some? && cost.value.total >= 0 ==> Deduction(balance, cost).1 >= 0 || Deduction(balance, cost).1 == balance
  {
    if cost.Some? {
      CanAffordIff(Currency(balance), cost.value);
    }
  }

  /**
   * A seed goes into the first empty slot, charging its price, and nothing
   * else changes; with no empty slot nothing is charged, an unaffordable seed
   * changes nothing, and a seed with no price throws.
   */
  lemma PlantSeedFillsFirstFree(g: Snapshot, seed: Seed)
    ensures None !in g.plants ==> PlantSeedOf(g, seed) == (g, Completed)
    ensures None in g.plants && Cost(seed.plantType).None? ==> PlantSeedOf(g, seed) == (g, NullPointer)
    ensures None in g.plants && Cost(seed.plantType).Some? && g.balance < Cost(seed.plantType).value.total ==>
      PlantSeedOf(g, seed) == (g, Completed)
    ensures None in g.plants && Cost(seed.plantType).Some? && g.balance >= Cost(seed.plantType).value.total ==>
      var (g', status) := PlantSeedOf(g, seed);
      var i := IndexOf(g.plants, None);
      && status == Completed
      && g'.balance == g.balance - Cost(seed.plantType).value.total
      && |g'.plants| == |g.plants|
      && g.plants[i] == None && (forall k :: 0 <= k < i ==> g.plants[k].Some?)
      && g'.plants[i] == Some(Plant(seed.plantType, g.date))
      && (forall k :: 0 <= k < |g.plants| && k != i ==> g'.plants[k] == g.plants[k])
      && g' == g.(balance := g'.balance, plants := g'.plants)
    ensures Valid(g) ==> Valid(PlantSeedOf(g, seed).0)
  {
    var i := IndexOf(g.plants, None);
    if i >= 0 {
      assert forall k :: 0 <= k < i ==> g.plants[k] != None;
    }
  }

  /**
   * A successful area purchase appends `new.total - old.total` empty slots
   * and keeps the existing ones, so each slot still stands for one pot; a
   * smaller area is paid for and then throws, leaving slots and area alone.
   */
  lemma BuyAreaAppendsSlots(g: Snapshot, desired: Area)
    requires Valid(g)
    ensures var (g', status) := BuyAreaOf(g, desired);
      && Valid(g')
      && (status == Completed ==>
            g'.plants[..|g.plants|] == g.plants && forall k :: |g.plants| <= k < |g'.plants| ==> g'.plants[k] == None)
      && (g'.area != g.area ==> g'.area == desired && status == Completed)
      && (Deduction(g.balance, AreaCost(desired)).0 == Paid && Total(desired) < Total(g.area) ==>
            status == IllegalArgument && g' == g.(balance := g.balance - AreaCost(desired).value.total))
      && (Deduction(g.balance, AreaCost(desired)).0 != Paid ==> g' == g)
  {
    var d := Deduction(g.balance, AreaCost(desired));
    if d.0 == Paid {
      var extra := Total(desired) - Total(g.area);
      if extra >= 0 {
        var p := g.plants + seq(extra, i => None);
        assert p[..|g.plants|] == g.plants;
      }
    }
  }

  /** A light or medium changes only on a successful payment, to whatever tier was asked for. */
  lemma UpgradeOnlyWhenPaid(g: Snapshot, l: Light, m: Medium)
    ensures BuyLightOf(g, l).0.light != g.light ==>
      BuyLightOf(g, l).0.light == l && Deduction(g.balance, LightCost(l)).0 == Paid
    ensures BuyLightOf(g, l).0 == g.(balance := BuyLightOf(g, l).0.balance, light := BuyLightOf(g, l).0.light)
    ensures BuyMediumOf(g, m).0.medium != g.medium ==>
      BuyMediumOf(g, m).0.medium == m && Deduction(g.balance, MediumCost(m)).0 == Paid
    ensures BuyMediumOf(g, m).0 == g.(balance := BuyMediumOf(g, m).0.balance, medium := BuyMediumOf(g, m).0.medium)
    ensures BuyLightOf(g, Ambient) == (g, NullPointer) && BuyMediumOf(g, Soil) == (g, NullPointer)
    ensures Valid(g) ==> Valid(BuyLightOf(g, l).0) && Valid(BuyMediumOf(g, m).0)
  {
  }

  /**
   * Harvesting a ripe plant adds its 15 peppers (starting the entry with no
   * seeds when the type was never stocked) and empties the first slot holding
   * it; an unripe or dead plant changes nothing. A ripe plant in no slot is
   * stocked and then throws.
   */
  lemma HarvestSpec(g: Snapshot, plant: Plant)
    ensures !IsRipe(plant, g.date) ==> HarvestOf(g, plant) == (g, Completed)
    ensures IsRipe(plant, g.date) ==>
      var (g', status) := HarvestOf(g, plant);
      var t := plant.plantType;
      && t in g'.inventory
      && g'.inventory[t].peppers == (if t in g.inventory then g.inventory[t].peppers else 0) + 15
      && g'.inventory[t].seeds == (if t in g.inventory then g.inventory[t].seeds else 0)
      && (forall u :: u in g.inventory && u != t ==> u in g'.inventory && g'.inventory[u] == g.inventory[u])
      && (status == Completed <==> Some(plant) in g.plants)
      && (status == Completed ==>
            var i := IndexOf(g.plants, Some(plant));
            g'.plants == g.plants[i := None] && forall k :: 0 <= k < i ==> g.plants[k] != Some(plant))
      && (status != Completed ==> g'.plants == g.plants)
    ensures Valid(g) ==> Valid(HarvestOf(g, plant).0)
  {
  }

  /** Composting empties the first slot holding the plant, ripe or not; a plant in no slot throws. */
  lemma CompostSpec(g: Snapshot, plant: Plant)
    ensures Some(plant) in g.plants ==>
      var i := IndexOf(g.plants, Some(plant));
      CompostOf(g, plant) == (g.(plants := g.plants[i := None]), Completed) && g.plants[i] == Some(plant)
    ensures Some(plant) !in g.plants ==> CompostOf(g, plant) == (g, IndexOutOfBounds)
    ensures Valid(g) ==> Valid(CompostOf(g, plant).0)
  {
  }

  /**
   * Selling credits the buyer's price for all the type's peppers and zeroes
   * them, leaving its seeds; a type never stocked is a no-op.
   */
  lemma SellProduceSpec(g: Snapshot, t: PlantType)
    ensures t !in g.inventory ==> SellProduceOf(g, t) == g
    ensures t in g.inventory ==>
      var g' := SellProduceOf(g, t);
      && g'.balance == g.balance + Buyers.Total(TheBuyer, Scovilles(t), g.inventory[t].peppers)
      && g'.inventory[t] == StockLevel(g.inventory[t].seeds, 0)
      && g'.inventory.Keys == g.inventory.Keys
    ensures Valid(g) ==> Valid(SellProduceOf(g, t))
  {
    if Valid(g) && t in g.inventory {
      var p := g.inventory[t].peppers;
      var unit := 2 + KotlinInt.Max(KotlinInt.TruncDiv(Scovilles(t), 1000), 1) * Buyers.PricePerScoville(TheBuyer).total;
      assert unit >= 3;
      assert Buyers.Total(TheBuyer, Scovilles(t), p) == unit * p;
    }
  }

  /**
   * A tick ends the game, changing nothing, exactly when the running costs
   * exceed the balance; otherwise only the clock moves, by 2000 seconds.
   */
  lemma OnTickSpec(g: Snapshot)
    ensures OnTickOf(g).1 <==> TickCosts(g.light, g.medium) > g.balance
    ensures OnTickOf(g).0 == if OnTickOf(g).1 then g else g.(date := g.date + TickMillis)
    ensures TickCosts(Ambient, Soil) == 1 && TickCosts(Halogen, Hydroponics) == 31
    ensures Valid(g) ==> Valid(OnTickOf(g).0)
  {
  }

  // ---------------------------------------------------------------------------
  // The game object
  // ---------------------------------------------------------------------------

  class GameState {
    var balance: int
    var inventory: map<PlantType, StockLevel>
    var area: Area
    var plants: seq<Option<Plant>>
    var light: Light
    var medium: Medium
    var date: int

    function State(): Snapshot
      reads this
    {
      Snapshot(balance, inventory, area, plants, light, medium, date)
    }

    constructor (now: int)
      ensures State() == Initial(now)
    {
      balance := StartingBalance;
      inventory := map[BellPepper := StockLevel(1, 5), Evolcano := StockLevel(10, 500)];
      area := SpareRoom;
      plants := seq(Total(SpareRoom), i => None);
      light := Ambient;
      medium := Soil;
      date := now;
    }

    method DeductPurchaseCost(cost: Option<Currency>) returns (r: Purchase)
      modifies this
      ensures (r, balance) == Deduction(old(balance), cost)
      ensures State() == old(State()).(balance := balance)
    {
      if cost.None? {
        return NoPrice;
      }
      if balance >= cost.value.total {
        balance := balance - cost.value.total;
        return Paid;
      }
      return Declined;
    }

    method Harvest(plant: Plant) returns (status: Status)
      modifies this
      ensures (State(), status) == HarvestOf(old(State()), plant)
    {
      status := Completed;
      if IsRipe(plant, date) {
        var t := plant.plantType;
        if t in inventory {
          var stock := inventory[t];
          inventory := inventory[t := stock.(peppers := stock.peppers + Plants.Harvest(plant))];
        } else {
          inventory := inventory[t := StockLevel(0, Plants.Harvest(plant))];
        }
        var i := IndexOf(plants, Some(plant));
        if i < 0 {
          return IndexOutOfBounds;
        }
        plants := plants[i := None];
      }
    }

    method Compost(plant: Plant) returns (status: Status)
      modifies this
      ensures (State(), status) == CompostOf(old(State()), plant)
    {
      var i := IndexOf(plants, Some(plant));
      if i < 0 {
        return IndexOutOfBounds;
      }
      plants := plants[i := None];
      status := Completed;
    }

    method SellProduce(t: PlantType)
      modifies this
      ensures State() == SellProduceOf(old(State()), t)
    {
      if t in inventory {
        var stock := inventory[t];
        balance := balance + Buyers.Total(TheBuyer, Scovilles(t), stock.peppers);
        inventory := inventory[t := stock.(peppers := 0)];
      }
    }

    method BuyLightUpgrade(desired: Light) returns (status: Status)
      modifies this
      ensures (State(), status) == BuyLightOf(old(State()), desired)
    {
      var p := DeductPurchaseCost(LightCost(desired));
      if p == Paid {
        light := desired;
      }
      status := PurchaseStatus(p);
    }

    method BuyMediumUpgrade(desired: Medium) returns (status: Status)
      modifies this
      ensures (State(), status) == BuyMediumOf(old(State()), desired)
    {
      var p := DeductPurchaseCost(MediumCost(desired));
      if p == Paid {
        medium := desired;
      }
      status := PurchaseStatus(p);
    }

    method BuyAreaUpgrade(desired: Area) returns (status: Status)
      modifies this
      ensures (State(), status) == BuyAreaOf(old(State()), desired)
    {
      var p := DeductPurchaseCost(AreaCost(desired));
      if p != Paid {
        return PurchaseStatus(p);
      }
      var extra := Total(desired) - Total(area);
      if extra < 0 {
        return IllegalArgument;
      }
      plants := plants + seq(extra, i => None);
      area := desired;
      status := Completed;
    }

    method PlantSeed(seed: Seed) returns (status: Status)
      modifies this
      ensures (State(), status) == PlantSeedOf(old(State()), seed)
    {
      var index := IndexOf(plants, None);
      status := Completed;
      if index >= 0 {
        var p := DeductPurchaseCost(Cost(seed.plantType));
        if p == Paid {
          plants := plants[index := Some(Plant(seed.plantType, date))];
        }
        status := PurchaseStatus(p);
      }
    }

    method OnTick() returns (gameOver: bool)
      modifies this
      ensures (State(), gameOver) == OnTickOf(old(State()))
    {
      balance := balance + 0;
      if TickCosts(light, medium) > balance {
        return true;
      }
      date := date + TickMillis;
      gameOver := false;
    }
  }
}
