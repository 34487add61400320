/** engine/Plants.kt: the starter pepper types, seeds and planted plants. */
module Plants {
  import opened Wrappers
  import opened Currencies
  import opened Growth

  datatype PlantType = BellPepper | Poblano | Guajillo | Jalapeno | BirdsEye | Evolcano

  function DisplayName(t: PlantType): string
  {
    match t
    case BellPepper => "Bell Pepper"
    case Poblano => "Poblano"
    case Guajillo => "Guajillo"
    case Jalapeno => "Jalapeño"
    case BirdsEye => "Bird's Eye"
    case Evolcano => "Evolcano"
  }

  function Scovilles(t: PlantType): int
  {
    match t
    case BellPepper => 0
    case Poblano => 1_250
    case Guajillo => 3_000
    case Jalapeno => 6_000
    case BirdsEye => 75_000
    case Evolcano => 100_000
  }

  function PhasesOf(t: PlantType): Phases
  {
    Default()
  }

  /** The price of one seed; Evolcano seeds cannot be bought. */
  function Cost(t: PlantType): Option<Currency>
  {
    match t
    case BellPepper => Some(Currency(2))
    case Poblano => Some(Currency(2))
    case Guajillo => Some(Currency(5))
    case Jalapeno => Some(Currency(10))
    case BirdsEye => Some(Currency(20))
    case Evolcano => None
  }

  datatype Seed = Seed(plantType: PlantType)

  function ToSeed(t: PlantType): (s: Seed)
    ensures s.plantType == t
  {
    Seed(t)
  }

  /** `toSeed` and `plantType` are inverse: every seed is the seed of its own type, and distinct types give distinct seeds. */
  lemma SeedRoundTrip(s: Seed, a: PlantType, b: PlantType)
    ensures ToSeed(s.plantType) == s
    ensures ToSeed(a) == ToSeed(b) <==> a == b
  {
  }

  /** A planted plant: its type and the time it was planted, in epoch milliseconds. */
  datatype Plant = Plant(plantType: PlantType, epochMillis: int)

  /** The plant's phase at `nowMillis`, measured from its planting time; None once it has died. */
  function CurrentPhase(plant: Plant, nowMillis: int): Option<PhaseName>
  {
    PhaseAt(PhasesOf(plant.plantType), nowMillis - plant.epochMillis)
  }

  /** `isRipe`: a plant is ripe in the Ripening phase; a dead plant is not ripe. */
  predicate IsRipe(plant: Plant, nowMillis: int)
  {
    match CurrentPhase(plant, nowMillis)
    case Some(phase) => Growth.IsRipe(phase)
    case None => false
  }

  /** Peppers a harvest yields. */
  function Harvest(plant: Plant): int
  {
    15
  }

  lemma IsRipeIff(plant: Plant, nowMillis: int)
    ensures IsRipe(plant, nowMillis) <==> CurrentPhase(plant, nowMillis) == Some(Ripening)
    ensures CurrentPhase(plant, nowMillis).None? ==> !IsRipe(plant, nowMillis)
  {
  }

  /** Every starter type ripens between 81 and 88 days after planting and dies after that. */
  lemma RipeWindow(plant: Plant, nowMillis: int)
    ensures IsRipe(plant, nowMillis) <==>
      81 * MillisPerDay < nowMillis - plant.epochMillis <= 88 * MillisPerDay
    ensures CurrentPhase(plant, nowMillis).None? <==>
      nowMillis - plant.epochMillis > 88 * MillisPerDay
  {
    DefaultRipeningWindow(nowMillis - plant.epochMillis);
  }

  /** Every type grows by the default phases; all seeds but Evolcano's have a price. */
  lemma TableFacts(t: PlantType)
    ensures PhasesOf(t) == Default()
    ensures Cost(t).None? <==> t == Evolcano
    ensures Cost(t).Some? ==> Cost(t).value.total in {2, 5, 10, 20}
    ensures Harvest(Plant(t, 0)) == 15
  {
  }
}
