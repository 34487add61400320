# Scoville 2000 game engine in Dafny

This project models the engine of *Scoville 2000*, an Android idle game about growing and breeding chilli peppers, and proves properties of the model. It also models the engine of its predecessor, *gt2000*. The model covers:

- **Tables and prices.** Areas, lights, media, memberships, buyers and technologies: their price formulas, their next-tier `upgrades` lookup and the technology visibility filter (`area.dfy`, `light.dfy`, `medium.dfy`, `membership.dfy`, `buyer.dfy`, `technology.dfy`, `currency.dfy`, `upgradable.dfy`). The root-package `Types.kt` tables of both games are in `root_types.dfy` and `gt_types.dfy`, and the older buyer is in `gt_buyer.dfy`.
- **Growth.** The phase a plant is in after a given elapsed time, and ripeness (`phases.dfy`, `plants.dfy`).
- **Genetics.** Genes are pairs of unsigned 64-bit words, with population count, single-bit mutation and single-point crossover. The model also covers random genes with a chosen number of set bits, four-gene chromosomes, and the name a bred pepper gets from its genes (`genetics.dfy`, `name_cross.dfy`).
- **Random numbers.** The serialisable xorwow generator (Marsaglia, "Xorshift RNGs", 2003), with its seeding, its 64-draw warm-up and the bounded `nextInt(from, until)` draw (`serializable_random.dfy`).
- **Breeding.** The breeding population: a set ordered by (fitness, id) and capped at 25, its initial fill, the generation loop and the final pick (`population.dfy`). Breeding crosses chromosomes with `Chromosome.cross` as the program writes it. The cross it evidently intends is defined and proved beside it (see Findings).
- **Game state.** The command handlers of both games: purchases, planting, harvesting, composting, selling and the clock tick (`game_state.dfy` for Scoville 2000 and `gt_game_state.dfy` for gt2000).

Kotlin's integer operators are modelled exactly where they matter:

- `/` and `%` truncate toward zero (`kotlin_int.dfy`).
- `Int` arithmetic in the generator wraps at 32 bits.
- A `ULong` is a sequence of 64 bits, so `xor`, `and`, `or`, `inv` and `shl` are defined position by position.

State-changing code is modelled as classes whose fields the methods update:

- `RandomSource.SerializableRandom` holds the six generator words.
- `Population.GeneticComputation` holds the ordered population, the generation counter and the generator it shares.
- `Game.GameState` and `GtGame.GameState` hold the balance, inventory, plants, tiers and clock.

Each method is proved equal to a function of the old state. The properties are proved about those functions. Exceptions the source can throw are status values: a `!!` on a missing price, a list index of -1, `nCopies` of a negative count, `take` of a negative count, an unreachable `when` branch, and `pollLast()` returning null on an almost empty population.

## Model

| member | source | states |
|---|---|---|
| Currencies.CanAffordReflexive | app/src/main/java/com/will118/scoville2000/engine/Currency.kt:11 | every amount affords itself |
| Currencies.CanAffordMonotone | app/src/main/java/com/will118/scoville2000/engine/Currency.kt:11 | a larger balance affords whatever a smaller one affords |
| Currencies.CanAffordAntitone | app/src/main/java/com/will118/scoville2000/engine/Currency.kt:11 | affording a price means affording every cheaper price |
| Currencies.CanAffordTransitive | app/src/main/java/com/will118/scoville2000/engine/Currency.kt:11 | affordability chains through an intermediate amount |
| KotlinInt.TruncDiv | app/src/main/java/com/will118/scoville2000/engine/Buyer.kt:13 | Kotlin `/`: equals floor division on non-negative operands and rounds toward zero for a negative dividend |
| KotlinInt.TruncRem | app/src/main/java/com/will118/scoville2000/engine/Genetics.kt:100 | Kotlin `%`: the remainder completes the truncated quotient, has the dividend's sign and is smaller than the divisor in magnitude |
| Upgradable.DropWhileAtMost | app/src/main/java/com/will118/scoville2000/engine/Area.kt:43-44 | `dropWhile { ordinal <= k }` is a suffix; every dropped value has ordinal at most k and the first kept one exceeds k |
| Upgradable.Take | app/src/main/java/com/will118/scoville2000/engine/Area.kt:45 | `take(n)` is the prefix of length min(n, size) |
| Upgradable.UpgradesIsNextTier | app/src/main/java/com/will118/scoville2000/engine/Area.kt:42-45 | over any enumeration listed by ordinal, `upgrades` is exactly the next value, or empty for the last |
| Areas.Total | app/src/main/java/com/will118/scoville2000/engine/Area.kt:47 | an area holds between 1 and 1024 pots |
| Areas.ValuesEnumerated | app/src/main/java/com/will118/scoville2000/engine/Area.kt:11-40 | `values()` lists every area at its ordinal |
| Areas.UpgradesIsNextTier | app/src/main/java/com/will118/scoville2000/engine/Area.kt:42-45 | the only upgrade offered is the next tier; BusinessPark has none |
| Areas.UpgradeHoldsMorePots | app/src/main/java/com/will118/scoville2000/engine/Area.kt:11-47 | an upgrade holds exactly four times as many pots |
| Areas.DimensionsDouble | app/src/main/java/com/will118/scoville2000/engine/Area.kt:11-40 | dimensions start at 1 and double from tier to tier |
| Areas.TotalsIncrease | app/src/main/java/com/will118/scoville2000/engine/Area.kt:11-47 | later tiers never hold fewer pots; the most is 1024 |
| Areas.CostsIncrease | app/src/main/java/com/will118/scoville2000/engine/Area.kt:11-40 | WindowSill has no price, every later tier has one, and prices strictly increase |
| Lights.ValuesEnumerated | app/src/main/java/com/will118/scoville2000/engine/Light.kt:12-35 | `values()` lists every light at its ordinal |
| Lights.UpgradesIsNextTier | app/src/main/java/com/will118/scoville2000/engine/Light.kt:37-40 | the only upgrade is the next tier; LED has none |
| Lights.StrengthIncreases | app/src/main/java/com/will118/scoville2000/engine/Light.kt:12-35 | strength strictly increases with the tier |
| Lights.AmbientIsFree | app/src/main/java/com/will118/scoville2000/engine/Light.kt:12-17 | Ambient has no price and uses no energy; every other light has a price |
| Media.ValuesEnumerated | app/src/main/java/com/will118/scoville2000/engine/Medium.kt:12-29 | `values()` lists every medium at its ordinal |
| Media.UpgradesIsNextTier | app/src/main/java/com/will118/scoville2000/engine/Medium.kt:31-34 | the only upgrade is the next tier; Hydroponics has none |
| Media.EffectivenessIncreases | app/src/main/java/com/will118/scoville2000/engine/Medium.kt:12-29 | effectiveness strictly increases; every medium uses one litre per cost tick |
| Media.SoilIsFree | app/src/main/java/com/will118/scoville2000/engine/Medium.kt:12-17 | Soil has no price and every other medium has one |
| Memberships.DistillateTotal | app/src/main/java/com/will118/scoville2000/engine/Membership.kt:30-31 | a distillate sale is worth 0 when the multiplier or the quantity is 0, or when it has under 1000 base scovilles |
| Memberships.ValuesEnumerated | app/src/main/java/com/will118/scoville2000/engine/Membership.kt:10-24 | `values()` lists every membership at its ordinal |
| Memberships.UpgradesIsNextTier | app/src/main/java/com/will118/scoville2000/engine/Membership.kt:33-36 | the only upgrade is the next tier; HeatExchange has none |
| Memberships.MildUnitPrice | app/src/main/java/com/will118/scoville2000/engine/Membership.kt:26-27 | below 2000 scovilles the unit price is 2 plus the price per scoville |
| Memberships.TotalLinear | app/src/main/java/com/will118/scoville2000/engine/Membership.kt:26-27 | zero quantity sells for 0 and the total is additive in the quantity |
| Memberships.TotalMonotoneInTier | app/src/main/java/com/will118/scoville2000/engine/Membership.kt:10-27 | a higher tier never pays less for the same non-negative quantity |
| Memberships.PricesIncrease | app/src/main/java/com/will118/scoville2000/engine/Membership.kt:10-24 | the price per scoville strictly increases and doubles from tier to tier |
| Buyers.TotalPerPepper | app/src/main/java/com/will118/scoville2000/engine/Buyer.kt:12-13 | the per-pepper price is 2 plus the tier price times max(scovilles / 1000, 1); no peppers earn 0 |
| Buyers.BellPepperToFriends | app/src/main/java/com/will118/scoville2000/engine/Buyer.kt:7-13 | a 0-scoville pepper sells to Friends for 3 |
| Buyers.TotalMonotoneInTier | app/src/main/java/com/will118/scoville2000/engine/Buyer.kt:6-13 | a higher buyer tier never pays less for the same non-negative sale |
| GtBuyers.TotalEdgeCases | app/src/main/java/com/will118/gt2000/engine/Buyer.kt:11-12 | the older price is linear in scovilles, counts a heatless pepper as 1 scoville, and no peppers earn 0 |
| GtBuyers.TotalMonotoneInTier | app/src/main/java/com/will118/gt2000/engine/Buyer.kt:5-12 | a higher buyer tier never pays less |
| Technologies.VisibleAmong | app/src/main/java/com/will118/scoville2000/engine/Technology.kt:14 | `filter` keeps exactly the visible technologies of the list, nothing else, and leaves them in the list's order (the result is a subsequence) |
| Technologies.FilterKeepsDeclarationOrder | app/src/main/java/com/will118/scoville2000/engine/Technology.kt:14 | filtering a list in declaration order leaves it in declaration order |
| Technologies.VisibleTechnologiesInOrder | app/src/main/java/com/will118/scoville2000/engine/Technology.kt:14 | `visibleTechnologies()` lists the visible technologies once each, in declaration order; with `VisibleIff` this fixes the list at every level |
| Technologies.AllVisibleKeepsList | app/src/main/java/com/will118/scoville2000/engine/Technology.kt:14 | when every element is visible, the filter returns the list unchanged |
| Technologies.NoneVisibleEmptiesList | app/src/main/java/com/will118/scoville2000/engine/Technology.kt:14 | when no element is visible, the filter returns nothing |
| Technologies.VisibleIff | app/src/main/java/com/will118/scoville2000/engine/Technology.kt:14 | a technology is listed at a level exactly when its visibility level is at most that level |
| Technologies.NothingVisibleAtNone | app/src/main/java/com/will118/scoville2000/engine/Technology.kt:6-28 | nothing is visible at level None |
| Technologies.AllVisibleAtQuantum | app/src/main/java/com/will118/scoville2000/engine/Technology.kt:14-58 | all six technologies are visible, in declaration order, at level Quantum |
| Technologies.VisibleMonotone | app/src/main/java/com/will118/scoville2000/engine/Technology.kt:14 | what is visible at a level stays visible at every higher level |
| Technologies.OnlyAutoPlanterRepeats | app/src/main/java/com/will118/scoville2000/engine/Technology.kt:17-58 | only the AutoPlanter can be bought repeatedly |
| RootTypes.Total | app/src/main/java/com/will118/scoville2000/engine/Types.kt:35 | an area of the root tables holds between 1 and 256 pots |
| RootTypes.DimensionIsPowerOfTwo | app/src/main/java/com/will118/scoville2000/engine/Types.kt:9-33 | dimensions are 1, 2, 4, 8 and 16: two to the power of the ordinal |
| RootTypes.DimensionsIncrease | app/src/main/java/com/will118/scoville2000/engine/Types.kt:9-35 | dimensions and pot counts strictly increase in declaration order |
| RootTypes.StrengthNonDecreasing | app/src/main/java/com/will118/scoville2000/engine/Types.kt:53-76 | light strength never decreases with the tier; Halogen and LED tie |
| RootTypes.EffectivenessIncreases | app/src/main/java/com/will118/scoville2000/engine/Types.kt:86-103 | medium effectiveness strictly increases; every medium uses one litre |
| RootTypes.BaseTiersHaveNoCost | app/src/main/java/com/will118/scoville2000/engine/Types.kt:9-91 | WindowSill, Ambient and Soil are exactly the tiers without a price; Ambient uses no energy |
| GtTypes.Total | app/src/main/java/com/will118/gt2000/engine/Types.kt:32 | an older area holds between 1 and 256 pots |
| GtTypes.DimensionsIncrease | app/src/main/java/com/will118/gt2000/engine/Types.kt:1-32 | each later tier at least doubles the dimension and holds more pots |
| GtTypes.StrengthNonDecreasing | app/src/main/java/com/will118/gt2000/engine/Types.kt:43-73 | light strength never decreases with the tier |
| GtTypes.EffectivenessIncreases | app/src/main/java/com/will118/gt2000/engine/Types.kt:75-99 | medium effectiveness strictly increases |
| GtTypes.BaseTiersHaveNoCost | app/src/main/java/com/will118/gt2000/engine/Types.kt:1-99 | WindowSill, Ambient and Soil are exactly the tiers without a price |
| Growth.NameAt | app/src/main/java/com/will118/scoville2000/engine/Phases.kt:5-11 | the i-th phase name has ordinal i |
| Growth.Durations | app/src/main/java/com/will118/scoville2000/engine/Phases.kt:36-43 | the ordered phase list has six durations |
| Growth.FirstPhaseFrom | app/src/main/java/com/will118/scoville2000/engine/Phases.kt:48-55 | a phase found from position i is at or after i and ends no earlier than the elapsed time |
| Growth.CurrentPhase | app/src/main/java/com/will118/scoville2000/engine/Phases.kt:45-56 | the subtracting loop returns exactly the phase whose cumulative end first reaches the elapsed time, or none |
| Growth.FirstPhaseFromIff | app/src/main/java/com/will118/scoville2000/engine/Phases.kt:48-52 | the search from i stops at phase k exactly when the elapsed time is within k's end and past every earlier end from i |
| Growth.PhaseAtIff | app/src/main/java/com/will118/scoville2000/engine/Phases.kt:45-56 | phase k is current exactly when the elapsed time is at most its cumulative end and beyond every earlier one, so a boundary belongs to the earlier phase |
| Growth.FirstPhaseFromNone | app/src/main/java/com/will118/scoville2000/engine/Phases.kt:45-56 | the search finds nothing exactly when the elapsed time is past every remaining end |
| Growth.DeadIffPastTotal | app/src/main/java/com/will118/scoville2000/engine/Phases.kt:45-56 | with non-negative durations, the plant is dead exactly when the elapsed time exceeds the sum of all six |
| Growth.SproutUntilItsDuration | app/src/main/java/com/will118/scoville2000/engine/Phases.kt:45-53 | any elapsed time up to the sprout duration, negative included, is Sprout |
| Growth.PhaseMonotone | app/src/main/java/com/will118/scoville2000/engine/Phases.kt:36-56 | with non-negative durations, more elapsed time never gives an earlier phase, and a dead plant stays dead |
| Growth.DefaultRipeningWindow | app/src/main/java/com/will118/scoville2000/engine/Phases.kt:26-33 | under the default phases a plant is Ripening exactly in the window from 81 days (exclusive) to 88 days (inclusive), and dead after 88 |
| Plants.SeedRoundTrip | app/src/main/java/com/will118/scoville2000/engine/Plants.kt:54 | `toSeed` inverts `plantType`: every seed is its own type's seed, and distinct types give distinct seeds |
| Plants.IsRipeIff | app/src/main/java/com/will118/scoville2000/engine/Plants.kt:62-70 | a plant is ripe exactly in the Ripening phase; a dead plant is not ripe |
| Plants.RipeWindow | app/src/main/java/com/will118/scoville2000/engine/Plants.kt:62-70 | a plant is ripe exactly 81 to 88 days after planting and dead after that |
| Plants.TableFacts | app/src/main/java/com/will118/scoville2000/engine/Plants.kt:17-72 | every type grows by the default phases; only Evolcano seeds have no price, the others cost 2, 5, 10 or 20; a harvest yields 15 |
| Genetics.CountOnes | app/src/main/java/com/will118/scoville2000/engine/Genetics.kt:39 | the set bits among the first n positions are at most n |
| Genetics.CountOneBits | app/src/main/java/com/will118/scoville2000/engine/Genetics.kt:39 | `countOneBits` of a word is at most 64 |
| Genetics.SingleBit | app/src/main/java/com/will118/scoville2000/engine/Genetics.kt:42 | `1UL shl i` sets exactly bit i mod 64 |
| Genetics.HighBits | app/src/main/java/com/will118/scoville2000/engine/Genetics.kt:54 | `0UL.inv() shl c` sets exactly the bits at or above c mod 64 |
| Genetics.PopCount | app/src/main/java/com/will118/scoville2000/engine/Genetics.kt:39 | a gene's population count lies in [0, 128] |
| Genetics.MutateToggles | app/src/main/java/com/will118/scoville2000/engine/Genetics.kt:41-48 | mutation toggles the chosen bit in both halves and leaves every other bit alone |
| Genetics.MutateInvolution | app/src/main/java/com/will118/scoville2000/engine/Genetics.kt:41-48 | mutating twice at the same index restores the gene |
| Genetics.MutatePopCount | app/src/main/java/com/will118/scoville2000/engine/Genetics.kt:41-48 | a mutation changes the population count by -2, 0 or +2, and +2 exactly when both bits were clear |
| Genetics.CrossBits | app/src/main/java/com/will118/scoville2000/engine/Genetics.kt:50-64 | in each half, bits at or above the crossover come from `this` and bits below it from `other` |
| Genetics.CrossAtZero | app/src/main/java/com/will118/scoville2000/engine/Genetics.kt:50-64 | crossing at 0 returns `this` |
| Genetics.CrossSelf | app/src/main/java/com/will118/scoville2000/engine/Genetics.kt:50-64 | crossing a gene with itself returns it |
| Genetics.CrossConservesPopCount | app/src/main/java/com/will118/scoville2000/engine/Genetics.kt:50-64 | the two children of a cross carry exactly the parents' set bits between them |
| Genetics.Distinct | app/src/main/java/com/will118/scoville2000/engine/Genetics.kt:28 | `distinct()` keeps every element once and nothing else |
| Genetics.SetBitEffect | app/src/main/java/com/will118/scoville2000/engine/Genetics.kt:30-36 | one fold step sets its position and leaves every other position as it was |
| Genetics.SetBitCount | app/src/main/java/com/will118/scoville2000/engine/Genetics.kt:30-36 | setting a clear position adds one to the population count |
| Genetics.SetAllEffect | app/src/main/java/com/will118/scoville2000/engine/Genetics.kt:30-36 | folding distinct clear positions sets exactly those, adding their number to the count |
| Genetics.WithOneBitsCount | app/src/main/java/com/will118/scoville2000/engine/Genetics.kt:25-36 | `withOneBits(k)` fails exactly for negative k and otherwise has min(k, n) bits set, n being the number of distinct positions in the shuffled order; its set bits are among them, and all of them are set when k >= n |
| Genetics.TotalPopCount | app/src/main/java/com/will118/scoville2000/engine/Genetics.kt:80-83 | a chromosome's total population count lies in [0, 512] |
| Genetics.WithOneBitsOfShuffle | app/src/main/java/com/will118/scoville2000/engine/Genetics.kt:25-36 | for any shuffle of the 128 (half, index) pairs, `withOneBits(k)` has exactly min(k, 128) set bits, so exactly k for 0 <= k <= 128 |
| Genetics.MutateChromosomeEffect | app/src/main/java/com/will118/scoville2000/engine/Genetics.kt:100-106 | a mutation fails exactly at a negative point that is not a multiple of 4; otherwise it mutates at that point exactly the gene `point % 4` selects (0 pepperYield, 1 pepperSize, 2 scovilleCount, 3 growthDuration; pepperYield for a negative multiple of 4), leaves the other three unchanged, and repeating it undoes it |
| Genetics.CrossChromosomeKeepsLeftYield | app/src/main/java/com/will118/scoville2000/engine/Genetics.kt:113 | as written, a child's yield gene is always its left parent's |
| Genetics.CrossChromosomeIgnoresRightYield | app/src/main/java/com/will118/scoville2000/engine/Genetics.kt:113 | a concrete pair of parents whose right yield never reaches the child as written, but does under the intended cross |
| Genetics.CrossChromosomeIntendedConserves | app/src/main/java/com/will118/scoville2000/engine/Genetics.kt:108-115 | with every gene crossed with the right parent's, the two children carry exactly the parents' set bits, gene by gene and in total |
| NameCross.CappedIndexBounds | app/src/main/java/com/will118/scoville2000/engine/GeneticsNameCross.kt:7-24 | the rounded, capped index is within a non-empty list and -1 for an empty one; no set bits give the first entry and all set bits the last |
| NameCross.CappedIndexMonotone | app/src/main/java/com/will118/scoville2000/engine/GeneticsNameCross.kt:7-24 | more set bits never give a smaller index |
| NameCross.NameCrossShape | app/src/main/java/com/will118/scoville2000/engine/GeneticsNameCross.kt:6-30 | a name exists exactly when both lists are non-empty, and it is an adjective, a space and a pepper noun from the lists |
| NameCross.NounFollowsScovilles | app/src/main/java/com/will118/scoville2000/engine/GeneticsNameCross.kt:7-15 | the noun depends only on the scoville gene and is monotone in its population count |
| NameCross.AdjectiveFollowsTotal | app/src/main/java/com/will118/scoville2000/engine/GeneticsNameCross.kt:17-24 | the adjective index is monotone in the total population count |
| NameCross.NounExtremes | app/src/main/java/com/will118/scoville2000/engine/GeneticsNameCross.kt:7-15 | a full scoville gene gives the last noun and an empty one the first |
| RandomSource.SerializableRandom.constructor | app/src/main/java/com/will118/scoville2000/engine/SerializableRandom.kt:22-25 | a new generator is its initial words advanced by 64 steps |
| RandomSource.SerializableRandom.FromSeed | app/src/main/java/com/will118/scoville2000/engine/SerializableRandom.kt:28-35 | `fromSeed(seed)` is the seed's words advanced by 64 steps |
| RandomSource.SerializableRandom.NextInt | app/src/main/java/com/will118/scoville2000/engine/SerializableRandom.kt:67-81 | one xorwow step: the words shift down, `addend` grows by 362437 with wrap-around, and the result is the new `v` plus `addend` |
| RandomSource.SerializableRandom.NextBits | app/src/main/java/com/will118/scoville2000/engine/SerializableRandom.kt:83 | one step, returning the upper bits of its output |
| RandomSource.SerializableRandom.NextIntRange | app/src/main/java/com/will118/scoville2000/engine/SerializableRandom.kt:44-65 | `nextInt(from, until)` draws what the range-draw function says, from the same state |
| RandomSource.SerializableRandom.RejectionSample | app/src/main/java/com/will118/scoville2000/engine/SerializableRandom.kt:51-56 | the do-while loop draws what the rejection function says |
| RandomSource.SerializableRandom.DrawUntilInRange | app/src/main/java/com/will118/scoville2000/engine/SerializableRandom.kt:60-63 | the while loop for an overflowing range draws what the filter function says |
| RandomSource.SerializableRandom.NextGeneIndex | app/src/main/java/com/will118/scoville2000/engine/Genetics.kt:216 | `nextInt(0, 64)` takes one step and returns the top six bits of its output, a value in [0, 64) |
| RandomSource.MixWordOps | app/src/main/java/com/will118/scoville2000/engine/SerializableRandom.kt:70-78 | the shifts and xors of one step compute the new `v` bit by bit |
| RandomSource.AdvanceAdd | app/src/main/java/com/will118/scoville2000/engine/SerializableRandom.kt:22-25 | advancing m then n steps is advancing m + n |
| RandomSource.OutputsResume | app/src/main/java/com/will118/scoville2000/engine/SerializableRandom.kt:67-81 | the outputs of m + n draws are those of the first m followed by those drawn from the state reached after m |
| RandomSource.RebuiltSkipsWarmUp | app/src/main/java/com/will118/scoville2000/engine/SerializableRandom.kt:22-25 | a generator rebuilt from saved words does not continue the saved stream: its values are the saved generator's, 64 draws later |
| RandomSource.SeedSign | app/src/main/java/com/will118/scoville2000/engine/SerializableRandom.kt:30 | `seed.shr(31)` is -1 for a negative seed and 0 otherwise |
| RandomSource.SeedComplement | app/src/main/java/com/will118/scoville2000/engine/SerializableRandom.kt:33 | `seed.inv()` is -1 - seed |
| RandomSource.InvInt | app/src/main/java/com/will118/scoville2000/engine/SerializableRandom.kt:33 | Kotlin `Int.inv()` on the two's-complement bits is -1 - i for every `Int` |
| RandomSource.SignMask | app/src/main/java/com/will118/scoville2000/engine/SerializableRandom.kt:40 | `(-bitCount).shr(31)` is all ones for a positive bit count and all zeros for 0 |
| RandomSource.RangeDrawInRange | app/src/main/java/com/will118/scoville2000/engine/SerializableRandom.kt:44-65 | whenever from < until, a value drawn lies in [from, until) |
| RandomSource.RejectionDrawRange | app/src/main/java/com/will118/scoville2000/engine/SerializableRandom.kt:51-56 | the rejection loop's value lies in [0, n) |
| RandomSource.FilterDrawRange | app/src/main/java/com/will118/scoville2000/engine/SerializableRandom.kt:60-63 | the filter loop's value lies in [from, until) |
| RandomSource.PowerOfTwoDraw | app/src/main/java/com/will118/scoville2000/engine/SerializableRandom.kt:44-49 | a range of width 2^k takes exactly one step and returns from plus the top k bits of its output |
| RandomSource.SingletonRange | app/src/main/java/com/will118/scoville2000/engine/SerializableRandom.kt:39-49 | `nextInt(from, from + 1)` is from, after one step |
| RandomSource.GeneIndexDraw | app/src/main/java/com/will118/scoville2000/engine/SerializableRandom.kt:44-49 | `nextInt(0, 64)` always succeeds in one step with the top six bits |
| RandomSource.TakeUpperBitsValue | app/src/main/java/com/will118/scoville2000/engine/SerializableRandom.kt:39-40 | `takeUpperBits(k)` for k in [0, 31] is the value of the top k bits, in [0, 2^k) |
| RandomSource.FastLog2Bound | app/src/main/java/com/will118/scoville2000/engine/SerializableRandom.kt:37 | `fastLog2` of a non-zero value is in [0, 31] and 2^result is at most the value read unsigned |
| RandomSource.PowerOfTwoPassesTest | app/src/main/java/com/will118/scoville2000/engine/SerializableRandom.kt:37-47 | 2^k passes `n and -n == n` and `fastLog2` recovers k |
| RandomSource.MinIntPassesTest | app/src/main/java/com/will118/scoville2000/engine/SerializableRandom.kt:46-47 | `Int.MIN_VALUE` passes the power-of-two test |
| RandomSource.UshrNonNegative | app/src/main/java/com/will118/scoville2000/engine/SerializableRandom.kt:53 | `ushr(1)` leaves a non-negative `Int` |
| Population.AddSpec | app/src/main/java/com/will118/scoville2000/engine/Genetics.kt:219-223 | `TreeSet.add` keeps the set ordered; it adds the candidate exactly when no member has the same (fitness, id) key, growing by at most one |
| Population.SwapInSpec | app/src/main/java/com/will118/scoville2000/engine/Genetics.kt:233-239 | insertion keeps the order and the size at most 25, and evicts only a candidate ordered before everything kept |
| Population.SwapInKeeps | app/src/main/java/com/will118/scoville2000/engine/Genetics.kt:233-239 | a member with something ordered before it survives an insertion |
| Population.CollectSpec | app/src/main/java/com/will118/scoville2000/engine/Genetics.kt:219-223 | `addAll` of the saved population gives an ordered set of at most that many of its members |
| Population.FillSpec | app/src/main/java/com/will118/scoville2000/engine/Genetics.kt:225-230 | the top-up keeps the set ordered, keeps every member and adds at most one child per draw |
| Population.ConstructionBounded | app/src/main/java/com/will118/scoville2000/engine/Genetics.kt:219-231 | after construction the population is ordered, keeps every collected member, and holds at most 25 when at most 25 were saved |
| Population.CollectKeepsOrdered | app/src/main/java/com/will118/scoville2000/engine/Genetics.kt:279-282 | `addAll` of the list of an ordered set rebuilds exactly that set |
| Population.TickKeepsOrder | app/src/main/java/com/will118/scoville2000/engine/Genetics.kt:219-231 | `tickGenerations(n)`, with the returned copy's rebuild and top-up, keeps the set ordered and within 25, completes exactly when the passes do, and then keeps every member the passes left |
| Population.GenerationKeepsOrder | app/src/main/java/com/will118/scoville2000/engine/Genetics.kt:262-277 | a pass keeps the set ordered and within 25, and completes exactly when it has two members to breed |
| Population.GenerationKeepsFittest | app/src/main/java/com/will118/scoville2000/engine/Genetics.kt:262-277 | the fittest member survives a pass |
| Population.ParentsGoBack | app/src/main/java/com/will118/scoville2000/engine/Genetics.kt:265-274 | both parents polled from the top go back in unchanged |
| Population.FittestSurvivesChildren | app/src/main/java/com/will118/scoville2000/engine/Genetics.kt:270-276 | inserting the two children cannot evict the fittest parent |
| Population.GenerationsStopAtFailure | app/src/main/java/com/will118/scoville2000/engine/Genetics.kt:262-283 | once a pass fails, later passes change nothing |
| Population.GenerationsKeepOrder | app/src/main/java/com/will118/scoville2000/engine/Genetics.kt:262-283 | any number of passes keeps the set ordered and within 25 |
| Population.FinalIsFittest | app/src/main/java/com/will118/scoville2000/engine/Genetics.kt:291-301 | `final()` fails exactly on an empty set or name list; otherwise it carries the chromosome of the last member, whose fitness is at least every member's, with the two parent types as lineage |
| Population.GeneticComputation.constructor | app/src/main/java/com/will118/scoville2000/engine/Genetics.kt:219-231 | the population and generator are those of construction: `addAll` of the saved list, then the `init` top-up of as-written crosses of the two parent types |
| Population.GeneticComputation.PlantId | app/src/main/java/com/will118/scoville2000/engine/Genetics.kt:244 | the id drawn and the draws it consumes are those of the id function |
| Population.GeneticComputation.TopUp | app/src/main/java/com/will118/scoville2000/engine/Genetics.kt:225-231 | the `init` loop adds the crosses `Fill` describes, one per missing member, drawing a gene index and an id for each |
| Population.GeneticComputation.Cross | app/src/main/java/com/will118/scoville2000/engine/Genetics.kt:241-245 | the child and generator state are those of the cross function: the left type renamed "", with the chromosome crossed as written (yield gene kept from the left) and a fresh id |
| Population.GeneticComputation.CrossAndMaybeMutate | app/src/main/java/com/will118/scoville2000/engine/Genetics.kt:247-260 | the child and generator state are those of the cross-and-mutate function |
| Population.GeneticComputation.SwapIntoPopulation | app/src/main/java/com/will118/scoville2000/engine/Genetics.kt:233-239 | the population becomes the insertion of the candidate |
| Population.GeneticComputation.RunGeneration | app/src/main/java/com/will118/scoville2000/engine/Genetics.kt:264-276 | one loop pass updates population and generator as the pass function says |
| Population.GeneticComputation.TickGenerations | app/src/main/java/com/will118/scoville2000/engine/Genetics.kt:262-283 | `tickGenerations(n)` runs max(n, 0) passes; when none fails, the set is rebuilt from its list and topped up as the returned copy's `init` does, and the generation grows by n |
| Population.GeneticComputation.Final | app/src/main/java/com/will118/scoville2000/engine/Genetics.kt:291-301 | the result and generator state are those of the final-pick function |
| Game.IndexOf | app/src/main/java/com/will118/scoville2000/engine/GameState.kt:75 | `indexOf` is -1 exactly for an absent element, and otherwise the first index holding it |
| Game.InitialValid | app/src/main/java/com/will118/scoville2000/engine/GameState.kt:24-54 | a new game has 16 empty slots for its SpareRoom, money and no negative stock |
| Game.DeductionSpec | app/src/main/java/com/will118/scoville2000/engine/GameState.kt:114-122 | a purchase succeeds exactly when there is a price the balance affords, and then takes exactly that price; otherwise the balance is unchanged; a missing price throws |
| Game.PlantSeedFillsFirstFree | app/src/main/java/com/will118/scoville2000/engine/GameState.kt:124-133 | a seed goes into the first empty slot, stamped with the current time and charged; with no empty slot or no money nothing changes; valid states stay valid |
| Game.BuyAreaAppendsSlots | app/src/main/java/com/will118/scoville2000/engine/GameState.kt:106-112 | a bought area appends new.total - old.total empty slots and keeps the old ones, so slots still match pots; a smaller area is paid for and then throws |
| Game.UpgradeOnlyWhenPaid | app/src/main/java/com/will118/scoville2000/engine/GameState.kt:92-104 | light and medium change only on payment, to the tier asked for, with no tier-order check; the base tiers throw |
| Game.HarvestSpec | app/src/main/java/com/will118/scoville2000/engine/GameState.kt:64-77 | a ripe plant adds 15 peppers and clears its first slot; an unripe one changes nothing; a ripe plant in no slot is stocked and then throws |
| Game.CompostSpec | app/src/main/java/com/will118/scoville2000/engine/GameState.kt:79-81 | composting clears the plant's first slot whatever its phase; a plant in no slot throws |
| Game.SellProduceSpec | app/src/main/java/com/will118/scoville2000/engine/GameState.kt:84-90 | selling credits the buyer's total for all the type's peppers and zeroes them, keeping the seeds; a missing type is a no-op |
| Game.OnTickSpec | app/src/main/java/com/will118/scoville2000/engine/GameState.kt:135-155 | the game ends exactly when the running costs exceed the balance; otherwise only the clock moves, by 2000 s |
| Game.GameState.constructor | app/src/main/java/com/will118/scoville2000/engine/GameState.kt:24-54 | a new game is the initial state at the given time |
| Game.GameState.DeductPurchaseCost | app/src/main/java/com/will118/scoville2000/engine/GameState.kt:114-122 | the outcome and balance are those of the deduction function; nothing else changes |
| Game.GameState.Harvest | app/src/main/java/com/will118/scoville2000/engine/GameState.kt:64-77 | the new state and status are those of the harvest function |
| Game.GameState.Compost | app/src/main/java/com/will118/scoville2000/engine/GameState.kt:79-81 | the new state and status are those of the compost function |
| Game.GameState.SellProduce | app/src/main/java/com/will118/scoville2000/engine/GameState.kt:84-90 | the new state is that of the sale function |
| Game.GameState.BuyLightUpgrade | app/src/main/java/com/will118/scoville2000/engine/GameState.kt:92-97 | the new state and status are those of the light purchase function |
| Game.GameState.BuyMediumUpgrade | app/src/main/java/com/will118/scoville2000/engine/GameState.kt:99-104 | the new state and status are those of the medium purchase function |
| Game.GameState.BuyAreaUpgrade | app/src/main/java/com/will118/scoville2000/engine/GameState.kt:106-112 | the new state and status are those of the area purchase function |
| Game.GameState.PlantSeed | app/src/main/java/com/will118/scoville2000/engine/GameState.kt:124-133 | the new state and status are those of the planting function |
| Game.GameState.OnTick | app/src/main/java/com/will118/scoville2000/engine/GameState.kt:135-155 | the new state and game-over flag are those of the tick function |
| GtGame.InitialValid | app/src/main/java/com/will118/gt2000/engine/GameState.kt:22-54 | an older game starts with no plants on a one-pot WindowSill |
| GtGame.DeleteAt | app/src/main/java/com/will118/gt2000/engine/GameState.kt:72 | deleting an index keeps the elements around it in order and drops one copy |
| GtGame.RemoveSpec | app/src/main/java/com/will118/gt2000/engine/GameState.kt:76 | `remove` reports whether the element was present and takes out exactly its first copy |
| GtGame.PlantSeedSpec | app/src/main/java/com/will118/gt2000/engine/GameState.kt:110-121 | a seed is appended and charged exactly when a pot is free and the price is affordable; a missing price throws; valid states stay valid |
| GtGame.HarvestSpec | app/src/main/java/com/will118/gt2000/engine/GameState.kt:62-74 | a ripe plant adds 15 peppers and one copy leaves the list; an unripe one changes nothing |
| GtGame.CompostSpec | app/src/main/java/com/will118/gt2000/engine/GameState.kt:76 | composting removes one copy and reports whether the plant was there |
| GtGame.SellProduceSpec | app/src/main/java/com/will118/gt2000/engine/GameState.kt:78-84 | selling credits the older linear price and zeroes the peppers |
| GtGame.OnTickSpec | app/src/main/java/com/will118/gt2000/engine/GameState.kt:123-143 | the game ends exactly when the costs, at 20 and 10 per unit, exceed the balance; otherwise only the clock moves |
| GtGame.UpgradeOnlyWhenPaid | app/src/main/java/com/will118/gt2000/engine/GameState.kt:86-98 | light and medium change only on payment; the base tiers throw |
| GtGame.GameState.constructor | app/src/main/java/com/will118/gt2000/engine/GameState.kt:22-54 | a new game is the initial state at the given time |
| GtGame.GameState.DeductPurchaseCost | app/src/main/java/com/will118/gt2000/engine/GameState.kt:100-108 | the outcome and balance are those of the deduction function |
| GtGame.GameState.Harvest | app/src/main/java/com/will118/gt2000/engine/GameState.kt:62-74 | the new state is that of the harvest function |
| GtGame.GameState.Compost | app/src/main/java/com/will118/gt2000/engine/GameState.kt:76 | the new state and result are those of the compost function |
| GtGame.GameState.SellProduce | app/src/main/java/com/will118/gt2000/engine/GameState.kt:78-84 | the new state is that of the sale function |
| GtGame.GameState.BuyLightUpgrade | app/src/main/java/com/will118/gt2000/engine/GameState.kt:86-91 | the new state and status are those of the light purchase function |
| GtGame.GameState.BuyMediumUpgrade | app/src/main/java/com/will118/gt2000/engine/GameState.kt:93-98 | the new state and status are those of the medium purchase function |
| GtGame.GameState.PlantSeed | app/src/main/java/com/will118/gt2000/engine/GameState.kt:110-121 | the new state and status are those of the planting function |
| GtGame.GameState.OnTick | app/src/main/java/com/will118/gt2000/engine/GameState.kt:123-143 | the new state and game-over flag are those of the tick function |

## Left out

- User interface, persistence and scheduling: the Compose screens, `GameStateData` serialisation, `GameStateExecutor` and the `LiveData`/`State` mirrors are not modelled. Only the values the engine reads back (its `dirty` fields) are modelled.
- Distillate and tool types: `DistillateType` is not shown. Its base scovilles and price multiplier are parameters of `Memberships.DistillateTotal`.
- Fitness: `Chromosome.fitness` is a floating-point weighted sum. It is replaced by an arbitrary integer key `fit` on chromosomes, and the population is ordered by (fit, id). `FitnessFunctionData.getValue`/`setValue`, `progress()`, `hashCode()`, `snapshot()`, `isActive` and `wasStarted` are not modelled.
- Inputs that are not shown become parameters:
  - `plantId()`: a function from the generator state to an id and the number of `nextInt()` draws it takes.
  - The `NAMES` lists of `nameCross`.
  - The shuffle order of `withOneBits`.
  - The default seed `Random.Default.nextInt()`.
  - `Instant.now()`.
- Time: instants are epoch milliseconds, and `Duration.between` is a subtraction.
- Integer width: balances, prices, stocks and dates are unbounded integers, so `Long` overflow is not modelled. The generator's `Int` arithmetic and the 64-bit gene words are exact.
- RandomSource.SerializableRandom.NextIntRange: the two retry loops of `nextInt(from, until)` run until success in the source. Here they stop with no value after `fuel` draws, so a draw that needs more draws than the fuel allows is not modelled.
- Population.GeneticComputation.TickGenerations: `tickGenerations` returns a copy that shares the generator with the original and holds a new set, rebuilt from the original's list and topped up. The model puts the copy's state in the same object, so the original object, whose set the passes changed, is not kept apart from the copy.
- Population.ConstructionBounded: equal (fitness, id) keys are merged by the `TreeSet`, so the population can stay below 25. Only its bounds are proved, not an exact size.
- Game.GameState: `StockLevel` is a mutable object shared with the UI's map. The model treats it as a value.
- GtGame: the gt2000 `Plants.kt` table matches the Scoville 2000 one, and its `Phases` class is not part of this model. The older plants therefore use the Scoville 2000 `Plants` and `Growth` modules, with `epoch` as milliseconds.
- Game.TickCosts: engine/GameState.kt reads `joulesPerTick`/`litresPerTick`, which the root `Types.kt` names `joulesPerCostTick`/`litresPerCostTick`. The model reads the latter.
- Genes: a `ULong` is a sequence of 64 booleans rather than a machine word. Each Kotlin bit operation is defined position by position.

## Findings

| source | as written | input that shows it | evidently intended | confidence | as-written member | corrected member |
|---|---|---|---|---|---|---|
| app/src/main/java/com/will118/scoville2000/engine/Genetics.kt:113 | `Chromosome.cross` crosses `pepperYield` with its own `pepperYield`, so the child's yield gene is always the left parent's | left = empty chromosome, right = empty except a full yield gene, crossover 63: the child's yield gene is empty | cross `pepperYield` with `right.pepperYield`, like the other three genes | not executed | Genetics.CrossChromosomeIgnoresRightYield | Genetics.CrossChromosomeIntendedConserves |
