/**
 * engine/Genetics.kt, `GeneticComputationState`: a bounded population of
 * bred pepper types kept in a `TreeSet` ordered by (fitness, id), refilled
 * by crossing two parents, and bred one generation at a time from its two
 * fittest members.
 *
 * The chromosome-bearing plant type is not part of this model: a
 * `Candidate` carries the fields these operations read or write. Fitness
 * is a float computed from the chromosome; here it is an integer key
 * `fit`. `random.plantId()` is not part of this model either: `plantId`
 * says which id it makes from a generator state and how many `nextInt()`
 * values it consumes.
 */
module Population {
  import opened Wrappers
  import opened KotlinInt
  import opened Genetics
  import opened NameCross
  import opened RandomSource

  /** `POPULATION_SIZE`. */
  const PopulationSize := 25

  datatype Candidate = Candidate(
    displayName: string,
    chromosome: Chromosome,
    id: int,
    lineage: Option<Lineage>,
    autoPlantChecked: bool,
    isDefault: bool)

  /** The two parent types recorded on a bred type. */
  datatype Lineage = Lineage(left: Candidate, right: Candidate)

  /** What `plantId()` does from a given generator state. */
  datatype IdDraw = IdDraw(id: int, draws: nat)

  // ---------------------------------------------------------------------------
  // The ordered set
  // ---------------------------------------------------------------------------

  /** The comparator `compareBy({ fitness }, { id })`: `a` sorts strictly before `b`. */
  predicate Before(fit: Chromosome -> int, a: Candidate, b: Candidate)
  {
    fit(a.chromosome) < fit(b.chromosome) || (fit(a.chromosome) == fit(b.chromosome) && a.id < b.id)
  }

  /** The comparator finds `a` and `b` equal, so the set holds at most one of them. */
  predicate SameKey(fit: Chromosome -> int, a: Candidate, b: Candidate)
  {
    fit(a.chromosome) == fit(b.chromosome) && a.id == b.id
  }

  /** The iteration order of the set: strictly ascending, from `first()` to `last()`. */
  predicate Ordered(fit: Chromosome -> int, s: seq<Candidate>)
  {
    forall i, j :: 0 <= i < j < |s| ==> Before(fit, s[i], s[j])
  }

  /** `add(c)`: a no-op when an element with the same key is present, else `c` in its place. */
  function Add(fit: Chromosome -> int, s: seq<Candidate>, c: Candidate): seq<Candidate>
  {
    if s == [] then [c]
    else if SameKey(fit, s[0], c) then s
    else if Before(fit, c, s[0]) then [c] + s
    else [s[0]] + Add(fit, s[1..], c)
  }

  /** `swapIntoPopulation(c)`: add, then `pollFirst()` when the set has grown past its size. */
  function SwapIn(fit: Chromosome -> int, s: seq<Candidate>, c: Candidate): seq<Candidate>
  {
    var t := Add(fit, s, c);
    if |t| > PopulationSize then t[1..] else t
  }

  /** `addAll(serialized)`, one element after another. */
  function Collect(fit: Chromosome -> int, s: seq<Candidate>): seq<Candidate>
  {
    if s == [] then [] else Add(fit, Collect(fit, s[..|s| - 1]), s[|s| - 1])
  }

  /**
   * Adding keeps the set ordered and keeps every element; it adds `c`,
   * growing by one, exactly when no element has `c`'s key.
   */
  lemma {:induction false} AddSpec(fit: Chromosome -> int, s: seq<Candidate>, c: Candidate)
    requires Ordered(fit, s)
    ensures Ordered(fit, Add(fit, s, c))
    ensures forall x :: x in Add(fit, s, c) <==> x in s || (x == c && forall y :: y in s ==> !SameKey(fit, y, c))
    ensures |Add(fit, s, c)| == if exists y :: y in s && SameKey(fit, y, c) then |s| else |s| + 1
    ensures |s| <= |Add(fit, s, c)| <= |s| + 1
  {
    if s != [] && !SameKey(fit, s[0], c) && !Before(fit, c, s[0]) {
      assert Ordered(fit, s[1..]);
      AddSpec(fit, s[1..], c);
      var r := Add(fit, s[1..], c);
      forall i, j | 0 <= i < j < |[s[0]] + r|
        ensures Before(fit, ([s[0]] + r)[i], ([s[0]] + r)[j])
      {
        if i == 0 {
          assert ([s[0]] + r)[j] in r;
        }
      }
      assert s == [s[0]] + s[1..];
      if exists y :: y in s && SameKey(fit, y, c) {
        var y :| y in s && SameKey(fit, y, c);
        assert y in s[1..];
      }
    } else if s != [] && !SameKey(fit, s[0], c) {
      forall y | y in s
        ensures !SameKey(fit, y, c)
      {
        var i :| 0 <= i < |s| && s[i] == y;
        assert i == 0 || Before(fit, s[0], s[i]);
      }
    }
  }

  /**
   * A swap keeps the set ordered and never lets it grow past
   * `PopulationSize`; it only ever removes the least element after adding.
   */
  lemma SwapInSpec(fit: Chromosome -> int, s: seq<Candidate>, c: Candidate)
    requires Ordered(fit, s)
    ensures Ordered(fit, SwapIn(fit, s, c))
    ensures |s| <= PopulationSize ==> |SwapIn(fit, s, c)| <= PopulationSize
    ensures |Add(fit, s, c)| <= PopulationSize ==> SwapIn(fit, s, c) == Add(fit, s, c)
    ensures forall x :: x in SwapIn(fit, s, c) ==> x in Add(fit, s, c)
    ensures forall x, y :: x in Add(fit, s, c) && x !in SwapIn(fit, s, c) && y in SwapIn(fit, s, c) ==>
      Before(fit, x, y)
  {
    AddSpec(fit, s, c);
    var t := Add(fit, s, c);
    if |t| > PopulationSize {
      forall x, y | x in t && x !in t[1..] && y in t[1..]
        ensures Before(fit, x, y)
      {
        var j :| 1 <= j < |t| && t[j] == y;
        assert x == t[0];
      }
    }
  }

  /** An element with a smaller element beside it survives a swap: only the least is evicted. */
  lemma SwapInKeeps(fit: Chromosome -> int, s: seq<Candidate>, c: Candidate, x: Candidate, y: Candidate)
    requires Ordered(fit, s)
    requires x in s && y in s && Before(fit, y, x)
    ensures x in SwapIn(fit, s, c)
  {
    AddSpec(fit, s, c);
    var t := Add(fit, s, c);
    if |t| > PopulationSize {
      var i :| 0 <= i < |t| && t[i] == x;
      var j :| 0 <= j < |t| && t[j] == y;
      assert j < i;
      assert x == t[1..][i - 1];
    }
  }

  /** Collecting a list gives an ordered set of at most as many of its elements. */
  lemma {:induction false} CollectSpec(fit: Chromosome -> int, s: seq<Candidate>)
    ensures Ordered(fit, Collect(fit, s))
    ensures |Collect(fit, s)| <= |s|
    ensures forall x :: x in Collect(fit, s) ==> x in s
  {
    if s != [] {
      var init := s[..|s| - 1];
      CollectSpec(fit, init);
      AddSpec(fit, Collect(fit, init), s[|s| - 1]);
      forall x | x in Collect(fit, s)
        ensures x in s
      {
        if x != s[|s| - 1] {
          assert x in init;
        }
      }
    }
  }

  /** Adding an element that sorts after every member appends it. */
  lemma {:induction false} AddAtEnd(fit: Chromosome -> int, s: seq<Candidate>, c: Candidate)
    requires forall y :: y in s ==> Before(fit, y, c)
    ensures Add(fit, s, c) == s + [c]
  {
    if s != [] {
      assert s[0] in s;
      AddAtEnd(fit, s[1..], c);
      assert s == [s[0]] + s[1..];
    }
  }

  /** `addAll` of the list of an ordered set rebuilds exactly that set. */
  lemma {:induction false} CollectKeepsOrdered(fit: Chromosome -> int, s: seq<Candidate>)
    requires Ordered(fit, s)
    ensures Collect(fit, s) == s
  {
    if s != [] {
      var init := s[..|s| - 1];
      assert Ordered(fit, init);
      CollectKeepsOrdered(fit, init);
      forall y | y in init
        ensures Before(fit, y, s[|s| - 1])
      {
        var k :| 0 <= k < |init| && init[k] == y;
        assert s[k] == y;
      }
      AddAtEnd(fit, init, s[|s| - 1]);
      assert s == init + [s[|s| - 1]];
    }
  }

  // ---------------------------------------------------------------------------
  // Breeding, as functions of the generator state
  // ---------------------------------------------------------------------------

  /** `random.plantId()`: the id drawn and the generator state after it. */
  function DrawnId(plantId: RandomState -> IdDraw, s: RandomState): (int, RandomState)
  {
    (plantId(s).id, Advance(s, plantId(s).draws))
  }

  /*
   * The breeding functions below are each reached through one countdown
   * step (`CrossOf` through `CrossAfter`, and so on), so that the set
   * lemmas see a child as a value and do not expand the chromosome
   * arithmetic behind it; the methods that compute them open the step.
   */

  /** `cross(left, right, crossover)`: the left type with a crossed chromosome, no name and a fresh id. */
  function CrossOf(plantId: RandomState -> IdDraw, left: Candidate, right: Candidate, crossover: int, s: RandomState)
    : (Candidate, RandomState)
    requires 0 <= crossover < 64
  {
    CrossAfter(plantId, left, right, crossover, s, 1)
  }

  function CrossAfter(plantId: RandomState -> IdDraw, left: Candidate, right: Candidate, crossover: int, s: RandomState,
                      steps: nat): (Candidate, RandomState)
    requires 0 <= crossover < 64
  {
    if steps > 0 then CrossAfter(plantId, left, right, crossover, s, steps - 1)
    else
      var drawn := DrawnId(plantId, s);
      (left.(displayName := "", chromosome := CrossChromosome(left.chromosome, right.chromosome, crossover), id := drawn.0),
       drawn.1)
  }

  /**
   * `crossAndMaybeMutate(other, crossover)`: cross, then, when the next
   * value is even, mutate the child at a freshly drawn gene index.
   */
  function CrossAndMaybeMutateOf(plantId: RandomState -> IdDraw, c: Candidate, other: Candidate, crossover: int, s: RandomState)
    : (Candidate, RandomState)
    requires 0 <= crossover < 64
  {
    MaybeMutateAfter(plantId, c, other, crossover, s, 1)
  }

  function MaybeMutateAfter(plantId: RandomState -> IdDraw, c: Candidate, other: Candidate, crossover: int, s: RandomState,
                            steps: nat): (Candidate, RandomState)
    requires 0 <= crossover < 64
  {
    if steps > 0 then MaybeMutateAfter(plantId, c, other, crossover, s, steps - 1)
    else
      var crossed := CrossOf(plantId, c, other, crossover, s);
      var s1 := crossed.1;
      if TruncRem(Output(s1), 2) == 0 then
        var point := GeneIndex(Step(s1));
        MutateChromosomeEffect(crossed.0.chromosome, point);
        (crossed.0.(chromosome := MutateChromosome(crossed.0.chromosome, point).value), Step(Step(s1)))
      else
        (crossed.0, Step(s1))
  }

  /** Where breeding stands: whether it ran to the end, the population and the generator state. */
  datatype Outcome = Outcome(completed: bool, population: seq<Candidate>, state: RandomState)

  /**
   * One pass of the `tickGenerations` loop. With fewer than two members,
   * `pollLast()` yields null, the crossover index is still drawn, and the
   * cross on null throws: the pass fails with the set emptied.
   */
  function Generation(fit: Chromosome -> int, plantId: RandomState -> IdDraw, pop: seq<Candidate>, s: RandomState): Outcome
  {
    GenerationAfter(fit, plantId, pop, s, 1)
  }

  function GenerationAfter(fit: Chromosome -> int, plantId: RandomState -> IdDraw, pop: seq<Candidate>, s: RandomState,
                           steps: nat): Outcome
  {
    if steps > 0 then GenerationAfter(fit, plantId, pop, s, steps - 1)
    else if |pop| < 2 then Outcome(false, [], Step(s))
    else
      var fittest := pop[|pop| - 1];
      var second := pop[|pop| - 2];
      var crossover := GeneIndex(s);
      var a := CrossAndMaybeMutateOf(plantId, fittest, second, crossover, Step(s));
      var b := CrossAndMaybeMutateOf(plantId, second, fittest, crossover, a.1);
      var p1 := SwapIn(fit, pop[..|pop| - 2], fittest);
      var p2 := SwapIn(fit, p1, second);
      var p3 := SwapIn(fit, p2, a.0);
      Outcome(true, SwapIn(fit, p3, b.0), b.1)
  }

  /** `n` passes of the loop, stopping at the first that fails. */
  function Generations(fit: Chromosome -> int, plantId: RandomState -> IdDraw, pop: seq<Candidate>, s: RandomState, n: nat): Outcome
  {
    if n == 0 then Outcome(true, pop, s)
    else
      var o := Generations(fit, plantId, pop, s, n - 1);
      if o.completed then Generation(fit, plantId, o.population, o.state) else o
  }

  /** The construction loop: `count` crosses of the two parent types added to `pop`. */
  function Fill(fit: Chromosome -> int, plantId: RandomState -> IdDraw, left: Candidate, right: Candidate,
                pop: seq<Candidate>, s: RandomState, count: nat): (seq<Candidate>, RandomState)
  {
    if count == 0 then (pop, s)
    else
      var prev := Fill(fit, plantId, left, right, pop, s, count - 1);
      var child := CrossOf(plantId, left, right, GeneIndex(prev.1), Step(prev.1));
      (Add(fit, prev.0, child.0), child.1)
  }

  /** `repeat(POPULATION_SIZE - population.size)`: no pass for a negative count. */
  function TopUpCount(size: int): nat
  {
    if size < PopulationSize then PopulationSize - size else 0
  }

  /** Construction from a saved list: `addAll`, then the top-up crosses of `init`. */
  function Construct(fit: Chromosome -> int, plantId: RandomState -> IdDraw, left: Candidate, right: Candidate,
                     serialized: seq<Candidate>, s: RandomState): (seq<Candidate>, RandomState)
  {
    var collected := Collect(fit, serialized);
    Fill(fit, plantId, left, right, collected, s, TopUpCount(|collected|))
  }

  /**
   * `tickGenerations(n)`: the passes, then, when none failed, the returned
   * copy is built from `population.toList()` and runs its own `init` top-up
   * on the shared generator.
   */
  function Tick(fit: Chromosome -> int, plantId: RandomState -> IdDraw, left: Candidate, right: Candidate,
                pop: seq<Candidate>, s: RandomState, n: nat): Outcome
  {
    var o := Generations(fit, plantId, pop, s, n);
    if o.completed then
      var built := Construct(fit, plantId, left, right, o.population, o.state);
      Outcome(true, built.0, built.1)
    else o
  }

  /**
   * `final()`: the last (fittest) member, named by `nameCross`, with its
   * lineage recorded and a fresh id. An empty set makes `last()` throw, and an
   * empty name list makes `nameCross` throw: None, with nothing drawn.
   */
  function FinalOf(plantId: RandomState -> IdDraw, left: Candidate, right: Candidate, pop: seq<Candidate>,
                   peppers: seq<string>, adjectives: seq<string>, s: RandomState): (Option<Candidate>, RandomState)
  {
    if pop == [] then (None, s)
    else
      var fittest := pop[|pop| - 1];
      match NameCross.NameCross(fittest.chromosome, peppers, adjectives)
      case None => (None, s)
      case Some(name) =>
        var drawn := DrawnId(plantId, s);
        (Some(fittest.(lineage := Some(Lineage(left, right)), displayName := name, id := drawn.0,
                       autoPlantChecked := false, isDefault := false)), drawn.1)
  }

  // ---------------------------------------------------------------------------
  // Properties of breeding
  // ---------------------------------------------------------------------------

  /**
   * Construction gives an ordered set that keeps every collected member and
   * grows by at most `count`; started from at most 25 members and topped up
   * by `TopUpCount`, it holds at most 25.
   */
  lemma {:induction false} FillSpec(fit: Chromosome -> int, plantId: RandomState -> IdDraw, left: Candidate, right: Candidate,
                                     pop: seq<Candidate>, s: RandomState, count: nat)
    requires Ordered(fit, pop)
    ensures Ordered(fit, Fill(fit, plantId, left, right, pop, s, count).0)
    ensures |pop| <= |Fill(fit, plantId, left, right, pop, s, count).0| <= |pop| + count
    ensures forall x :: x in pop ==> x in Fill(fit, plantId, left, right, pop, s, count).0
  {
    if count > 0 {
      FillSpec(fit, plantId, left, right, pop, s, count - 1);
      var prev := Fill(fit, plantId, left, right, pop, s, count - 1);
      var child := CrossOf(plantId, left, right, GeneIndex(prev.1), Step(prev.1)).0;
      AddSpec(fit, prev.0, child);
    }
  }

  lemma ConstructionBounded(fit: Chromosome -> int, plantId: RandomState -> IdDraw, left: Candidate, right: Candidate,
                            serialized: seq<Candidate>, s: RandomState)
    ensures var collected := Collect(fit, serialized);
      var p := Construct(fit, plantId, left, right, serialized, s).0;
      Ordered(fit, p) && |collected| <= |p| && (|serialized| <= PopulationSize ==> |p| <= PopulationSize)
      && forall x :: x in collected ==> x in p
  {
    var collected := Collect(fit, serialized);
    CollectSpec(fit, serialized);
    FillSpec(fit, plantId, left, right, collected, s, TopUpCount(|collected|));
  }

  /** A pass keeps the set ordered and within `PopulationSize`; a failed pass empties it. */
  lemma GenerationKeepsOrder(fit: Chromosome -> int, plantId: RandomState -> IdDraw, pop: seq<Candidate>, s: RandomState)
    requires Ordered(fit, pop) && |pop| <= PopulationSize
    ensures var o := Generation(fit, plantId, pop, s);
      Ordered(fit, o.population) && |o.population| <= PopulationSize
    ensures Generation(fit, plantId, pop, s).completed <==> |pop| >= 2
  {
    assert GenerationAfter(fit, plantId, pop, s, 1) == GenerationAfter(fit, plantId, pop, s, 0);
    if |pop| >= 2 {
      var fittest := pop[|pop| - 1];
      var second := pop[|pop| - 2];
      var crossover := GeneIndex(s);
      var a := CrossAndMaybeMutateOf(plantId, fittest, second, crossover, Step(s)).0;
      var b := CrossAndMaybeMutateOf(plantId, second, fittest, crossover, CrossAndMaybeMutateOf(plantId, fittest, second, crossover, Step(s)).1).0;
      var rest := pop[..|pop| - 2];
      assert Ordered(fit, rest);
      SwapInSpec(fit, rest, fittest);
      var p1 := SwapIn(fit, rest, fittest);
      SwapInSpec(fit, p1, second);
      var p2 := SwapIn(fit, p1, second);
      SwapInSpec(fit, p2, a);
      var p3 := SwapIn(fit, p2, a);
      SwapInSpec(fit, p3, b);
    }
  }

  /**
   * Elitism: the fittest member going into a pass is still there after it.
   * It is put back first, and only ever the least member is evicted, which
   * it cannot be while the second fittest is present.
   */
  lemma GenerationKeepsFittest(fit: Chromosome -> int, plantId: RandomState -> IdDraw, pop: seq<Candidate>, s: RandomState)
    requires Ordered(fit, pop) && 2 <= |pop| <= PopulationSize
    ensures pop[|pop| - 1] in Generation(fit, plantId, pop, s).population
  {
    assert GenerationAfter(fit, plantId, pop, s, 1) == GenerationAfter(fit, plantId, pop, s, 0);
    var fittest := pop[|pop| - 1];
    var second := pop[|pop| - 2];
    var crossover := GeneIndex(s);
    var a := CrossAndMaybeMutateOf(plantId, fittest, second, crossover, Step(s));
    var b := CrossAndMaybeMutateOf(plantId, second, fittest, crossover, a.1);
    var rest := pop[..|pop| - 2];
    assert pop == rest + [second, fittest];
    ParentsGoBack(fit, rest, second, fittest);
    FittestSurvivesChildren(fit, rest, SwapIn(fit, SwapIn(fit, rest, fittest), second), second, fittest, a.0, b.0);
  }

  /** The two parents, taken out of an ordered set, both go back in, with nothing evicted. */
  lemma ParentsGoBack(fit: Chromosome -> int, rest: seq<Candidate>, second: Candidate, fittest: Candidate)
    requires Ordered(fit, rest + [second, fittest]) && |rest| + 2 <= PopulationSize
    ensures var p2 := SwapIn(fit, SwapIn(fit, rest, fittest), second);
      Ordered(fit, p2) && |p2| == |rest| + 2 && second in p2 && fittest in p2
      && (forall y :: y in rest ==> y in p2)
      && Before(fit, second, fittest) && (forall y :: y in rest ==> Before(fit, y, second))
  {
    var pop := rest + [second, fittest];
    forall i, j | 0 <= i < j < |rest|
      ensures Before(fit, rest[i], rest[j])
    {
      assert rest[i] == pop[i] && rest[j] == pop[j];
    }
    assert Before(fit, pop[|pop| - 2], pop[|pop| - 1]);
    forall y | y in rest
      ensures Before(fit, y, second) && Before(fit, y, fittest)
    {
      var i :| 0 <= i < |rest| && rest[i] == y;
      assert pop[i] == y;
    }
    AddSpec(fit, rest, fittest);
    SwapInSpec(fit, rest, fittest);
    var p1 := SwapIn(fit, rest, fittest);
    forall y | y in p1
      ensures !SameKey(fit, y, second)
    {
      assert y in rest || y == fittest;
    }
    AddSpec(fit, p1, second);
    SwapInSpec(fit, p1, second);
  }

  /**
   * Once both parents are back, adding the two children cannot evict the
   * fittest: the second fittest, or a member below it, is always evicted first.
   */
  lemma FittestSurvivesChildren(fit: Chromosome -> int, rest: seq<Candidate>, p2: seq<Candidate>,
                                second: Candidate, fittest: Candidate, a: Candidate, b: Candidate)
    requires Ordered(fit, p2) && |p2| == |rest| + 2 && second in p2 && fittest in p2
    requires forall y :: y in rest ==> y in p2
    requires Before(fit, second, fittest) && forall y :: y in rest ==> Before(fit, y, second)
    ensures fittest in SwapIn(fit, SwapIn(fit, p2, a), b)
  {
    SwapInSpec(fit, p2, a);
    AddSpec(fit, p2, a);
    var p3 := SwapIn(fit, p2, a);
    if rest == [] {
      // Too few members for an eviction.
      assert |Add(fit, p2, a)| <= 3;
    } else {
      SwapInKeeps(fit, p2, a, second, rest[0]);
    }
    SwapInKeeps(fit, p2, a, fittest, second);
    SwapInKeeps(fit, p3, b, fittest, second);
  }


  /** Once a pass fails, breeding stops there: later passes change nothing. */
  lemma {:induction false} GenerationsStopAtFailure(fit: Chromosome -> int, plantId: RandomState -> IdDraw,
                                                   pop: seq<Candidate>, s: RandomState, i: nat, n: nat)
    requires i <= n
    requires !Generations(fit, plantId, pop, s, i).completed
    ensures Generations(fit, plantId, pop, s, n) == Generations(fit, plantId, pop, s, i)
  {
    if i < n {
      GenerationsStopAtFailure(fit, plantId, pop, s, i, n - 1);
    }
  }

  /** Every number of passes keeps the set ordered and within `PopulationSize`. */
  lemma {:induction false} GenerationsKeepOrder(fit: Chromosome -> int, plantId: RandomState -> IdDraw,
                                               pop: seq<Candidate>, s: RandomState, n: nat)
    requires Ordered(fit, pop) && |pop| <= PopulationSize
    ensures var o := Generations(fit, plantId, pop, s, n);
      Ordered(fit, o.population) && |o.population| <= PopulationSize
  {
    if n > 0 {
      GenerationsKeepOrder(fit, plantId, pop, s, n - 1);
      var o := Generations(fit, plantId, pop, s, n - 1);
      if o.completed {
        GenerationKeepsOrder(fit, plantId, o.population, o.state);
      }
    }
  }

  /**
   * `tickGenerations(n)` keeps the set ordered and within `PopulationSize`;
   * when every pass completes, the copy keeps every member the passes left.
   */
  lemma TickKeepsOrder(fit: Chromosome -> int, plantId: RandomState -> IdDraw, left: Candidate, right: Candidate,
                       pop: seq<Candidate>, s: RandomState, n: nat)
    requires Ordered(fit, pop) && |pop| <= PopulationSize
    ensures var o := Tick(fit, plantId, left, right, pop, s, n);
      Ordered(fit, o.population) && |o.population| <= PopulationSize
    ensures var g := Generations(fit, plantId, pop, s, n);
      Tick(fit, plantId, left, right, pop, s, n).completed == g.completed
      && (g.completed ==> forall x :: x in g.population ==> x in Tick(fit, plantId, left, right, pop, s, n).population)
  {
    GenerationsKeepOrder(fit, plantId, pop, s, n);
    var g := Generations(fit, plantId, pop, s, n);
    if g.completed {
      ConstructionBounded(fit, plantId, left, right, g.population, g.state);
      CollectSpec(fit, g.population);
      CollectKeepsOrdered(fit, g.population);
    }
  }

  /**
   * `final()` on a non-empty set with non-empty name lists is the fittest
   * member, renamed by `nameCross`, with the two parents as its lineage and
   * auto-planting off; it fails exactly when one of them is empty.
   */
  lemma FinalIsFittest(fit: Chromosome -> int, plantId: RandomState -> IdDraw, left: Candidate, right: Candidate,
                       pop: seq<Candidate>, peppers: seq<string>, adjectives: seq<string>, s: RandomState)
    requires Ordered(fit, pop)
    ensures var (r, _) := FinalOf(plantId, left, right, pop, peppers, adjectives, s);
      r.None? <==> pop == [] || peppers == [] || adjectives == []
    ensures var (r, _) := FinalOf(plantId, left, right, pop, peppers, adjectives, s);
      r.Some? ==>
        && r.value.chromosome == pop[|pop| - 1].chromosome
        && (forall x :: x in pop ==> fit(x.chromosome) <= fit(r.value.chromosome))
        && r.value.lineage == Some(Lineage(left, right))
        && Some(r.value.displayName) == NameCross.NameCross(r.value.chromosome, peppers, adjectives)
        && !r.value.autoPlantChecked && !r.value.isDefault
  {
    if pop != [] {
      NameCrossShape(pop[|pop| - 1].chromosome, peppers, adjectives);
      forall x | x in pop
        ensures fit(x.chromosome) <= fit(pop[|pop| - 1].chromosome)
      {
        var i :| 0 <= i < |pop| && pop[i] == x;
        assert i == |pop| - 1 || Before(fit, pop[i], pop[|pop| - 1]);
      }
    }
  }

  // ---------------------------------------------------------------------------
  // The computation object
  // ---------------------------------------------------------------------------

  class GeneticComputation {
    const leftPlantType: Candidate
    const rightPlantType: Candidate
    var generation: int
    const maxGeneration: int
    const fit: Chromosome -> int
    const plantId: RandomState -> IdDraw
    const random: SerializableRandom
    var population: seq<Candidate>

    /** The primary constructor: collect the saved members, then top up with crosses of the two parents. */
    constructor (leftPlantType: Candidate, rightPlantType: Candidate, generation: int, maxGeneration: int,
                 fit: Chromosome -> int, plantId: RandomState -> IdDraw,
                 serializedPopulation: seq<Candidate>, random: SerializableRandom)
      modifies random
      ensures this.leftPlantType == leftPlantType && this.rightPlantType == rightPlantType
      ensures this.generation == generation && this.maxGeneration == maxGeneration
      ensures this.fit == fit && this.plantId == plantId && this.random == random
      ensures (population, random.State())
          == Construct(fit, plantId, leftPlantType, rightPlantType, serializedPopulation, old(random.State()))
    {
      this.leftPlantType := leftPlantType;
      this.rightPlantType := rightPlantType;
      this.generation := generation;
      this.maxGeneration := maxGeneration;
      this.fit := fit;
      this.plantId := plantId;
      this.random := random;
      population := Collect(fit, serializedPopulation);
      new;
      TopUp();
    }

    /** The `init` block: `repeat(POPULATION_SIZE - population.size)`, adding a cross of the two parents each time. */
    method TopUp()
      modifies this, random
      ensures (population, random.State())
          == Fill(fit, plantId, leftPlantType, rightPlantType, old(population), old(random.State()),
                  TopUpCount(|old(population)|))
      ensures generation == old(generation)
    {
      var start := population;
      var count := TopUpCount(|start|);
      for i := 0 to count
        invariant generation == old(generation)
        invariant (population, random.State())
          == Fill(fit, plantId, leftPlantType, rightPlantType, start, old(random.State()), i)
      {
        var crossover := random.NextGeneIndex();
        var child := Cross(leftPlantType, rightPlantType, crossover);
        population := Add(fit, population, child);
      }
    }

    /** `random.plantId()`: the id, after the draws it consumes. */
    method PlantId() returns (id: int)
      modifies random
      ensures (id, random.State()) == DrawnId(plantId, old(random.State()))
    {
      var d := plantId(random.State());
      for k := 0 to d.draws
        invariant random.State() == Advance(old(random.State()), k)
      {
        var discarded := random.NextInt();
      }
      id := d.id;
    }

    /** `cross(left, right, crossover)`. */
    method Cross(left: Candidate, right: Candidate, crossover: int) returns (child: Candidate)
      requires 0 <= crossover < 64
      modifies random
      ensures (child, random.State()) == CrossOf(plantId, left, right, crossover, old(random.State()))
    {
      var chromosome := CrossChromosome(left.chromosome, right.chromosome, crossover);
      var id := PlantId();
      child := left.(displayName := "", chromosome := chromosome, id := id);
      assert CrossAfter(plantId, left, right, crossover, old(random.State()), 1)
          == CrossAfter(plantId, left, right, crossover, old(random.State()), 0);
    }

    /** `crossAndMaybeMutate(other, crossover)`. */
    method CrossAndMaybeMutate(c: Candidate, other: Candidate, crossover: int) returns (child: Candidate)
      requires 0 <= crossover < 64
      modifies random
      ensures (child, random.State()) == CrossAndMaybeMutateOf(plantId, c, other, crossover, old(random.State()))
    {
      assert MaybeMutateAfter(plantId, c, other, crossover, old(random.State()), 1)
          == MaybeMutateAfter(plantId, c, other, crossover, old(random.State()), 0);
      child := Cross(c, other, crossover);
      var coin := random.NextInt();
      if TruncRem(coin, 2) == 0 {
        var point := random.NextGeneIndex();
        MutateChromosomeEffect(child.chromosome, point);
        child := child.(chromosome := MutateChromosome(child.chromosome, point).value);
      }
    }

    /** `swapIntoPopulation(c)`. */
    method SwapIntoPopulation(c: Candidate)
      modifies this
      ensures population == SwapIn(fit, old(population), c)
      ensures generation == old(generation)
    {
      population := Add(fit, population, c);
      if |population| > PopulationSize {
        population := population[1..];
      }
    }

    /** One pass of the `tickGenerations` loop: breed the two fittest and swap all four back in. */
    method RunGeneration() returns (ok: bool)
      modifies this, random
      ensures Outcome(ok, population, random.State()) == Generation(fit, plantId, old(population), old(random.State()))
      ensures generation == old(generation)
    {
      assert GenerationAfter(fit, plantId, population, random.State(), 1)
          == GenerationAfter(fit, plantId, population, random.State(), 0);
      if |population| < 2 {
        population := [];
        var crossover := random.NextGeneIndex();
        return false;
      }
      var fittest := population[|population| - 1];
      var second := population[|population| - 2];
      population := population[..|population| - 2];
      var crossover := random.NextGeneIndex();
      var a := CrossAndMaybeMutate(fittest, second, crossover);
      var b := CrossAndMaybeMutate(second, fittest, crossover);
      SwapIntoPopulation(fittest);
      SwapIntoPopulation(second);
      SwapIntoPopulation(a);
      SwapIntoPopulation(b);
      ok := true;
    }

    /**
     * `tickGenerations(n)`, with this object taking the place of the copy it
     * returns: the passes, then the copy's set rebuilt from the list and
     * topped up. A negative `n` runs no pass but still moves the counter.
     */
    method TickGenerations(n: int) returns (completed: bool)
      modifies this, random
      ensures var count := if n < 0 then 0 else n;
        Outcome(completed, population, random.State())
          == Tick(fit, plantId, leftPlantType, rightPlantType, old(population), old(random.State()), count)
      ensures generation == if completed then old(generation) + n else old(generation)
    {
      var count := if n < 0 then 0 else n;
      for i := 0 to count
        invariant generation == old(generation)
        invariant Generations(fit, plantId, old(population), old(random.State()), i)
          == Outcome(true, population, random.State())
      {
        var ok := RunGeneration();
        if !ok {
          GenerationsStopAtFailure(fit, plantId, old(population), old(random.State()), i + 1, count);
          return false;
        }
      }
      population := Collect(fit, population);
      TopUp();
      generation := generation + n;
      completed := true;
    }

    /** `final()`. */
    method Final(peppers: seq<string>, adjectives: seq<string>) returns (r: Option<Candidate>)
      modifies random
      ensures (r, random.State())
        == FinalOf(plantId, leftPlantType, rightPlantType, population, peppers, adjectives, old(random.State()))
    {
      if population == [] {
        return None;
      }
      var fittest := population[|population| - 1];
      var name := NameCross.NameCross(fittest.chromosome, peppers, adjectives);
      if name.None? {
        return None;
      }
      var id := PlantId();
      r := Some(fittest.(lineage := Some(Lineage(leftPlantType, rightPlantType)), displayName := name.value,
                         id := id, autoPlantChecked := false, isDefault := false));
    }
  }
}
