/**
 * engine/Genetics.kt, the pure part: genes as two unsigned 64-bit halves,
 * their population counts, single-bit mutation, single-point crossover,
 * random genes with a given number of set bits, and the four-gene chromosome.
 *
 * A `ULong` is modelled bit by bit: a `Word` is 64 booleans, element `i`
 * standing for the bit of weight 2^i, and Kotlin's `xor`, `and`, `or`,
 * `inv` and `shl` are defined position by position.
 */
module Genetics {
  import opened Wrappers
  import opened KotlinInt

  const WordBits: nat := 64

  /** A `ULong`: bit `i` is `w[i]`. */
  type Word = w: seq<bool> | |w| == WordBits witness seq(64, i => false)

  /** `0UL`. */
  function ZeroWord(): Word
  {
    seq(64, i => false)
  }

  /** `1UL`. */
  function OneWord(): Word
  {
    seq(64, i => i == 0)
  }

  function Xor(a: Word, b: Word): Word
  {
    seq(64, i requires 0 <= i < 64 => a[i] != b[i])
  }

  function And(a: Word, b: Word): Word
  {
    seq(64, i requires 0 <= i < 64 => a[i] && b[i])
  }

  function Or(a: Word, b: Word): Word
  {
    seq(64, i requires 0 <= i < 64 => a[i] || b[i])
  }

  function Inv(a: Word): Word
  {
    seq(64, i requires 0 <= i < 64 => !a[i])
  }

  /**
   * `shl(count)`: Kotlin uses only the low six bits of the shift count,
   * which is `count % 64` (Dafny's `%` is never negative); bits shifted past
   * the top are lost and zeros come in at the bottom.
   */
  function Shl(a: Word, count: int): Word
  {
    var k := count % 64;
    seq(64, i requires 0 <= i < 64 => i >= k && a[i - k])
  }

  /** The number of set bits among the lowest `n` bits of `w`. */
  function CountOnes(w: Word, n: nat): (c: nat)
    requires n <= WordBits
    ensures c <= n
  {
    if n == 0 then 0 else CountOnes(w, n - 1) + (if w[n - 1] then 1 else 0)
  }

  /** `ULong.countOneBits()`. */
  function CountOneBits(w: Word): (c: nat)
    ensures c <= WordBits
  {
    CountOnes(w, 64)
  }

  /** `1UL shl count` has exactly the bit `count % 64` set. */
  lemma SingleBit(count: int, i: nat)
    requires i < 64
    ensures Shl(OneWord(), count)[i] <==> i == count % 64
  {
  }

  /** `0UL.inv() shl count` has exactly the bits at and above `count % 64` set. */
  lemma HighBits(count: int, i: nat)
    requires i < 64
    ensures Shl(Inv(ZeroWord()), count)[i] <==> i >= count % 64
  {
  }

  // ---------------------------------------------------------------------------
  // Gene
  // ---------------------------------------------------------------------------

  /** A gene: 128 bits held as two unsigned 64-bit halves. */
  datatype Gene = Gene(lo: Word, hi: Word)

  /** `Gene.SIZE_BITS`. */
  const SizeBits: nat := 128

  function EmptyGene(): Gene
  {
    Gene(ZeroWord(), ZeroWord())
  }

  /** `popCount`: the set bits of both halves together. */
  function PopCount(g: Gene): (c: nat)
    ensures c <= SizeBits
  {
    CountOneBits(g.lo) + CountOneBits(g.hi)
  }

  /** `mutate(bitIndex)`: toggle the same bit position in both halves. */
  function Mutate(g: Gene, bitIndex: int): Gene
  {
    var toggleMask := Shl(OneWord(), bitIndex);
    Gene(Xor(g.lo, toggleMask), Xor(g.hi, toggleMask))
  }

  /**
   * `cross(other, crossover)`: keep this gene's bits at and above `crossover`
   * in each half and take `other`'s bits below it. The source rejects a
   * crossover outside 0..63 with `require`.
   */
  function Cross(g: Gene, other: Gene, crossover: int): Gene
    requires 0 <= crossover < 64
  {
    var crossoverMask := Shl(Inv(ZeroWord()), crossover);
    var crossoverMaskInv := Inv(crossoverMask);
    var retainedLsb := And(g.lo, crossoverMask);
    var retainedMsb := And(g.hi, crossoverMask);
    Gene(Or(And(other.lo, crossoverMaskInv), retainedLsb),
         Or(And(other.hi, crossoverMaskInv), retainedMsb))
  }

  /** Mutating toggles bit `bitIndex % 64` of both halves and leaves every other bit as it was. */
  lemma MutateToggles(g: Gene, bitIndex: int, j: nat)
    requires j < 64
    ensures Mutate(g, bitIndex).lo[j] == (g.lo[j] != (j == bitIndex % 64))
    ensures Mutate(g, bitIndex).hi[j] == (g.hi[j] != (j == bitIndex % 64))
  {
    SingleBit(bitIndex, j);
  }

  /** Mutating the same position twice restores the gene. */
  lemma MutateInvolution(g: Gene, bitIndex: int)
    ensures Mutate(Mutate(g, bitIndex), bitIndex) == g
  {
    var g' := Mutate(Mutate(g, bitIndex), bitIndex);
    forall j | 0 <= j < 64
      ensures g'.lo[j] == g.lo[j] && g'.hi[j] == g.hi[j]
    {
      MutateToggles(g, bitIndex, j);
      MutateToggles(Mutate(g, bitIndex), bitIndex, j);
    }
    assert g'.lo == g.lo;
    assert g'.hi == g.hi;
  }

  function Ones(b: bool): nat
  {
    if b then 1 else 0
  }

  /** +1 when `y` has bit `m` and `x` does not, -1 the other way round, 0 when `m` is not among the lowest `n` bits. */
  function FlipDelta(x: Word, y: Word, m: nat, n: nat): int
    requires m < 64
  {
    if m < n then Ones(y[m]) - Ones(x[m]) else 0
  }

  /** Two words that agree everywhere except at bit `m` differ in their count of set bits by what bit `m` contributes. */
  lemma {:induction false} CountOnesOneBitApart(x: Word, y: Word, m: nat, n: nat)
    requires m < 64 && n <= 64
    requires forall j :: 0 <= j < 64 && j != m ==> x[j] == y[j]
    ensures CountOnes(y, n) == CountOnes(x, n) + FlipDelta(x, y, m, n)
  {
    if n > 0 {
      CountOnesOneBitApart(x, y, m, n - 1);
    }
  }

  /** A mutation moves the count of each half by one, so the gene's by -2, 0 or +2; +2 exactly when the bit was clear in both halves. */
  lemma MutatePopCount(g: Gene, bitIndex: int)
    ensures var d := PopCount(Mutate(g, bitIndex)) - PopCount(g); d == -2 || d == 0 || d == 2
    ensures PopCount(Mutate(g, bitIndex)) == PopCount(g) + 2 <==> !g.lo[bitIndex % 64] && !g.hi[bitIndex % 64]
    ensures PopCount(Mutate(g, bitIndex)) == PopCount(g) - 2 <==> g.lo[bitIndex % 64] && g.hi[bitIndex % 64]
  {
    var m := bitIndex % 64;
    var g' := Mutate(g, bitIndex);
    forall j | 0 <= j < 64
      ensures g'.lo[j] == (g.lo[j] != (j == m)) && g'.hi[j] == (g.hi[j] != (j == m))
    {
      MutateToggles(g, bitIndex, j);
    }
    CountOnesOneBitApart(g.lo, g'.lo, m, 64);
    CountOnesOneBitApart(g.hi, g'.hi, m, 64);
  }

  /** In each half of a crossed gene, bits at or above the crossover come from `a` and bits below it from `b`. */
  lemma CrossBits(a: Gene, b: Gene, c: int, j: nat)
    requires 0 <= c < 64 && j < 64
    ensures Cross(a, b, c).lo[j] == if j >= c then a.lo[j] else b.lo[j]
    ensures Cross(a, b, c).hi[j] == if j >= c then a.hi[j] else b.hi[j]
  {
    HighBits(c, j);
  }

  /** Crossing at point 0 keeps the whole of the first parent. */
  lemma CrossAtZero(a: Gene, b: Gene)
    ensures Cross(a, b, 0) == a
  {
    var r := Cross(a, b, 0);
    forall j | 0 <= j < 64
      ensures r.lo[j] == a.lo[j] && r.hi[j] == a.hi[j]
    {
      CrossBits(a, b, 0, j);
    }
    assert r.lo == a.lo;
    assert r.hi == a.hi;
  }

  /** Crossing a gene with itself gives it back. */
  lemma CrossSelf(g: Gene, c: int)
    requires 0 <= c < 64
    ensures Cross(g, g, c) == g
  {
    var r := Cross(g, g, c);
    forall j | 0 <= j < 64
      ensures r.lo[j] == g.lo[j] && r.hi[j] == g.hi[j]
    {
      CrossBits(g, g, c, j);
    }
    assert r.lo == g.lo;
    assert r.hi == g.hi;
  }

  /** Two words whose bits pair up with those of two others have the same total count. */
  lemma {:induction false} CountOnesConserved(x: Word, y: Word, a: Word, b: Word, n: nat)
    requires n <= 64
    requires forall j :: 0 <= j < n ==> Ones(x[j]) + Ones(y[j]) == Ones(a[j]) + Ones(b[j])
    ensures CountOnes(x, n) + CountOnes(y, n) == CountOnes(a, n) + CountOnes(b, n)
  {
    if n > 0 {
      CountOnesConserved(x, y, a, b, n - 1);
    }
  }

  /** The two children of a crossover carry exactly the set bits of their parents between them. */
  lemma CrossConservesPopCount(a: Gene, b: Gene, c: int)
    requires 0 <= c < 64
    ensures PopCount(Cross(a, b, c)) + PopCount(Cross(b, a, c)) == PopCount(a) + PopCount(b)
  {
    var ab, ba := Cross(a, b, c), Cross(b, a, c);
    forall j | 0 <= j < 64
      ensures Ones(ab.lo[j]) + Ones(ba.lo[j]) == Ones(a.lo[j]) + Ones(b.lo[j])
      ensures Ones(ab.hi[j]) + Ones(ba.hi[j]) == Ones(a.hi[j]) + Ones(b.hi[j])
    {
      CrossBits(a, b, c, j);
      CrossBits(b, a, c, j);
    }
    CountOnesConserved(ab.lo, ba.lo, a.lo, b.lo, 64);
    CountOnesConserved(ab.hi, ba.hi, a.hi, b.hi, 64);
  }

  // ---------------------------------------------------------------------------
  // withOneBits: a gene with a chosen number of set bits at shuffled positions
  // ---------------------------------------------------------------------------

  /** One of the gene's bit positions: `inLo` picks the half, `index` the bit within it. */
  datatype Position = Position(inLo: bool, index: int)

  /** The 128 positions the source generates have indices 0..63. */
  predicate InRange(p: Position)
  {
    0 <= p.index < 64
  }

  predicate IsSet(g: Gene, p: Position)
    requires InRange(p)
  {
    if p.inLo then g.lo[p.index] else g.hi[p.index]
  }

  /** The fold step of `withOneBits`: or `1UL shl index` into the chosen half. */
  function SetBit(g: Gene, p: Position): Gene
  {
    var mask := Shl(OneWord(), p.index);
    if p.inLo then g.(lo := Or(g.lo, mask)) else g.(hi := Or(g.hi, mask))
  }

  /** The left fold of `SetBit` over `ps`. */
  function SetAll(g: Gene, ps: seq<Position>): Gene
    decreases |ps|
  {
    if |ps| == 0 then g else SetAll(SetBit(g, ps[0]), ps[1..])
  }

  predicate NoDuplicates(s: seq<Position>)
  {
    forall i, j :: 0 <= i < j < |s| ==> s[i] != s[j]
  }

  /** Kotlin's `distinct()`: the first occurrence of each element not in `seen`, in order. */
  function Distinct(s: seq<Position>, seen: set<Position>): (r: seq<Position>)
    ensures NoDuplicates(r)
    ensures forall p :: p in r <==> p in s && p !in seen
  {
    if |s| == 0 then []
    else if s[0] in seen then Distinct(s[1..], seen)
    else [s[0]] + Distinct(s[1..], seen + {s[0]})
  }

  /**
   * `withOneBits(bitCount, random)`: the positions, in the order the shuffle
   * put them (`shuffled`), made distinct, cut to the first `bitCount`, and
   * set one by one in an empty gene. A negative `bitCount` makes `take`
   * throw, which is None here.
   */
  function WithOneBits(bitCount: int, shuffled: seq<Position>): Option<Gene>
  {
    if bitCount < 0 then None
    else
      var d := Distinct(shuffled, {});
      Some(SetAll(EmptyGene(), d[..Min(bitCount, |d|)]))
  }

  /** Setting a position sets it and leaves every other position as it was. */
  lemma SetBitEffect(g: Gene, p: Position, q: Position)
    requires InRange(p) && InRange(q)
    ensures IsSet(SetBit(g, p), q) == (IsSet(g, q) || q == p)
  {
    assert p.index % 64 == p.index;
    SingleBit(p.index, q.index);
  }

  /** Setting a clear position adds exactly one to the population count. */
  lemma SetBitCount(g: Gene, p: Position)
    requires InRange(p) && !IsSet(g, p)
    ensures PopCount(SetBit(g, p)) == PopCount(g) + 1
  {
    var g' := SetBit(g, p);
    forall j | 0 <= j < 64
      ensures IsSet(g', Position(p.inLo, j)) == (IsSet(g, Position(p.inLo, j)) || j == p.index)
      ensures IsSet(g', Position(!p.inLo, j)) == IsSet(g, Position(!p.inLo, j))
    {
      SetBitEffect(g, p, Position(p.inLo, j));
      SetBitEffect(g, p, Position(!p.inLo, j));
    }
    CountOnesOneBitApart(g.lo, g'.lo, p.index, 64);
    CountOnesOneBitApart(g.hi, g'.hi, p.index, 64);
  }

  /** Setting distinct clear positions one by one sets exactly those and counts each once. */
  lemma {:induction false} SetAllEffect(g: Gene, ps: seq<Position>)
    requires forall p :: p in ps ==> InRange(p) && !IsSet(g, p)
    requires NoDuplicates(ps)
    ensures PopCount(SetAll(g, ps)) == PopCount(g) + |ps|
    ensures forall q :: InRange(q) ==> (IsSet(SetAll(g, ps), q) <==> IsSet(g, q) || q in ps)
    decreases |ps|
  {
    if |ps| > 0 {
      var g' := SetBit(g, ps[0]);
      SetBitCount(g, ps[0]);
      forall q | InRange(q)
        ensures IsSet(g', q) == (IsSet(g, q) || q == ps[0])
      {
        SetBitEffect(g, ps[0], q);
      }
      forall p | p in ps[1..]
        ensures InRange(p) && !IsSet(g', p)
      {
        var k :| 1 <= k < |ps| && ps[k] == p;
        assert p != ps[0];
      }
      assert NoDuplicates(ps[1..]) by {
        forall i, j | 0 <= i < j < |ps| - 1
          ensures ps[1..][i] != ps[1..][j]
        {
          assert ps[i + 1] != ps[j + 1];
        }
      }
      SetAllEffect(g', ps[1..]);
      assert forall q :: q in ps <==> q == ps[0] || q in ps[1..];
    }
  }

  lemma {:induction false} ZeroWordCount(n: nat)
    requires n <= 64
    ensures CountOnes(ZeroWord(), n) == 0
  {
    if n > 0 {
      ZeroWordCount(n - 1);
    }
  }

  /**
   * A gene from `withOneBits` has exactly `min(bitCount, n)` set bits, where
   * `n` is the number of distinct positions in the shuffled order, and its
   * set bits are the first of those positions; a negative count fails.
   */
  lemma WithOneBitsCount(bitCount: int, shuffled: seq<Position>)
    requires forall p :: p in shuffled ==> InRange(p)
    ensures WithOneBits(bitCount, shuffled).None? <==> bitCount < 0
    ensures WithOneBits(bitCount, shuffled).Some? ==>
      PopCount(WithOneBits(bitCount, shuffled).value) == Min(bitCount, |Distinct(shuffled, {})|)
    ensures WithOneBits(bitCount, shuffled).Some? ==>
      forall q :: InRange(q) && IsSet(WithOneBits(bitCount, shuffled).value, q) ==> q in shuffled
    ensures bitCount >= |Distinct(shuffled, {})| ==>
      forall q :: q in shuffled ==> IsSet(WithOneBits(bitCount, shuffled).value, q)
  {
    if bitCount >= 0 {
      var d := Distinct(shuffled, {});
      var taken := d[..Min(bitCount, |d|)];
      assert NoDuplicates(taken) by {
        forall i, j | 0 <= i < j < |taken|
          ensures taken[i] != taken[j]
        {
          assert d[i] != d[j];
        }
      }
      assert forall p :: p in taken ==> p in d;
      SetAllEffect(EmptyGene(), taken);
      ZeroWordCount(64);
      if bitCount >= |d| {
        assert taken == d;
      }
    }
  }

  /** The sequence `withOneBits` shuffles: `(true, i)` then `(false, i)` for each i in 0 until 64. */
  function Generated(): seq<Position>
  {
    seq(128, k => Position(k % 2 == 0, k / 2))
  }

  lemma GeneratedPositions()
    ensures NoDuplicates(Generated())
    ensures forall p :: p in Generated() ==> InRange(p)
  {
  }

  /** A position occurs at most once in a sequence without duplicates. */
  lemma {:induction false} NoDuplicatesCount(s: seq<Position>, x: Position)
    requires NoDuplicates(s)
    ensures multiset(s)[x] <= 1
  {
    if |s| > 0 {
      assert s == [s[0]] + s[1..];
      assert NoDuplicates(s[1..]) by {
        forall i, j | 0 <= i < j < |s[1..]|
          ensures s[1..][i] != s[1..][j]
        {
          assert s[i + 1] != s[j + 1];
        }
      }
      NoDuplicatesCount(s[1..], x);
      if s[0] == x {
        assert x !in s[1..] by {
          forall k | 0 <= k < |s[1..]|
            ensures s[1..][k] != x
          {
            assert s[0] != s[k + 1];
          }
        }
      }
    }
  }

  /** A permutation of a sequence without duplicates has none either. */
  lemma PermutationNoDuplicates(s: seq<Position>, t: seq<Position>)
    requires NoDuplicates(t) && multiset(s) == multiset(t)
    ensures NoDuplicates(s)
  {
    forall i, j | 0 <= i < j < |s|
      ensures s[i] != s[j]
    {
      if s[i] == s[j] {
        assert s == s[..j] + s[j..];
        assert s[i] in s[..j] && s[j] in s[j..];
        assert multiset(s)[s[i]] == multiset(s[..j])[s[i]] + multiset(s[j..])[s[i]];
        NoDuplicatesCount(t, s[i]);
        assert false;
      }
    }
  }

  /** `distinct()` leaves a sequence without duplicates, none of them seen, as it is. */
  lemma {:induction false} DistinctOfNoDuplicates(s: seq<Position>, seen: set<Position>)
    requires NoDuplicates(s)
    requires forall p :: p in s ==> p !in seen
    ensures Distinct(s, seen) == s
  {
    if |s| > 0 {
      assert NoDuplicates(s[1..]) by {
        forall i, j | 0 <= i < j < |s[1..]|
          ensures s[1..][i] != s[1..][j]
        {
          assert s[i + 1] != s[j + 1];
        }
      }
      forall p | p in s[1..]
        ensures p !in seen + {s[0]}
      {
        var k :| 0 <= k < |s[1..]| && s[1..][k] == p;
        assert s[0] != s[k + 1];
      }
      DistinctOfNoDuplicates(s[1..], seen + {s[0]});
      assert s == [s[0]] + s[1..];
    }
  }

  /**
   * Whatever order the shuffle picks, `withOneBits(bitCount)` has exactly
   * `min(bitCount, 128)` set bits, so exactly `bitCount` for 0 <= bitCount <= 128.
   */
  lemma WithOneBitsOfShuffle(bitCount: int, shuffled: seq<Position>)
    requires multiset(shuffled) == multiset(Generated())
    ensures bitCount >= 0 ==> PopCount(WithOneBits(bitCount, shuffled).value) == Min(bitCount, 128)
    ensures 0 <= bitCount <= 128 ==> PopCount(WithOneBits(bitCount, shuffled).value) == bitCount
  {
    GeneratedPositions();
    PermutationNoDuplicates(shuffled, Generated());
    assert |shuffled| == |multiset(shuffled)| == |multiset(Generated())| == 128;
    forall p | p in shuffled
      ensures InRange(p)
    {
      assert p in multiset(shuffled);
    }
    DistinctOfNoDuplicates(shuffled, {});
    WithOneBitsCount(bitCount, shuffled);
  }

  // ---------------------------------------------------------------------------
  // Chromosome
  // ---------------------------------------------------------------------------

  /** Four genes, one per trait. */
  datatype Chromosome = Chromosome(pepperYield: Gene, scovilleCount: Gene, pepperSize: Gene, growthDuration: Gene)

  /** `Chromosome.TOTAL_BITS`. */
  const TotalBits: nat := SizeBits * 4

  function EmptyChromosome(): Chromosome
  {
    Chromosome(EmptyGene(), EmptyGene(), EmptyGene(), EmptyGene())
  }

  /** `totalPopCount`: the set bits of all four genes. */
  function TotalPopCount(c: Chromosome): (t: nat)
    ensures t <= TotalBits
  {
    PopCount(c.pepperSize) + PopCount(c.pepperYield) + PopCount(c.scovilleCount) + PopCount(c.growthDuration)
  }

  /**
   * `mutate(mutationPoint)`: the gene chosen by Kotlin's truncating
   * `mutationPoint % 4` is mutated at `mutationPoint`. A negative remainder
   * reaches the `unreachable` exception, which is None here.
   */
  function MutateChromosome(c: Chromosome, mutationPoint: int): Option<Chromosome>
  {
    var which := TruncRem(mutationPoint, 4);
    if which == 0 then Some(c.(pepperYield := Mutate(c.pepperYield, mutationPoint)))
    else if which == 1 then Some(c.(pepperSize := Mutate(c.pepperSize, mutationPoint)))
    else if which == 2 then Some(c.(scovilleCount := Mutate(c.scovilleCount, mutationPoint)))
    else if which == 3 then Some(c.(growthDuration := Mutate(c.growthDuration, mutationPoint)))
    else None
  }

  /** The number of genes in which two chromosomes differ. */
  function GenesChanged(a: Chromosome, b: Chromosome): nat
  {
    Ones(a.pepperYield != b.pepperYield) + Ones(a.scovilleCount != b.scovilleCount)
      + Ones(a.pepperSize != b.pepperSize) + Ones(a.growthDuration != b.growthDuration)
  }

  /**
   * A mutation fails exactly for a negative point that is not a multiple of 4;
   * otherwise it changes exactly one gene, the one `mutationPoint` selects,
   * and mutating again at the same point undoes it.
   */
  lemma MutateChromosomeEffect(c: Chromosome, mutationPoint: int)
    ensures MutateChromosome(c, mutationPoint).None? <==> mutationPoint < 0 && mutationPoint % 4 != 0
    ensures mutationPoint >= 0 ==> MutateChromosome(c, mutationPoint).Some?
    ensures MutateChromosome(c, mutationPoint).Some? ==>
      GenesChanged(c, MutateChromosome(c, mutationPoint).value) == 1
    ensures mutationPoint >= 0 && mutationPoint % 4 == 0 ==>
      MutateChromosome(c, mutationPoint).value.pepperYield != c.pepperYield
    ensures mutationPoint >= 0 && mutationPoint % 4 == 2 ==>
      MutateChromosome(c, mutationPoint).value.scovilleCount != c.scovilleCount
    ensures mutationPoint % 4 == 0 ==>
      MutateChromosome(c, mutationPoint) == Some(c.(pepperYield := Mutate(c.pepperYield, mutationPoint)))
    ensures mutationPoint >= 0 && mutationPoint % 4 == 1 ==>
      MutateChromosome(c, mutationPoint) == Some(c.(pepperSize := Mutate(c.pepperSize, mutationPoint)))
    ensures mutationPoint >= 0 && mutationPoint % 4 == 2 ==>
      MutateChromosome(c, mutationPoint) == Some(c.(scovilleCount := Mutate(c.scovilleCount, mutationPoint)))
    ensures mutationPoint >= 0 && mutationPoint % 4 == 3 ==>
      MutateChromosome(c, mutationPoint) == Some(c.(growthDuration := Mutate(c.growthDuration, mutationPoint)))
    ensures MutateChromosome(c, mutationPoint).Some? ==>
      MutateChromosome(MutateChromosome(c, mutationPoint).value, mutationPoint) == Some(c)
  {
    var m := mutationPoint % 64;
    forall g: Gene
      ensures Mutate(g, mutationPoint) != g
      ensures Mutate(Mutate(g, mutationPoint), mutationPoint) == g
    {
      MutateToggles(g, mutationPoint, m);
      MutateInvolution(g, mutationPoint);
    }
    var r := TruncRem(mutationPoint, 4);
    if mutationPoint < 0 {
      assert r == -((-mutationPoint) % 4);
      assert (-mutationPoint) % 4 == 0 <==> mutationPoint % 4 == 0;
    }
  }

  /**
   * `cross(right, crossover)` as written: three genes are crossed with the
   * right parent's, but `pepperYield` is crossed with itself.
   */
  function CrossChromosome(c: Chromosome, right: Chromosome, crossover: int): Chromosome
    requires 0 <= crossover < 64
  {
    Chromosome(
      pepperYield := Cross(c.pepperYield, c.pepperYield, crossover),
      scovilleCount := Cross(c.scovilleCount, right.scovilleCount, crossover),
      pepperSize := Cross(c.pepperSize, right.pepperSize, crossover),
      growthDuration := Cross(c.growthDuration, right.growthDuration, crossover))
  }

  /** As written, a child's yield gene is always its left parent's: the right parent's never enters. */
  lemma CrossChromosomeKeepsLeftYield(c: Chromosome, right: Chromosome, crossover: int)
    requires 0 <= crossover < 64
    ensures CrossChromosome(c, right, crossover).pepperYield == c.pepperYield
  {
    CrossSelf(c.pepperYield, crossover);
  }

  /** A witness: the right parent's full yield gene contributes nothing to a cross at 63. */
  lemma CrossChromosomeIgnoresRightYield()
    ensures var full := Gene(Inv(ZeroWord()), Inv(ZeroWord()));
      var right := EmptyChromosome().(pepperYield := full);
      CrossChromosome(EmptyChromosome(), right, 63).pepperYield == EmptyGene()
      && CrossChromosomeIntended(EmptyChromosome(), right, 63).pepperYield != EmptyGene()
  {
    var full := Gene(Inv(ZeroWord()), Inv(ZeroWord()));
    CrossSelf(EmptyGene(), 63);
    CrossBits(EmptyGene(), full, 63, 0);
  }

  /** `cross` with every gene, yield included, crossed with the right parent's. */
  function CrossChromosomeIntended(c: Chromosome, right: Chromosome, crossover: int): Chromosome
    requires 0 <= crossover < 64
  {
    Chromosome(
      pepperYield := Cross(c.pepperYield, right.pepperYield, crossover),
      scovilleCount := Cross(c.scovilleCount, right.scovilleCount, crossover),
      pepperSize := Cross(c.pepperSize, right.pepperSize, crossover),
      growthDuration := Cross(c.growthDuration, right.growthDuration, crossover))
  }

  /**
   * With every gene crossed, the two children of a pair carry exactly their
   * parents' set bits between them, gene by gene and in total; crossing at 0
   * gives back the left parent and crossing a chromosome with itself gives it back.
   */
  lemma CrossChromosomeIntendedConserves(a: Chromosome, b: Chromosome, crossover: int)
    requires 0 <= crossover < 64
    ensures TotalPopCount(CrossChromosomeIntended(a, b, crossover)) + TotalPopCount(CrossChromosomeIntended(b, a, crossover))
      == TotalPopCount(a) + TotalPopCount(b)
    ensures PopCount(CrossChromosomeIntended(a, b, crossover).pepperYield) + PopCount(CrossChromosomeIntended(b, a, crossover).pepperYield)
      == PopCount(a.pepperYield) + PopCount(b.pepperYield)
    ensures CrossChromosomeIntended(a, b, 0) == a
    ensures CrossChromosomeIntended(a, a, crossover) == a
  {
    CrossConservesPopCount(a.pepperYield, b.pepperYield, crossover);
    CrossConservesPopCount(a.scovilleCount, b.scovilleCount, crossover);
    CrossConservesPopCount(a.pepperSize, b.pepperSize, crossover);
    CrossConservesPopCount(a.growthDuration, b.growthDuration, crossover);
    CrossAtZero(a.pepperYield, b.pepperYield);
    CrossAtZero(a.scovilleCount, b.scovilleCount);
    CrossAtZero(a.pepperSize, b.pepperSize);
    CrossAtZero(a.growthDuration, b.growthDuration);
    CrossSelf(a.pepperYield, crossover);
    CrossSelf(a.scovilleCount, crossover);
    CrossSelf(a.pepperSize, crossover);
    CrossSelf(a.growthDuration, crossover);
  }
}
