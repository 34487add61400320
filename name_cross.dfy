/**
 * engine/GeneticsNameCross.kt: the name of a bred pepper. The scoville
 * gene's share of set bits picks the noun, the whole chromosome's share
 * picks the adjective. The name lists are not part of this model and are
 * parameters here.
 */
module NameCross {
  import opened Wrappers
  import opened Genetics

  /**
   * `roundToInt` of `count / bits * size` for `bits` a power of two: the
   * float arithmetic is exact for the counts and list sizes involved, and
   * Kotlin rounds halves up, so the result is floor(count * size / bits + 1/2).
   */
  function RoundedShare(count: nat, bits: nat, size: nat): nat
    requires bits > 0
  {
    (2 * count * size + bits) / (2 * bits)
  }

  /** `min(size - 1, rounded share)` as the source computes it. */
  function CappedIndex(count: nat, bits: nat, size: nat): int
    requires bits > 0
  {
    var r := RoundedShare(count, bits, size);
    if size - 1 <= r then size - 1 else r
  }

  /** The index of the noun: the scoville gene's share of `Gene.SIZE_BITS`. */
  function NounIndex(c: Chromosome, pepperCount: nat): int
  {
    CappedIndex(PopCount(c.scovilleCount), SizeBits, pepperCount)
  }

  /** The index of the adjective: the whole chromosome's share of `Chromosome.TOTAL_BITS`. */
  function AdjectiveIndex(c: Chromosome, adjectiveCount: nat): int
  {
    CappedIndex(TotalPopCount(c), TotalBits, adjectiveCount)
  }

  /** `nameCross(chromosome)`: "adjective pepper". An empty list makes the index -1, which throws: None. */
  function NameCross(c: Chromosome, peppers: seq<string>, adjectives: seq<string>): Option<string>
  {
    var strength := NounIndex(c, |peppers|);
    var adj := AdjectiveIndex(c, |adjectives|);
    if 0 <= adj < |adjectives| && 0 <= strength < |peppers| then
      Some(adjectives[adj] + " " + peppers[strength])
    else None
  }

  /** A capped index lies in 0..size-1 for a non-empty list and a count within `bits`; it is -1 for an empty one. */
  lemma CappedIndexBounds(count: nat, bits: nat, size: nat)
    requires bits > 0 && count <= bits
    ensures size > 0 ==> 0 <= CappedIndex(count, bits, size) < size
    ensures size == 0 ==> CappedIndex(count, bits, size) == -1
    ensures count == 0 ==> CappedIndex(count, bits, size) == if size == 0 then -1 else 0
    ensures count == bits ==> CappedIndex(count, bits, size) == size - 1
  {
    if count == bits {
      assert 2 * count * size + bits == (2 * bits) * size + bits;
    }
  }

  /** A larger count never gives a smaller index. */
  lemma CappedIndexMonotone(c1: nat, c2: nat, bits: nat, size: nat)
    requires bits > 0 && c1 <= c2
    ensures CappedIndex(c1, bits, size) <= CappedIndex(c2, bits, size)
  {
    MulLe(c1, c2, 2 * size);
    assert c1 * (2 * size) == 2 * c1 * size && c2 * (2 * size) == 2 * c2 * size;
    DivLe(2 * c1 * size + bits, 2 * c2 * size + bits, 2 * bits);
  }

  lemma DivLe(x: nat, y: nat, d: nat)
    requires x <= y && d > 0
    ensures x / d <= y / d
  {
    var qx, qy := x / d, y / d;
    assert x == qx * d + x % d && y == qy * d + y % d;
    if qx > qy {
      MulLe(qy + 1, qx, d);
      assert false;
    }
  }

  lemma MulLe(a: nat, b: nat, k: nat)
    requires a <= b
    ensures a * k <= b * k
  {
  }

  /**
   * The name exists exactly when both lists are non-empty; it is then an
   * adjective, a space and a pepper, chosen from within the lists.
   */
  lemma NameCrossShape(c: Chromosome, peppers: seq<string>, adjectives: seq<string>)
    ensures NameCross(c, peppers, adjectives).Some? <==> |peppers| > 0 && |adjectives| > 0
    ensures NameCross(c, peppers, adjectives).Some? ==>
      exists i, j :: 0 <= i < |adjectives| && 0 <= j < |peppers| &&
        NameCross(c, peppers, adjectives).value == adjectives[i] + " " + peppers[j]
  {
    CappedIndexBounds(PopCount(c.scovilleCount), SizeBits, |peppers|);
    CappedIndexBounds(TotalPopCount(c), TotalBits, |adjectives|);
  }

  /** The noun depends on the scoville gene alone, and more scoville bits never give an earlier noun. */
  lemma NounFollowsScovilles(c1: Chromosome, c2: Chromosome, pepperCount: nat)
    ensures c1.scovilleCount == c2.scovilleCount ==> NounIndex(c1, pepperCount) == NounIndex(c2, pepperCount)
    ensures PopCount(c1.scovilleCount) <= PopCount(c2.scovilleCount) ==>
      NounIndex(c1, pepperCount) <= NounIndex(c2, pepperCount)
  {
    if PopCount(c1.scovilleCount) <= PopCount(c2.scovilleCount) {
      CappedIndexMonotone(PopCount(c1.scovilleCount), PopCount(c2.scovilleCount), SizeBits, pepperCount);
    }
  }

  /** More set bits in the whole chromosome never give an earlier adjective. */
  lemma AdjectiveFollowsTotal(c1: Chromosome, c2: Chromosome, adjectiveCount: nat)
    ensures TotalPopCount(c1) <= TotalPopCount(c2) ==>
      AdjectiveIndex(c1, adjectiveCount) <= AdjectiveIndex(c2, adjectiveCount)
  {
    if TotalPopCount(c1) <= TotalPopCount(c2) {
      CappedIndexMonotone(TotalPopCount(c1), TotalPopCount(c2), TotalBits, adjectiveCount);
    }
  }

  /** A gene with every bit set names the last pepper; an empty one the first. */
  lemma NounExtremes(c: Chromosome, pepperCount: nat)
    requires pepperCount > 0
    ensures PopCount(c.scovilleCount) == SizeBits ==> NounIndex(c, pepperCount) == pepperCount - 1
    ensures PopCount(c.scovilleCount) == 0 ==> NounIndex(c, pepperCount) == 0
  {
    CappedIndexBounds(PopCount(c.scovilleCount), SizeBits, pepperCount);
  }
}
