/** gt2000/engine/Buyer.kt: the older sale-price formula, linear in scovilles. */
module GtBuyers {
  import opened KotlinInt

  datatype Buyer = Friends | Club | LocalShop

  function Ordinal(b: Buyer): int
  {
    match b
    case Friends => 0
    case Club => 1
    case LocalShop => 2
  }

  function PricePerScoville(b: Buyer): int
  {
    match b
    case Friends => 1
    case Club => 2
    case LocalShop => 4
  }

  /** `total(plantType, peppers)` for a type with `scovilles` heat. */
  function Total(b: Buyer, scovilles: int, peppers: int): int
  {
    (Max(scovilles, 1) * PricePerScoville(b)) * peppers
  }

  /** Zero peppers earn nothing; a type with no heat is priced as if it had one scoville. */
  lemma TotalEdgeCases(b: Buyer, scovilles: int, peppers: int)
    ensures Total(b, scovilles, 0) == 0
    ensures scovilles <= 1 ==> Total(b, scovilles, peppers) == PricePerScoville(b) * peppers
    ensures scovilles >= 1 ==> Total(b, scovilles, peppers) == scovilles * PricePerScoville(b) * peppers
  {
  }

  /** A higher tier never pays less for the same non-negative sale. */
  lemma TotalMonotoneInTier(a: Buyer, b: Buyer, scovilles: int, peppers: int)
    requires Ordinal(a) <= Ordinal(b)
    requires peppers >= 0
    ensures Total(a, scovilles, peppers) <= Total(b, scovilles, peppers)
  {
    var k := Max(scovilles, 1);
    assert k * PricePerScoville(a) <= k * PricePerScoville(b);
    MulMonotone(peppers, k * PricePerScoville(a), k * PricePerScoville(b));
  }
}
