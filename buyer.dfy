/** engine/Buyer.kt: who the player sells peppers to, and at what price. */
module Buyers {
  import opened Currencies
  import opened KotlinInt

  datatype Buyer = Friends | Club | LocalShop

  function Ordinal(b: Buyer): int
  {
    match b
    case Friends => 0
    case Club => 1
    case LocalShop => 2
  }

  function PricePerScoville(b: Buyer): Currency
  {
    match b
    case Friends => Currency(1)
    case Club => Currency(2)
    case LocalShop => Currency(4)
  }

  /** `total(plantType, peppers)`: the sale price for a type with `scovilles` heat. */
  function Total(b: Buyer, scovilles: int, peppers: int): int
  {
    (2 + Max(TruncDiv(scovilles, 1000), 1) * PricePerScoville(b).total) * peppers
  }

  /** The price per pepper; below 2000 scovilles it is 2 plus the tier price. */
  lemma TotalPerPepper(b: Buyer, scovilles: int, peppers: int)
    ensures Total(b, scovilles, peppers)
         == (2 + (if scovilles < 2000 then 1 else scovilles / 1000) * PricePerScoville(b).total) * peppers
    ensures Total(b, scovilles, 0) == 0
  {
  }

  /** A bell pepper (0 scovilles) sells to friends for 3 a pepper. */
  lemma BellPepperToFriends(peppers: int)
    ensures Total(Friends, 0, peppers) == 3 * peppers
  {
  }

  /** A higher tier never pays less for the same non-negative sale. */
  lemma TotalMonotoneInTier(a: Buyer, b: Buyer, scovilles: int, peppers: int)
    requires Ordinal(a) <= Ordinal(b)
    requires peppers >= 0
    ensures Total(a, scovilles, peppers) <= Total(b, scovilles, peppers)
  {
    var k := Max(TruncDiv(scovilles, 1000), 1);
    var pa, pb := PricePerScoville(a).total, PricePerScoville(b).total;
    assert pa <= pb;
    assert k * pa <= k * pb by { MulMonotone(k, pa, pb); }
    MulMonotone(peppers, 2 + k * pa, 2 + k * pb);
  }
}
