/** engine/Currency.kt: an amount of in-game money. */
module Currencies {

  datatype Currency = Currency(total: int)

  /** `canAfford`: a balance covers a price when it is at least as large. */
  predicate CanAfford(balance: Currency, price: Currency)
  {
    balance.total >= price.total
  }

  lemma CanAffordIff(balance: Currency, price: Currency)
    ensures CanAfford(balance, price) <==> price.total <= balance.total
  {
  }

  /** Every balance can afford itself. */
  lemma CanAffordReflexive(c: Currency)
    ensures CanAfford(c, c)
  {
  }

  /** A larger balance affords whatever a smaller one affords. */
  lemma CanAffordMonotone(small: Currency, large: Currency, price: Currency)
    requires small.total <= large.total
    requires CanAfford(small, price)
    ensures CanAfford(large, price)
  {
  }

  /** Affording a price means affording every cheaper one. */
  lemma CanAffordAntitone(balance: Currency, price: Currency, cheaper: Currency)
    requires cheaper.total <= price.total
    requires CanAfford(balance, price)
    ensures CanAfford(balance, cheaper)
  {
  }

  /** Affordability chains through an intermediate amount. */
  lemma CanAffordTransitive(a: Currency, b: Currency, c: Currency)
    requires CanAfford(a, b) && CanAfford(b, c)
    ensures CanAfford(a, c)
  {
  }
}
