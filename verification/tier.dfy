/** The colour class of the displayed price: the scaled average price
    against the scaled limits, with a tier of its own for prices <= 0. */
module Tier {
  import opened Wrappers

  datatype Tier = PriceNegative | PriceLow | PriceMedium | PriceHigh

  /** A limit is exceeded only when it is defined (an undefined or NaN limit
      never is). */
  predicate Above(price: real, limit: Option<real>) {
    limit.Some? && price > limit.value
  }

  /** The card's if-chain over the scaled average and the scaled limits. The
      `lowlimit` branch and the final else both give the low tier. */
  function Classify(averagePrice: real, low: Option<real>, medium: Option<real>, high: Option<real>): (t: Tier)
    ensures t == PriceNegative <==> averagePrice <= 0.0
    ensures t == PriceHigh <==> averagePrice > 0.0 && Above(averagePrice, high)
    ensures t == PriceMedium <==> averagePrice > 0.0 && !Above(averagePrice, high) && Above(averagePrice, medium)
    ensures t == PriceLow <==> averagePrice > 0.0 && !Above(averagePrice, high) && !Above(averagePrice, medium)
  {
    if averagePrice <= 0.0 then PriceNegative
    else if Above(averagePrice, high) then PriceHigh
    else if Above(averagePrice, medium) then PriceMedium
    else if Above(averagePrice, low) then PriceLow
    else PriceLow
  }

  /** Position of a tier on the price scale. */
  function Rank(t: Tier): nat {
    match t
    case PriceNegative => 0
    case PriceLow => 1
    case PriceMedium => 2
    case PriceHigh => 3
  }

  /** The low limit never changes the tier. */
  lemma LowLimitIrrelevant(averagePrice: real, low1: Option<real>, low2: Option<real>, medium: Option<real>, high: Option<real>)
    ensures Classify(averagePrice, low1, medium, high) == Classify(averagePrice, low2, medium, high)
  {
  }

  /** A dearer price never gets a cheaper tier, whatever the limits: a
      medium limit above the high limit only leaves the medium tier
      unreachable. */
  lemma ClassifyMonotone(p: real, q: real, low: Option<real>, medium: Option<real>, high: Option<real>)
    requires p <= q
    ensures Rank(Classify(p, low, medium, high)) <= Rank(Classify(q, low, medium, high))
  {
  }
}
