/** Tariff slots as the host hands them to the card. */
module Rates {

  /** One half-hour tariff slot. Timestamps are milliseconds since the epoch
      (the card compares them through `new Date(...)`), prices are exact reals. */
  datatype Rate = Rate(start: int, end: int, valueIncVat: real)

  /** Slots are in ascending order of their start time. */
  predicate SortedByStart(s: seq<Rate>) {
    forall i, j :: 0 <= i < j < |s| ==> s[i].start <= s[j].start
  }

  /** Every slot starts no later than it ends. */
  predicate WellFormed(s: seq<Rate>) {
    forall k :: 0 <= k < |s| ==> s[k].start <= s[k].end
  }

  /** Sum of the prices of `s`, accumulated left to right as the card's
      inner loop does. */
  function SlotSum(s: seq<Rate>): real {
    if |s| == 0 then 0.0 else SlotSum(s[..|s| - 1]) + s[|s| - 1].valueIncVat
  }

  /** Adding one more slot at the end adds its price to the sum. */
  lemma SlotSumSnoc(s: seq<Rate>, r: Rate)
    ensures SlotSum(s + [r]) == SlotSum(s) + r.valueIncVat
  {
  }
}
