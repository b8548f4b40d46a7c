/** The window search: every run of `n` consecutive slots of the merged series
    is a candidate; the cheapest qualifying one wins, the earliest on ties. */
module Search {
  import opened Wrappers
  import opened Rates

  /** The best period as the card keeps it: first slot's start, last slot's
      end, and the average price already multiplied by the multiplier. */
  datatype Period = Period(start: int, end: int, averagePrice: real)

  /** What the search reports once the duration has been accepted. */
  datatype Outcome =
    | InsufficientData(hoursAvailable: real)
    | NoSuitablePeriod
    | Cheapest(period: Period)

  /** Unscaled average price of the `n` slots starting at `i`. */
  function WindowAverage(rates: seq<Rate>, n: nat, i: nat): real
    requires 0 < n && i + n <= |rates|
  {
    SlotSum(rates[i..i + n]) / n as real
  }

  /** The window starting at `i` is a candidate: it fits in the series, its
      last slot has not ended before `now`, and when a ceiling is set its
      scaled average does not exceed it. */
  predicate Qualifies(rates: seq<Rate>, n: nat, maxPrice: Option<real>, multiplier: real, now: int, i: nat) {
    && 0 < n
    && i + n <= |rates|
    && !(rates[i + n - 1].end < now)
    && !(maxPrice.Some? && WindowAverage(rates, n, i) * multiplier > maxPrice.value)
  }

  /** `b` starts the cheapest qualifying window (by unscaled average), and no
      earlier qualifying window is as cheap. */
  ghost predicate IsCheapestWindow(rates: seq<Rate>, n: nat, maxPrice: Option<real>, multiplier: real, now: int, b: nat) {
    && Qualifies(rates, n, maxPrice, multiplier, now, b)
    && (forall k: nat :: Qualifies(rates, n, maxPrice, multiplier, now, k) ==>
          WindowAverage(rates, n, b) <= WindowAverage(rates, n, k))
    && (forall k: nat :: k < b && Qualifies(rates, n, maxPrice, multiplier, now, k) ==>
          WindowAverage(rates, n, b) < WindowAverage(rates, n, k))
  }

  /** The period the card records for the window starting at `i`. */
  function PeriodAt(rates: seq<Rate>, n: nat, multiplier: real, i: nat): Period
    requires 0 < n && i + n <= |rates|
  {
    Period(rates[i].start, rates[i + n - 1].end, WindowAverage(rates, n, i) * multiplier)
  }

  /** The card's inner loop: the prices of the `n` slots starting at `i`,
      added one by one. The bounds guard is kept; its else branch (the
      out-of-bounds warning) is proved unreachable. */
  method WindowSum(rates: seq<Rate>, n: nat, i: nat) returns (sum: real)
    requires i + n <= |rates|
    ensures sum == SlotSum(rates[i..i + n])
  {
    sum := 0.0;
    var j := 0;
    while j < n
      invariant 0 <= j <= n
      invariant sum == SlotSum(rates[i..i + j])
    {
      if i + j < |rates| {
        assert rates[i..i + j + 1] == rates[i..i + j] + [rates[i + j]];
        SlotSumSnoc(rates[i..i + j], rates[i + j]);
        sum := sum + rates[i + j].valueIncVat;
      } else {
        assert false;
      }
      j := j + 1;
    }
  }

  /** After trying the starts below `i`, `best` is what the card holds: no
      start when none of them qualified, otherwise the cheapest qualifying
      one among them, earliest on ties. */
  ghost predicate BestBelow(rates: seq<Rate>, n: nat, maxPrice: Option<real>, multiplier: real, now: int,
                            best: Option<nat>, i: nat) {
    match best
    case None =>
      forall k: nat :: k < i ==> !Qualifies(rates, n, maxPrice, multiplier, now, k)
    case Some(b) =>
      && b < i
      && Qualifies(rates, n, maxPrice, multiplier, now, b)
      && (forall k: nat :: k < i && Qualifies(rates, n, maxPrice, multiplier, now, k) ==>
            WindowAverage(rates, n, b) <= WindowAverage(rates, n, k))
      && (forall k: nat :: k < b && Qualifies(rates, n, maxPrice, multiplier, now, k) ==>
            WindowAverage(rates, n, b) < WindowAverage(rates, n, k))
  }

  /** A start that does not qualify leaves the best-so-far unchanged. */
  lemma SkipStep(rates: seq<Rate>, n: nat, maxPrice: Option<real>, multiplier: real, now: int, best: Option<nat>, i: nat)
    requires BestBelow(rates, n, maxPrice, multiplier, now, best, i)
    requires !Qualifies(rates, n, maxPrice, multiplier, now, i)
    ensures BestBelow(rates, n, maxPrice, multiplier, now, best, i + 1)
  {
  }

  /** A qualifying start that is not strictly cheaper leaves the best-so-far
      unchanged. */
  lemma KeepStep(rates: seq<Rate>, n: nat, maxPrice: Option<real>, multiplier: real, now: int, b: nat, i: nat)
    requires BestBelow(rates, n, maxPrice, multiplier, now, Some(b), i)
    requires Qualifies(rates, n, maxPrice, multiplier, now, i)
    requires WindowAverage(rates, n, b) <= WindowAverage(rates, n, i)
    ensures BestBelow(rates, n, maxPrice, multiplier, now, Some(b), i + 1)
  {
  }

  /** A qualifying start that is strictly cheaper than everything before it
      becomes the best-so-far. */
  lemma TakeStep(rates: seq<Rate>, n: nat, maxPrice: Option<real>, multiplier: real, now: int, best: Option<nat>, i: nat)
    requires BestBelow(rates, n, maxPrice, multiplier, now, best, i)
    requires Qualifies(rates, n, maxPrice, multiplier, now, i)
    requires best.Some? ==> WindowAverage(rates, n, i) < WindowAverage(rates, n, best.value)
    ensures BestBelow(rates, n, maxPrice, multiplier, now, Some(i), i + 1)
  {
  }

  /** Once every start has been tried, the best-so-far is the answer. */
  lemma BestBelowAll(rates: seq<Rate>, n: nat, maxPrice: Option<real>, multiplier: real, now: int, best: Option<nat>)
    requires 0 < n <= |rates|
    requires BestBelow(rates, n, maxPrice, multiplier, now, best, |rates| - n + 1)
    ensures best.None? <==> forall k: nat :: !Qualifies(rates, n, maxPrice, multiplier, now, k)
    ensures best.Some? ==> IsCheapestWindow(rates, n, maxPrice, multiplier, now, best.value)
  {
  }

  /** The `numSlots`-slot search over the merged series, with the card's
      brute-force summation. `best == None` plays the part of the card's
      `minAveragePrice = Infinity`. */
  method FindCheapestWindow(rates: seq<Rate>, n: nat, maxPrice: Option<real>, multiplier: real, now: int)
    returns (best: Option<nat>)
    requires 0 < n <= |rates|
    ensures best.None? <==> forall k: nat :: !Qualifies(rates, n, maxPrice, multiplier, now, k)
    ensures best.Some? ==> IsCheapestWindow(rates, n, maxPrice, multiplier, now, best.value)
  {
    best := None;
    var minAverage := 0.0;
    var i := 0;
    while i <= |rates| - n
      invariant 0 <= i <= |rates| - n + 1
      invariant BestBelow(rates, n, maxPrice, multiplier, now, best, i)
      invariant best.Some? ==> best.value + n <= |rates| && minAverage == WindowAverage(rates, n, best.value)
    {
      var endRate := rates[i + n - 1];
      if endRate.end < now {
        assert !Qualifies(rates, n, maxPrice, multiplier, now, i);
        SkipStep(rates, n, maxPrice, multiplier, now, best, i);
        i := i + 1;
        continue;
      }
      var sum := WindowSum(rates, n, i);
      var average := sum / n as real;
      assert average == WindowAverage(rates, n, i);
      var scaled := average * multiplier;
      if maxPrice.Some? && scaled > maxPrice.value {
        assert !Qualifies(rates, n, maxPrice, multiplier, now, i);
        SkipStep(rates, n, maxPrice, multiplier, now, best, i);
        i := i + 1;
        continue;
      }
      if best.None? || average < minAverage {
        TakeStep(rates, n, maxPrice, multiplier, now, best, i);
        minAverage := average;
        best := Some(i);
      } else {
        KeepStep(rates, n, maxPrice, multiplier, now, best.value, i);
      }
      i := i + 1;
    }
    BestBelowAll(rates, n, maxPrice, multiplier, now, best);
  }

  /** The search as the card runs it once `numSlots` is known: too little
      data is reported with the hours available, otherwise the cheapest
      qualifying window or that none qualifies. */
  method Evaluate(rates: seq<Rate>, n: nat, maxPrice: Option<real>, multiplier: real, now: int)
    returns (outcome: Outcome)
    requires n > 0
    ensures outcome.InsufficientData? <==> |rates| < n
    ensures outcome.InsufficientData? ==> outcome.hoursAvailable == |rates| as real * 0.5
    ensures outcome.NoSuitablePeriod? <==>
              n <= |rates| && forall k: nat :: !Qualifies(rates, n, maxPrice, multiplier, now, k)
    ensures outcome.Cheapest? ==>
              exists b: nat :: IsCheapestWindow(rates, n, maxPrice, multiplier, now, b)
                            && outcome.period == PeriodAt(rates, n, multiplier, b)
  {
    if |rates| < n {
      return InsufficientData(|rates| as real * 0.5);
    }
    var best := FindCheapestWindow(rates, n, maxPrice, multiplier, now);
    match best
    case None =>
      outcome := NoSuitablePeriod;
    case Some(b) =>
      outcome := Cheapest(PeriodAt(rates, n, multiplier, b));
  }

  /** At most one window is the cheapest-earliest one, so the search result is
      determined by its inputs. */
  lemma CheapestWindowUnique(rates: seq<Rate>, n: nat, maxPrice: Option<real>, multiplier: real, now: int, b1: nat, b2: nat)
    requires IsCheapestWindow(rates, n, maxPrice, multiplier, now, b1)
    requires IsCheapestWindow(rates, n, maxPrice, multiplier, now, b2)
    ensures b1 == b2
  {
  }

  /** The chosen window lies inside the series, its recorded period ends no
      earlier than `now`, and it respects the ceiling in scaled units. */
  lemma CheapestPeriodBounds(rates: seq<Rate>, n: nat, maxPrice: Option<real>, multiplier: real, now: int, b: nat)
    requires IsCheapestWindow(rates, n, maxPrice, multiplier, now, b)
    ensures b + n <= |rates|
    ensures PeriodAt(rates, n, multiplier, b).end >= now
    ensures maxPrice.Some? ==> PeriodAt(rates, n, multiplier, b).averagePrice <= maxPrice.value
  {
  }

  /** Over a series sorted by start whose slots each start no later than
      they end, the recorded period starts no later than it ends: its start
      is the first slot's start and its end the last slot's end. */
  lemma ChosenStartsBeforeEnd(rates: seq<Rate>, n: nat, maxPrice: Option<real>, multiplier: real, now: int, b: nat)
    requires SortedByStart(rates) && WellFormed(rates)
    requires IsCheapestWindow(rates, n, maxPrice, multiplier, now, b)
    ensures PeriodAt(rates, n, multiplier, b).start <= PeriodAt(rates, n, multiplier, b).end
  {
  }

  /** With a positive multiplier, choosing by unscaled average also picks a
      window whose scaled average is minimal. */
  lemma PositiveMultiplierKeepsOrder(rates: seq<Rate>, n: nat, maxPrice: Option<real>, multiplier: real, now: int, b: nat, k: nat)
    requires multiplier > 0.0
    requires IsCheapestWindow(rates, n, maxPrice, multiplier, now, b)
    requires Qualifies(rates, n, maxPrice, multiplier, now, k)
    ensures PeriodAt(rates, n, multiplier, b).averagePrice <= PeriodAt(rates, n, multiplier, k).averagePrice
  {
  }

  /** With a negative multiplier the unscaled choice can be the window with the
      highest scaled price: two slots priced 1 and 2, one-slot windows, and
      multiplier -1 pick the first slot, whose scaled price -1 exceeds -2. */
  lemma NegativeMultiplierInvertsOrder()
    ensures var rates := [Rate(0, 1800000, 1.0), Rate(1800000, 3600000, 2.0)];
            && IsCheapestWindow(rates, 1, None, -1.0, 0, 0)
            && PeriodAt(rates, 1, -1.0, 0).averagePrice > PeriodAt(rates, 1, -1.0, 1).averagePrice
  {
  }
}
