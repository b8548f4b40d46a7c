/** One update of the card from the host: throttle, duration check, merge,
    search, and what the card then shows. */
module Card {
  import opened Wrappers
  import opened Rates
  import opened CardConfig
  import opened Duration
  import opened Merge
  import opened Search
  import opened Tier
  import opened Countdown
  import opened Throttle

  /** What the card shows after a recomputation. */
  datatype View =
    | InvalidDuration
    | NotEnoughData(hoursAvailable: real)
    | NoPeriod
    | CheapestPeriod(period: Period, tier: Tier, startsIn: StartsIn, startsInLine: string)

  /** The tier of a recorded period under the configuration's limits. */
  function TierOf(c: Config, p: Period): (t: Tier)
    ensures t == PriceNegative <==> p.averagePrice <= 0.0
    ensures t == PriceHigh <==>
              p.averagePrice > 0.0 && Limit(c, "highlimit", Multiplier(c)).Some?
              && p.averagePrice > Limit(c, "highlimit", Multiplier(c)).value
    ensures t == PriceMedium <==>
              p.averagePrice > 0.0
              && !(Limit(c, "highlimit", Multiplier(c)).Some? && p.averagePrice > Limit(c, "highlimit", Multiplier(c)).value)
              && Limit(c, "mediumlimit", Multiplier(c)).Some? && p.averagePrice > Limit(c, "mediumlimit", Multiplier(c)).value
  {
    var m := Multiplier(c);
    Classify(p.averagePrice, Limit(c, "lowlimit", m), Limit(c, "mediumlimit", m), Limit(c, "highlimit", m))
  }

  /** The tier stated on the configured numbers themselves: each limit is
      the configured value times the multiplier the update uses. */
  lemma TierOfScaledLimits(c: Config, p: Period)
    ensures TierOf(c, p) == PriceHigh <==>
              p.averagePrice > 0.0 && Get(c, "highlimit").Num?
              && p.averagePrice > Get(c, "highlimit").x * Multiplier(c)
    ensures TierOf(c, p) == PriceMedium <==>
              p.averagePrice > 0.0
              && !(Get(c, "highlimit").Num? && p.averagePrice > Get(c, "highlimit").x * Multiplier(c))
              && Get(c, "mediumlimit").Num? && p.averagePrice > Get(c, "mediumlimit").x * Multiplier(c)
    ensures TierOf(c, p) == PriceLow <==>
              p.averagePrice > 0.0
              && !(Get(c, "highlimit").Num? && p.averagePrice > Get(c, "highlimit").x * Multiplier(c))
              && !(Get(c, "mediumlimit").Num? && p.averagePrice > Get(c, "mediumlimit").x * Multiplier(c))
  {
  }

  /** The view for an accepted slot count `n` over the merged series, stated
      without the search loop: the cheapest qualifying window is described,
      not computed. */
  ghost predicate ExplainsSearch(c: Config, rates: seq<Rate>, n: nat, now: int, v: View) {
    var ceiling := MaxPrice(c);
    var m := Multiplier(c);
    if |rates| < n then v == NotEnoughData(|rates| as real * 0.5)
    else if forall k: nat :: !Qualifies(rates, n, ceiling, m, now, k) then v == NoPeriod
    else
      && v.CheapestPeriod?
      && (exists b: nat :: IsCheapestWindow(rates, n, ceiling, m, now, b) && v.period == PeriodAt(rates, n, m, b))
      && Decorated(c, now, v)
  }

  /** A shown period carries the tier of its price and the countdown, and the
      countdown line, for its start. */
  predicate Decorated(c: Config, now: int, v: View)
    requires v.CheapestPeriod?
  {
    && v.tier == TierOf(c, v.period)
    && v.startsIn == TimeUntilStart(v.period.start - now)
    && v.startsInLine == Phrase(v.startsIn)
  }

  /** The view a recomputation at `now` must produce. */
  ghost predicate Explains(c: Config, current: Option<seq<Rate>>, future: Option<seq<Rate>>, now: int, v: View) {
    match NumSlots(DurationHours(c))
    case None => v == InvalidDuration
    case Some(n) => ExplainsSearch(c, MergeRates(current, future, now), n, now, v)
  }

  /** The view of a chosen period: its tier, its countdown and the
      countdown line. */
  function Decorate(c: Config, now: int, p: Period): (v: View)
    ensures v.CheapestPeriod? && v.period == p && Decorated(c, now, v)
  {
    CheapestPeriod(p, TierOf(c, p), TimeUntilStart(p.start - now), Phrase(TimeUntilStart(p.start - now)))
  }

  /** The search and what is shown for its outcome, once the duration has
      been accepted as `n` slots. */
  method ShowSearch(c: Config, rates: seq<Rate>, n: nat, now: int) returns (v: View)
    requires n > 0
    ensures ExplainsSearch(c, rates, n, now, v)
  {
    var outcome := Evaluate(rates, n, MaxPrice(c), Multiplier(c), now);
    match outcome
    case InsufficientData(hours) =>
      v := NotEnoughData(hours);
    case NoSuitablePeriod =>
      v := NoPeriod;
    case Cheapest(p) =>
      v := Decorate(c, now, p);
  }

  /** The card's `hass` setter. `current` and `future` are the `rates`
      attributes of the two configured entities (`None` when the entity, its
      attributes or its rates are missing); `view` is `None` when the throttle
      skips the update and nothing is re-rendered. */
  method Hass(card: Throttle, c: Config, current: Option<seq<Rate>>, future: Option<seq<Rate>>, now: int)
    returns (card': Throttle, view: Option<View>)
    ensures view.Some? <==> Step(card, now, RefreshIntervalMs(c)).refresh
    ensures card' == Step(card, now, RefreshIntervalMs(c)).state
    ensures view.Some? ==> Explains(c, current, future, now, view.value)
  {
    var tick := Step(card, now, RefreshIntervalMs(c));
    card' := tick.state;
    if !tick.refresh {
      return card', None;
    }
    match NumSlots(DurationHours(c))
    case None =>
      view := Some(InvalidDuration);
    case Some(n) =>
      var v := ShowSearch(c, MergeRates(current, future, now), n, now);
      view := Some(v);
  }

  /** Only one view fits a given search. */
  lemma ExplainsSearchIsDeterministic(c: Config, rates: seq<Rate>, n: nat, now: int, v1: View, v2: View)
    requires ExplainsSearch(c, rates, n, now, v1)
    requires ExplainsSearch(c, rates, n, now, v2)
    ensures v1 == v2
  {
    var ceiling := MaxPrice(c);
    var m := Multiplier(c);
    if |rates| >= n && !(forall k: nat :: !Qualifies(rates, n, ceiling, m, now, k)) {
      var b1: nat :| IsCheapestWindow(rates, n, ceiling, m, now, b1) && v1.period == PeriodAt(rates, n, m, b1);
      var b2: nat :| IsCheapestWindow(rates, n, ceiling, m, now, b2) && v2.period == PeriodAt(rates, n, m, b2);
      CheapestWindowUnique(rates, n, ceiling, m, now, b1, b2);
      DecoratedDetermined(c, now, v1, v2);
    }
  }

  /** Two shown periods over the same window carry the same decorations. */
  lemma DecoratedDetermined(c: Config, now: int, v1: View, v2: View)
    requires v1.CheapestPeriod? && v2.CheapestPeriod? && v1.period == v2.period
    requires Decorated(c, now, v1) && Decorated(c, now, v2)
    ensures v1 == v2
  {
    assert v1.tier == v2.tier;
    assert v1.startsIn == v2.startsIn;
    assert v1.startsInLine == v2.startsInLine;
  }

  /** A recomputation's view is determined by the configuration, the two
      rate series and the instant: recomputing with the same inputs shows
      the same thing. */
  lemma ExplainsIsDeterministic(c: Config, current: Option<seq<Rate>>, future: Option<seq<Rate>>, now: int, v1: View, v2: View)
    requires Explains(c, current, future, now, v1)
    requires Explains(c, current, future, now, v2)
    ensures v1 == v2
  {
    match NumSlots(DurationHours(c))
    case None =>
    case Some(n) =>
      ExplainsSearchIsDeterministic(c, MergeRates(current, future, now), n, now, v1, v2);
  }

  /** When every slot of both series starts no later than it ends, so does
      the period the card shows: merging sorts the series by start, so the
      window's first slot starts no later than its last slot starts. */
  lemma ShownPeriodStartsBeforeEnd(c: Config, current: Option<seq<Rate>>, future: Option<seq<Rate>>, now: int, v: View)
    requires WellFormed(Slots(current)) && WellFormed(Slots(future))
    requires Explains(c, current, future, now, v)
    requires v.CheapestPeriod?
    ensures v.period.start <= v.period.end
  {
    var rates := MergeRates(current, future, now);
    MergeWellFormed(current, future, now);
    match NumSlots(DurationHours(c))
    case None =>
      assert false;
    case Some(n) =>
      var b: nat :| IsCheapestWindow(rates, n, MaxPrice(c), Multiplier(c), now, b)
                    && v.period == PeriodAt(rates, n, Multiplier(c), b);
      ChosenStartsBeforeEnd(rates, n, MaxPrice(c), Multiplier(c), now, b);
  }

  /** A duration written with an empty value is not undefined, so the
      configuration is accepted; it does not parse as a number, so every
      recomputation shows the invalid-duration notice. */
  lemma NullDurationAcceptedThenInvalid(user: Config, current: Option<seq<Rate>>, future: Option<seq<Rate>>, now: int, v: View)
    requires Truthy(Get(user, "currentEntity")) || Truthy(Get(user, "futureEntity"))
    requires Get(user, "durationHours") == Null
    ensures SetConfig(user).Success?
    ensures Explains(SetConfig(user).value, current, future, now, v) <==> v == InvalidDuration
  {
  }

  /** Under the default configuration the tier limits are 5, 20 and 30 times
      the multiplier 100, so every positive scaled price up to 2000 shows in
      the low tier. */
  lemma DefaultLimitsScaled(user: Config, p: Period)
    requires SetConfig(user).Success?
    requires user.Keys <= {"currentEntity", "futureEntity", "durationHours"}
    requires 0.0 < p.averagePrice <= 2000.0
    ensures TierOf(SetConfig(user).value, p) == PriceLow
  {
    DefaultsWhenUnset(user);
  }
}
