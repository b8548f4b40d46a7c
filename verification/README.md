# Octopus cheapest-period card: verified model of the period finder

The card is a Home Assistant dashboard widget. The host gives it two entities
that carry half-hour Octopus Energy tariff slots: a "current" series and a
"future" series. On every update the card does five things:

- throttles itself to one recomputation per refresh interval;
- checks that `durationHours` is a positive multiple of half an hour;
- merges the two series;
- finds the cheapest run of `durationHours / 0.5` consecutive slots that has
  not already ended and, when a ceiling is set, whose scaled price stays at or
  under `maxPrice`;
- shows that period with a price tier and a "Starts in:" countdown.

`setConfig` rejects configurations that name no rates entity or no duration,
and lays defaults under the rest.

This project models that decision procedure as pure Dafny functions over
immutable data. The search loop is a method whose invariants tie it to a
declarative statement of its answer: the qualifying window with the least
unscaled average, and the earliest one on ties. Timestamps are integer
milliseconds. Prices are exact reals. The clock, the entity lookup and the DOM
are replaced by parameters.

Modules, one per concern of the card:

- `Rates`: the slot record, ordering, and left-to-right price sums.
- `Merge`: dropping stale current slots, concatenating, and a stable insertion
  sort by start.
- `Duration`: validating `durationHours` with JavaScript's `%`, and the slot count.
- `Search`: the window search, its specification, and properties of the answer.
- `Tier`: the price-tier if-chain.
- `Countdown`: the time-until-start buckets and the text of the countdown line.
- `Throttle`: the refresh throttle.
- `CardConfig`: `setConfig`, its defaults, and how the update step reads numbers
  from the configuration.
- `Card`: one whole `hass` update.
- `Scenarios`: worked cases of the search.

Notes on the code as modelled:

- In the code a window qualifies when its last slot has not ended before now
  (line 112). The comment at line 111 speaks of periods that are entirely in
  the future or start now. In fact a window whose first slot has already
  started can win, because only its last slot is checked. Its countdown is then
  empty, because the code shows nothing for a non-positive time until start.
  The model follows the code.
- The search compares candidates by their unscaled average, but the ceiling is
  applied to the scaled average. With a positive multiplier the two orders
  agree (`Search.PositiveMultiplierKeepsOrder`). With a negative one they do
  not (`Search.NegativeMultiplierInvertsOrder`).
- The update step falls back to a multiplier of 1. That only happens when the
  value is NaN or zero, because `setConfig` supplies a default of 100.
- The tier limits are multiplied by the multiplier. Under the defaults the
  limits are therefore 500, 2000 and 3000, against a price shown in p/kWh
  (`Card.DefaultLimitsScaled`). The model keeps this as written.
- A key written in the dashboard YAML with an empty value or `~` holds
  null, which is not undefined. A null `durationHours` therefore passes
  `setConfig` (line 250), but it parses as NaN, so every update shows the
  invalid-duration notice (`Card.NullDurationAcceptedThenInvalid`).
- The code never checks that a slot starts no later than it ends. When the
  host's slots do, the shown period does too, because the merge sorts by
  start (`Card.ShownPeriodStartsBeforeEnd`).
- The `lowlimit` branch of the tier chain gives the same tier as the final
  else branch, so the low limit never matters (`Tier.LowLimitIrrelevant`).

## Model

| member | source | states |
|---|---|---|
| Merge.KeepLive | octopus-cheapest-period-card.js:71-76 | keeps each current slot exactly as often as it occurs when its end is after now and drops it otherwise; every kept slot ends after now |
| Merge.Insert | octopus-cheapest-period-card.js:83 | placing one slot into a start-sorted series keeps it sorted and adds exactly that slot |
| Merge.SortByStart | octopus-cheapest-period-card.js:83 | the sorted series is ordered by start and is a permutation of its input |
| Merge.MergeRates | octopus-cheapest-period-card.js:69-83 | the merged series is sorted by start and, as a multiset, is the live current slots plus all future slots; a missing series contributes nothing |
| Merge.MergeCounts | octopus-cheapest-period-card.js:69-83 | each slot occurs in the merged series as often as it occurs live in the current series plus in the future series, so duplicates are kept |
| Merge.MergeMembership | octopus-cheapest-period-card.js:69-83 | a slot is in the merged series iff it is a current slot ending after now or a future slot |
| Merge.MergeWellFormed | octopus-cheapest-period-card.js:69-83 | when every slot of both series starts no later than it ends, so does every slot of the merged series |
| Merge.MergeLength | octopus-cheapest-period-card.js:69-83 | the merged series is exactly as long as the live current slots and the future slots together |
| Duration.NumSlots | octopus-cheapest-period-card.js:61-64 | a parsed duration is accepted iff it is a number, positive, and twice it is whole; the accepted slot count is positive and is exactly twice the duration |
| Duration.JsRemainder | octopus-cheapest-period-card.js:61 | JavaScript's `%` by a positive divisor: the remainder of a non-negative dividend lies in [0, divisor), that of a negative dividend in (-divisor, 0], and the dividend minus the remainder is a whole multiple of the divisor |
| Duration.EverySlotCountReachable | octopus-cheapest-period-card.js:85 | every positive slot count comes from the duration of half that many hours |
| Duration.OffGridRejected | octopus-cheapest-period-card.js:61 | a duration strictly between two consecutive half hours is rejected |
| Search.WindowSum | octopus-cheapest-period-card.js:116-125 | the inner loop's sum is the sum of the window's prices, and its out-of-bounds branch is unreachable |
| Search.FindCheapestWindow | octopus-cheapest-period-card.js:102-144 | no start is returned iff no window qualifies; a returned start qualifies, its average is the least among qualifying windows, and every earlier qualifying window is strictly dearer |
| Search.Evaluate | octopus-cheapest-period-card.js:88-144 | too little data is reported iff the series is shorter than the window, with half an hour per slot available; "none found" iff there is enough data and nothing qualifies; otherwise the period of the cheapest-earliest window with its scaled average |
| Search.CheapestWindowUnique | octopus-cheapest-period-card.js:136-143 | at most one start is the cheapest-earliest window, so ties go to the earliest start |
| Search.CheapestPeriodBounds | octopus-cheapest-period-card.js:106-142 | the chosen window lies inside the series, its period ends no earlier than now, and with a ceiling its stored scaled average is at most the ceiling |
| Search.ChosenStartsBeforeEnd | octopus-cheapest-period-card.js:138-140 | over a series sorted by start whose slots each start no later than they end, the recorded period starts no later than it ends |
| Search.PositiveMultiplierKeepsOrder | octopus-cheapest-period-card.js:127-141 | with a positive multiplier the chosen period's scaled average is at most that of every qualifying window |
| Search.NegativeMultiplierInvertsOrder | octopus-cheapest-period-card.js:127-141 | with multiplier -1 the unscaled choice can have a higher scaled price than another qualifying window |
| Tier.Classify | octopus-cheapest-period-card.js:202-212 | a price of zero or below is negative; otherwise high iff above a defined high limit, medium iff not high and above a defined medium limit, low in every remaining case |
| Tier.LowLimitIrrelevant | octopus-cheapest-period-card.js:208-211 | the low limit never changes the tier |
| Tier.ClassifyMonotone | octopus-cheapest-period-card.js:202-212 | whatever the three limits, a higher price never gets a lower tier; a medium limit above the high limit only leaves the medium tier unreachable |
| Countdown.TimeUntilStart | octopus-cheapest-period-card.js:153-163 | nothing is shown iff the start is not in the future; "Now" iff it is at most one minute away; otherwise hours and minutes with minutes below 60, giving the whole minutes remaining, rounded down |
| Countdown.CountdownNotZero | octopus-cheapest-period-card.js:157-172 | an hours-and-minutes countdown always has a non-zero part |
| Countdown.Decimal | octopus-cheapest-period-card.js:166-171 | a count prints as a non-empty string of digits with no leading zero |
| Countdown.Quantity | octopus-cheapest-period-card.js:166-171 | a count and unit print as the count's digits, which read back as the count, then a space and the unit, then an "s" exactly when the count is above one |
| Countdown.DecimalRoundTrip | octopus-cheapest-period-card.js:166-171 | reading the printed count back gives the count |
| Countdown.Phrase | octopus-cheapest-period-card.js:165-174 | the line is empty iff nothing is shown, and otherwise starts with "Starts in: "; it reads "Starts in: Now" within the last minute; otherwise it gives the hours alone when the minutes are zero, hours then minutes when both are non-zero, and minutes alone when there are no whole hours |
| Throttle.Step | octopus-cheapest-period-card.js:37-47 | an update recomputes iff the interval is a number and at least that much time has passed, and then records now; otherwise the state is unchanged |
| Throttle.RefreshesAreSpaced | octopus-cheapest-period-card.js:41-47 | after a recomputation, the next one happens exactly when a full interval has passed |
| Throttle.FirstUpdateRefreshes | octopus-cheapest-period-card.js:37-44 | a fresh card recomputes on its first update once the clock has reached the interval |
| Throttle.SkippedUpdateIdempotent | octopus-cheapest-period-card.js:44-46 | an update the throttle skips gives the same outcome when repeated at the same instant |
| CardConfig.SetConfig | octopus-cheapest-period-card.js:246-273 | rejected for a missing entity iff neither entity is truthy; rejected for a missing duration iff an entity is given but the duration is undefined; otherwise every user key keeps its value and every other default is kept |
| CardConfig.Truthy | octopus-cheapest-period-card.js:247 | a value is falsy exactly when it is undefined, null, the number 0, the empty text or `false` |
| CardConfig.ToNumber | octopus-cheapest-period-card.js:42 | numeric conversion keeps a number, turns `true` and `false` into 1 and 0 and null into 0, and gives NaN for undefined and text |
| CardConfig.DurationHours | octopus-cheapest-period-card.js:52 | the parsed duration is a number iff the configured value is a number, and then that number |
| CardConfig.ParseFloat | octopus-cheapest-period-card.js:52 | a value parses to a number iff it is a number, and then to that number |
| CardConfig.Multiplier | octopus-cheapest-period-card.js:54 | the multiplier is never zero; a non-zero number is used as given, and anything else falls back to 1 |
| CardConfig.RefreshIntervalMs | octopus-cheapest-period-card.js:42 | a falsy interval setting gives 60 000 ms; a non-zero number of seconds gives that many thousand milliseconds; `true` gives 1000 ms; non-empty text gives NaN |
| CardConfig.MaxPrice | octopus-cheapest-period-card.js:53 | a ceiling applies iff the configured value is a number, and it is that number, unscaled |
| CardConfig.Limit | octopus-cheapest-period-card.js:197-199 | a tier limit applies iff the configured value is a number, and it is that number times the multiplier |
| CardConfig.DefaultsWhenUnset | octopus-cheapest-period-card.js:254-267 | with only the required keys set, the card uses multiplier 100, a one-minute interval, no ceiling, and limits 500, 2000 and 3000 |
| Card.ShowSearch | octopus-cheapest-period-card.js:88-212 | the view for an accepted duration is the one the declarative search description admits, with the tier, countdown and countdown line of the chosen period |
| Card.TierOf | octopus-cheapest-period-card.js:197-212 | a chosen period is in the negative tier iff its scaled price is at most 0; it is high iff positive and above the high limit the update reads; it is medium iff positive, not high, and above the medium limit the update reads |
| Card.TierOfScaledLimits | octopus-cheapest-period-card.js:197-212 | the same tiers stated on the configured numbers: high iff positive and above the configured high limit times the multiplier, medium iff positive, not high and above the configured medium limit times the multiplier, low in every other positive case |
| Card.Hass | octopus-cheapest-period-card.js:37-212 | an update re-renders iff the throttle lets it through and then records now; what it shows is an invalid-duration notice iff the duration is rejected, otherwise the declaratively described search result over the merged series |
| Card.ShownPeriodStartsBeforeEnd | octopus-cheapest-period-card.js:83-140 | when every slot of both series starts no later than it ends, the period the card shows starts no later than it ends |
| Card.NullDurationAcceptedThenInvalid | octopus-cheapest-period-card.js:250 | a duration written with an empty value (null) is accepted by `setConfig`, and every recomputation then shows the invalid-duration notice |
| Card.ExplainsSearchIsDeterministic | octopus-cheapest-period-card.js:102-144 | only one view fits a given search |
| Card.ExplainsIsDeterministic | octopus-cheapest-period-card.js:37-212 | recomputing with the same configuration, series and instant shows the same view |
| Card.DefaultLimitsScaled | octopus-cheapest-period-card.js:197-212 | under the default configuration, every positive scaled price up to 2000 is in the low tier |
| Scenarios.CheapestIsFirstHour | octopus-cheapest-period-card.js:102-144 | for slots priced 10, 10, 30 and 30 and a one-hour search, the first two slots win at an average of 10 |
| Scenarios.CeilingExcludesAll | octopus-cheapest-period-card.js:130-133 | for the same slots, a ceiling of 5 excludes every window |
| Scenarios.OneSlotIsHalfAnHour | octopus-cheapest-period-card.js:88-97 | one live slot searched for one hour reports insufficient data with 0.5 hours available |
| Scenarios.ElapsedWindowSkipped | octopus-cheapest-period-card.js:111-114 | once the second slot has ended, the first window is skipped and the second window wins |

## Left out

- DOM construction, the stylesheet and the `innerHTML` markup (lines 7-34, 215-228 and 243) are presentation. The model produces a `View` value instead.
- Locale date and time formatting (lines 178-192) calls the runtime's locale services. Because of that, `hour12` is not modelled.
- The no-period message templating (lines 57, 89-95 and 232-238) is left out. Its non-greedy regular expression is presentation only. The views carry the data the message reports, such as the hours available, but not its text.
- `toFixed(roundUnits)` rounding of the shown price and the `unitstr` suffix are presentation.
- `hass.states` lookup (lines 66-67) is replaced by two `Option<seq<Rate>>` parameters. `None` stands for a missing entity, attributes block or `rates` attribute.
- `customElements.define`, the `window.customCards` registration and `getCardSize` (lines 276-291) are host plumbing.
- The code reads the clock separately at lines 41, 73, 109 and 150. The model uses one instant `now` per update.
- Floating point is not modelled. Prices and durations are exact reals. A NaN from `parseFloat` becomes `None`. NaN slot prices and unparseable slot timestamps are not modelled. Timestamps are already integer milliseconds.
- CardConfig.ParseFloat: a numeric string such as `"1.5"` parses to a number in the code. The model reads every text value as NaN.
- CardConfig.RefreshIntervalMs: a non-empty text interval is multiplied by 1000 in the code through JavaScript's string-to-number conversion. The model reads it as NaN, which never lets an update through.
- CardConfig.MaxPrice: a NaN ceiling and an absent ceiling filter windows alike, so both are `None`. They differ only in the message templating, which is left out.
- Merge.SortByStart: the insertion sort is stable, like `Array.prototype.sort`. Only sortedness and permutation are proved, not stability.
- The lazily created card content and the `lastRefreshTimestamp` initialisation to 0 are folded into `Throttle.Initial`.
