/** Building the single rate series the search runs over: stale current
    slots are dropped, the future series is appended, and the result is
    sorted by start time. Overlapping slots from the two sources are kept. */
module Merge {
  import opened Wrappers
  import opened Rates

  /** The slots of `rates` whose end is strictly after `now`, in their
      original order. */
  function KeepLive(rates: seq<Rate>, now: int): (r: seq<Rate>)
    ensures forall x :: multiset(r)[x] == if x.end > now then multiset(rates)[x] else 0
    ensures forall k :: 0 <= k < |r| ==> r[k].end > now
    ensures |r| <= |rates|
  {
    if |rates| == 0 then []
    else
      assert rates == [rates[0]] + rates[1..];
      (if rates[0].end > now then [rates[0]] else []) + KeepLive(rates[1..], now)
  }

  /** Inserts `x` into `s` after every slot whose start is not later than
      `x.start`, so that slots with equal starts keep their arrival order. */
  function Insert(x: Rate, s: seq<Rate>): (r: seq<Rate>)
    requires SortedByStart(s)
    ensures SortedByStart(r)
    ensures multiset(r) == multiset(s) + multiset{x}
    ensures forall k :: 0 <= k < |r| ==> r[k] == x || r[k] in s
  {
    if |s| == 0 then [x]
    else if x.start < s[0].start then
      ConsSorted(x, s);
      FrontMembers(x, s);
      [x] + s
    else
      var tail := s[1..];
      TailSorted(s);
      var rest := Insert(x, tail);
      ConsSorted(s[0], rest);
      ConsMembers(s[0], x, tail, rest);
      assert s == [s[0]] + tail;
      assert multiset(s) == multiset{s[0]} + multiset(tail);
      assert multiset([s[0]] + rest) == multiset{s[0]} + multiset(rest);
      [s[0]] + rest
  }

  /** Every slot after the new front one comes from the old series. */
  lemma FrontMembers(x: Rate, s: seq<Rate>)
    ensures forall k :: 0 <= k < |[x] + s| ==> ([x] + s)[k] == x || ([x] + s)[k] in s
  {
    forall k | 0 < k < |[x] + s|
      ensures ([x] + s)[k] in s
    {
      assert ([x] + s)[k] == s[k - 1];
    }
  }

  /** Putting the same slot in front of both series keeps every slot of the
      first either `x` or a slot of the second. */
  lemma ConsMembers(h: Rate, x: Rate, tail: seq<Rate>, rest: seq<Rate>)
    requires forall k :: 0 <= k < |rest| ==> rest[k] == x || rest[k] in tail
    ensures forall k :: 0 <= k < |[h] + rest| ==> ([h] + rest)[k] == x || ([h] + rest)[k] in [h] + tail
  {
    forall k | 0 <= k < |[h] + rest|
      ensures ([h] + rest)[k] == x || ([h] + rest)[k] in [h] + tail
    {
      if k > 0 {
        assert ([h] + rest)[k] == rest[k - 1];
      }
    }
  }

  /** Dropping the first slot keeps a series sorted, and no remaining slot
      starts before the dropped one. */
  lemma TailSorted(s: seq<Rate>)
    requires SortedByStart(s) && |s| > 0
    ensures SortedByStart(s[1..])
    ensures forall y :: y in s[1..] ==> s[0].start <= y.start
  {
  }

  /** A slot that starts no later than every slot of a sorted series can
      go in front of it. */
  lemma ConsSorted(h: Rate, s: seq<Rate>)
    requires SortedByStart(s)
    requires forall k :: 0 <= k < |s| ==> h.start <= s[k].start
    ensures SortedByStart([h] + s)
  {
  }

  /** Stable insertion sort by start time. */
  function SortByStart(s: seq<Rate>): (r: seq<Rate>)
    ensures SortedByStart(r)
    ensures multiset(r) == multiset(s)
  {
    if |s| == 0 then []
    else
      assert s == s[..|s| - 1] + [s[|s| - 1]];
      Insert(s[|s| - 1], SortByStart(s[..|s| - 1]))
  }

  /** The slots a possibly missing `rates` attribute contributes. */
  function Slots(rates: Option<seq<Rate>>): seq<Rate> {
    rates.GetOr([])
  }

  /** The merged series: live current slots followed by all future slots,
      sorted ascending by start. A missing entity, attribute block or
      `rates` attribute contributes nothing. */
  function MergeRates(current: Option<seq<Rate>>, future: Option<seq<Rate>>, now: int): (r: seq<Rate>)
    ensures SortedByStart(r)
    ensures multiset(r) == multiset(KeepLive(Slots(current), now)) + multiset(Slots(future))
  {
    var live := match current
      case Some(cs) => KeepLive(cs, now)
      case None => [];
    SortByStart(live + Slots(future))
  }

  /** A slot occurs in the merged series exactly as often as it occurs live in
      the current series plus in the future series: nothing is lost, nothing
      stale is let in, and duplicates are not removed. */
  lemma MergeCounts(current: Option<seq<Rate>>, future: Option<seq<Rate>>, now: int, x: Rate)
    ensures multiset(MergeRates(current, future, now))[x]
         == (if x.end > now then multiset(Slots(current))[x] else 0) + multiset(Slots(future))[x]
  {
  }

  /** Membership in the merged series, stated on the two inputs. */
  lemma MergeMembership(current: Option<seq<Rate>>, future: Option<seq<Rate>>, now: int, x: Rate)
    ensures x in MergeRates(current, future, now)
        <==> (x in Slots(current) && x.end > now) || x in Slots(future)
  {
    var r := MergeRates(current, future, now);
    MergeCounts(current, future, now, x);
    assert x in r <==> multiset(r)[x] > 0;
    assert x in Slots(current) <==> multiset(Slots(current))[x] > 0;
    assert x in Slots(future) <==> multiset(Slots(future))[x] > 0;
  }

  /** Merging keeps every slot as it is, so slots that start no later than
      they end still do so after the merge. */
  lemma MergeWellFormed(current: Option<seq<Rate>>, future: Option<seq<Rate>>, now: int)
    requires WellFormed(Slots(current)) && WellFormed(Slots(future))
    ensures WellFormed(MergeRates(current, future, now))
  {
    var r := MergeRates(current, future, now);
    forall k | 0 <= k < |r|
      ensures r[k].start <= r[k].end
    {
      MergeMembership(current, future, now, r[k]);
    }
  }

  /** The merged series is exactly as long as its two contributions together. */
  lemma MergeLength(current: Option<seq<Rate>>, future: Option<seq<Rate>>, now: int)
    ensures |MergeRates(current, future, now)|
         == |KeepLive(Slots(current), now)| + |Slots(future)|
  {
  }
}
