/** Worked cases of the search over four half-hour slots priced 10, 10, 30
    and 30, searched for one hour (two slots) at the start of the first slot. */
module Scenarios {
  import opened Wrappers
  import opened Rates
  import opened Search
  import opened Merge
  import opened CardConfig
  import opened Card

  const HalfHour := 1800000

  /** An instant just after the second slot has ended. */
  const AfterSecondSlot := 2 * HalfHour + 1

  function FourSlots(): seq<Rate> {
    [ Rate(0, HalfHour, 10.0), Rate(HalfHour, 2 * HalfHour, 10.0),
      Rate(2 * HalfHour, 3 * HalfHour, 30.0), Rate(3 * HalfHour, 4 * HalfHour, 30.0) ]
  }

  lemma SlotSumPair(a: Rate, b: Rate)
    ensures SlotSum([a, b]) == a.valueIncVat + b.valueIncVat
  {
    assert [a, b][..1] == [a];
    assert [a][..0] == [];
    assert SlotSum([a]) == SlotSum([]) + a.valueIncVat;
    assert SlotSum([a, b]) == SlotSum([a]) + b.valueIncVat;
  }

  lemma FourSlotAverages()
    ensures WindowAverage(FourSlots(), 2, 0) == 10.0
    ensures WindowAverage(FourSlots(), 2, 1) == 20.0
    ensures WindowAverage(FourSlots(), 2, 2) == 30.0
  {
    var s := FourSlots();
    SlotSumPair(s[0], s[1]);
    SlotSumPair(s[1], s[2]);
    SlotSumPair(s[2], s[3]);
    assert s[0..2] == [s[0], s[1]];
    assert s[1..3] == [s[1], s[2]];
    assert s[2..4] == [s[2], s[3]];
  }

  /** Without a ceiling the first two slots win, at an average of 10. */
  lemma CheapestIsFirstHour()
    ensures IsCheapestWindow(FourSlots(), 2, None, 1.0, 0, 0)
    ensures PeriodAt(FourSlots(), 2, 1.0, 0) == Period(0, 2 * HalfHour, 10.0)
  {
    FourSlotAverages();
    assert forall k: nat :: Qualifies(FourSlots(), 2, None, 1.0, 0, k) ==> k <= 2;
  }

  /** With a ceiling of 5 no window qualifies, since every average is at
      least 10. */
  lemma CeilingExcludesAll()
    ensures forall k: nat :: !Qualifies(FourSlots(), 2, Some(5.0), 1.0, 0, k)
  {
    FourSlotAverages();
    forall k: nat
      ensures !Qualifies(FourSlots(), 2, Some(5.0), 1.0, 0, k)
    {
      if k <= 2 {
        assert WindowAverage(FourSlots(), 2, k) >= 10.0;
      }
    }
  }

  /** Once the second slot has ended, the window over it is no longer a
      candidate and the search moves to the later windows. */
  lemma ElapsedWindowSkipped()
    ensures !Qualifies(FourSlots(), 2, None, 1.0, AfterSecondSlot, 0)
    ensures IsCheapestWindow(FourSlots(), 2, None, 1.0, AfterSecondSlot, 1)
  {
  }

  /** One live slot searched for one hour (two slots) reports insufficient
      data with half an hour available. */
  lemma OneSlotIsHalfAnHour(c: Config, r: Rate, now: int, v: View)
    requires DurationHours(c) == Some(1.0)
    requires r.end > now
    requires Explains(c, Some([r]), None, now, v)
    ensures v == NotEnoughData(0.5)
  {
  }
}
