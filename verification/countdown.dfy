/** The "Starts in:" line: the time from now to the period's start, bucketed
    into nothing, "Now", or whole hours and minutes. */
module Countdown {

  const MillisPerMinute := 60000

  datatype StartsIn = NotShown | Now | HoursMinutes(hours: nat, minutes: nat)

  /** Buckets the milliseconds until the start. Hours and minutes count the
      whole minutes that have not yet elapsed, rounded down. */
  function TimeUntilStart(ms: int): (r: StartsIn)
    ensures r.NotShown? <==> ms <= 0
    ensures r.Now? <==> 0 < ms <= MillisPerMinute
    ensures r.HoursMinutes? ==> r.minutes < 60
    ensures r.HoursMinutes? ==>
              var total := r.hours * 60 + r.minutes;
              total * MillisPerMinute <= ms < (total + 1) * MillisPerMinute
  {
    if ms <= 0 then NotShown
    else if ms <= MillisPerMinute then Now
    else
      var totalMinutes := ms / MillisPerMinute;
      HoursMinutes(totalMinutes / 60, totalMinutes % 60)
  }

  /** An hours-and-minutes countdown always shows at least one minute. */
  lemma CountdownNotZero(ms: int)
    requires TimeUntilStart(ms).HoursMinutes?
    ensures TimeUntilStart(ms).hours > 0 || TimeUntilStart(ms).minutes > 0
  {
  }

  /** The decimal digit for `d`. */
  function DigitChar(d: nat): char
    requires d < 10
  {
    "0123456789"[d]
  }

  predicate IsDigit(c: char) {
    '0' <= c <= '9'
  }

  /** `n` written in decimal, as a template literal prints a whole number. */
  function Decimal(n: nat): (s: string)
    ensures |s| >= 1
    ensures forall k :: 0 <= k < |s| ==> IsDigit(s[k])
    ensures n > 0 ==> s[0] != '0'
  {
    if n < 10 then [DigitChar(n)] else Decimal(n / 10) + [DigitChar(n % 10)]
  }

  /** Reads a string of decimal digits back as a number. */
  function DecimalValue(s: string): nat
    requires forall k :: 0 <= k < |s| ==> IsDigit(s[k])
  {
    if |s| == 0 then 0
    else
      assert IsDigit(s[|s| - 1]);
      DecimalValue(s[..|s| - 1]) * 10 + (s[|s| - 1] as int - '0' as int)
  }

  /** Reading the printed number back gives the number. */
  lemma {:induction false} DecimalRoundTrip(n: nat)
    ensures DecimalValue(Decimal(n)) == n
  {
    if n >= 10 {
      var s := Decimal(n);
      assert s[..|s| - 1] == Decimal(n / 10);
      DecimalRoundTrip(n / 10);
    }
  }

  /** "<count> <unit>", with an "s" when the count is above one. */
  function Quantity(count: nat, unit: string): (r: string)
    ensures |r| == |Decimal(count)| + 1 + |unit| + (if count > 1 then 1 else 0)
    ensures r[..|Decimal(count)|] == Decimal(count)
    ensures DecimalValue(r[..|Decimal(count)|]) == count
    ensures r[|Decimal(count)|..|Decimal(count)| + 1 + |unit|] == " " + unit
    ensures count > 1 ==> r[|r| - 1] == 's'
  {
    DecimalRoundTrip(count);
    Decimal(count) + " " + unit + (if count > 1 then "s" else "")
  }

  /** The text of the line; empty when the period has already started. A
      zero minutes part after whole hours is left out. */
  function Phrase(t: StartsIn): (s: string)
    ensures s == "" <==> t.NotShown?
    ensures t.Now? ==> s == "Starts in: Now"
    ensures !t.NotShown? ==> |s| > 11 && s[..11] == "Starts in: "
    ensures t.HoursMinutes? && t.hours > 0 && t.minutes == 0 ==>
              s == "Starts in: " + Quantity(t.hours, "hour")
    ensures t.HoursMinutes? && t.hours > 0 && t.minutes > 0 ==>
              s == "Starts in: " + Quantity(t.hours, "hour") + " " + Quantity(t.minutes, "minute")
    ensures t.HoursMinutes? && t.hours == 0 ==>
              s == "Starts in: " + Quantity(t.minutes, "minute")
  {
    match t
    case NotShown => ""
    case Now => "Starts in: Now"
    case HoursMinutes(h, m) =>
      var body :=
        if h > 0 then Quantity(h, "hour") + (if m > 0 then " " + Quantity(m, "minute") else "")
        else Quantity(m, "minute");
      assert |body| > 0;
      assert h > 0 && m == 0 ==> body == Quantity(h, "hour");
      assert h > 0 && m > 0 ==> body == Quantity(h, "hour") + " " + Quantity(m, "minute");
      var line := "Starts in: " + body;
      assert line[..11] == "Starts in: ";
      line
  }
}
