/** The requested period length: `durationHours` must be a positive multiple
    of half an hour, and then becomes a count of half-hour slots. */
module Duration {
  import opened Wrappers

  /** JavaScript's conversion toward zero (the quotient `%` uses). */
  function Trunc(x: real): int {
    if x >= 0.0 then x.Floor else -((-x).Floor)
  }

  /** JavaScript's `%` on numbers: the remainder keeps the dividend's sign. */
  function JsRemainder(x: real, y: real): (r: real)
    requires y != 0.0
    ensures x >= 0.0 && y > 0.0 ==> 0.0 <= r < y
    ensures x < 0.0 && y > 0.0 ==> -y < r <= 0.0
    ensures IsWhole((x - r) / y)
  {
    var q := x / y;
    var t := Trunc(q) as real;
    var r := x - y * t;
    assert IsWhole(t);
    MultipleOf(y, t);
    assert x - r == y * t;
    if y > 0.0 then
      DivSign(x, y);
      assert x == y * q;
      if x >= 0.0 then
        assert t <= q < t + 1.0;
        RemainderBetweenLower(x, y, q, t);
        r
      else
        assert t - 1.0 < q <= t;
        RemainderBetweenUpper(x, y, q, t);
        r
    else
      r
  }

  /** A whole multiple of `y`, divided by `y`, is whole. */
  lemma MultipleOf(y: real, t: real)
    requires y != 0.0 && IsWhole(t)
    ensures IsWhole((y * t) / y)
  {
    assert (y * t) / y == t;
  }

  /** Dividing by a positive number keeps the sign. */
  lemma DivSign(x: real, y: real)
    requires y > 0.0
    ensures x == y * (x / y)
    ensures x >= 0.0 <==> x / y >= 0.0
  {
    var q := x / y;
    if q < 0.0 {
      assert y * -q > 0.0;
    } else {
      assert y * q >= 0.0;
    }
  }

  /** When `x / y` lies in `[t, t + 1)`, the remainder `x - y * t` lies in
      `[0, y)`. */
  lemma RemainderBetweenLower(x: real, y: real, q: real, t: real)
    requires y > 0.0 && x == y * q
    requires t <= q < t + 1.0
    ensures 0.0 <= x - y * t < y
  {
    var d := q - t;
    assert 0.0 <= d < 1.0;
    assert 0.0 <= y * d < y;
    assert x - y * t == y * d;
  }

  /** When `x / y` lies in `(t - 1, t]`, the remainder `x - y * t` lies in
      `(-y, 0]`. */
  lemma RemainderBetweenUpper(x: real, y: real, q: real, t: real)
    requires y > 0.0 && x == y * q
    requires t - 1.0 < q <= t
    ensures -y < x - y * t <= 0.0
  {
    var d := t - q;
    assert 0.0 <= d < 1.0;
    assert 0.0 <= y * d < y;
    assert x - y * t == -(y * d);
  }

  /** `x` is an integer. */
  predicate IsWhole(x: real) {
    x.Floor as real == x
  }

  /** The number of half-hour slots for a parsed `durationHours` (`None` is
      NaN), or `None` when the card rejects the value: NaN, not positive, or
      with a non-zero remainder modulo 0.5. */
  function NumSlots(durationHours: Option<real>): (n: Option<nat>)
    ensures n.Some? <==> durationHours.Some? && durationHours.value > 0.0 && IsWhole(2.0 * durationHours.value)
    ensures n.Some? ==> n.value > 0 && n.value as real * 0.5 == durationHours.value
  {
    match durationHours
    case None => None
    case Some(d) =>
      if d <= 0.0 || JsRemainder(d, 0.5) != 0.0 then None
      else
        assert d / 0.5 == 2.0 * d;
        Some((d / 0.5).Floor)
  }

  /** Every positive slot count is reachable: half that many hours gives it. */
  lemma EverySlotCountReachable(n: nat)
    requires n > 0
    ensures NumSlots(Some(n as real * 0.5)) == Some(n)
  {
    var d := n as real * 0.5;
    assert 2.0 * d == n as real;
  }

  /** Durations strictly between two consecutive half hours are rejected. */
  lemma OffGridRejected(k: nat, d: real)
    requires k as real * 0.5 < d < (k + 1) as real * 0.5
    ensures NumSlots(Some(d)) == None
  {
    var f := (2.0 * d).Floor;
    assert f as real <= 2.0 * d < f as real + 1.0;
    assert f == k;
    assert !IsWhole(2.0 * d);
  }
}
