/** The integer arithmetic the windowed fetch loops share: min, max and math.ceil(a / b). */
module Windows {
  import opened Wrappers

  function Min(a: int, b: int): (m: int)
    ensures m <= a && m <= b && (m == a || m == b)
  {
    if a < b then a else b
  }

  function Max(a: int, b: int): (m: int)
    ensures m >= a && m >= b && (m == a || m == b)
  {
    if a > b then a else b
  }

  /** Python's a // b (the quotient rounded towards minus infinity). */
  function FloorDiv(a: int, b: int): (q: int)
    requires b != 0
    ensures b > 0 ==> q * b <= a < q * b + b
    ensures b < 0 ==> q * b >= a > q * b + b
  {
    if b > 0 then a / b else (-a) / (-b)
  }

  /** math.ceil(a / b): the least integer not below the quotient. */
  function CeilDiv(a: int, b: int): (q: int)
    requires b != 0
    ensures b > 0 ==> (q - 1) * b < a <= q * b
    ensures b < 0 ==> (q - 1) * b > a >= q * b
  {
    -FloorDiv(-a, b)
  }

  /** range(math.ceil(days / days_max)), or the ZeroDivisionError when days_max is 0. */
  function Periods(days: int, daysMax: int): (r: Result<int>)
    ensures r.Err? <==> daysMax == 0
    ensures r.Err? ==> r.error == ZeroDivision
    ensures daysMax > 0 ==> r.Ok? && (r.value - 1) * daysMax < days <= r.value * daysMax
  {
    if daysMax == 0 then Err(ZeroDivision) else Ok(CeilDiv(days, daysMax))
  }

  /** A whole number of windows of days_max covers the horizon: ceil(d / m) * m >= d, and
      one window fewer would not; with d > 0 there is at least one window. */
  lemma PeriodsCover(days: int, daysMax: int)
    requires daysMax > 0 && days > 0
    ensures Periods(days, daysMax).value >= 1
    ensures Periods(days, daysMax).value * daysMax >= days
  {
  }

  /** A horizon within the limit is a single window. */
  lemma SingleWindow(days: int, daysMax: int)
    requires 0 < days <= daysMax
    ensures Periods(days, daysMax) == Ok(1)
  {
    var q := Periods(days, daysMax).value;
    if q >= 2 {
      MulLe(1, q - 1, daysMax);
      assert false;
    } else if q <= 0 {
      MulLe(q, 0, daysMax);
      assert false;
    }
  }

  lemma MulLe(a: int, b: int, c: int)
    requires a <= b && c > 0
    ensures a * c <= b * c
  {
  }
}
