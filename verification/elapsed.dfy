/** The "N units ago" wording shared by the session and passkey screens. Times are
    milliseconds; `Math.floor` of a quotient by a positive constant is Dafny's
    division, which rounds down for every sign of the dividend. */
module Elapsed {
  const Minute: int := 60000
  const Hour: int := 3600000
  const Day: int := 86400000

  /** The unit word, with an `s` exactly when the count is above one. */
  function UnitWord(count: int, unit: string): (r: string)
    ensures |r| == |unit| + (if count > 1 then 1 else 0) && r[..|unit|] == unit
    ensures count > 1 ==> r[|unit|] == 's'
  {
    if count > 1 then unit + "s" else unit
  }

  datatype Unit = Minutes | Hours | Days

  function UnitName(u: Unit): string {
    match u
    case Minutes => "minute"
    case Hours => "hour"
    case Days => "day"
  }

  /** `${count} ${unit}${count > 1 ? 's' : ''} ago`, kept as its parts. */
  datatype Ago = Ago(count: int, unit: Unit)

  /** The word shown after the count. */
  function Word(a: Ago): string {
    UnitWord(a.count, UnitName(a.unit))
  }

  /** The whole minutes, hours and days in `diff` are the quotients rounded down:
      a difference lies in `[n * unit, (n + 1) * unit)` exactly when its floor is n. */
  lemma FloorBounds(diff: int, unit: int, n: int)
    requires unit > 0
    ensures diff / unit == n <==> n * unit <= diff < (n + 1) * unit
  {
    FloorBelow(diff, unit, n);
    FloorBelow(diff, unit, n + 1);
  }

  /** `diff / unit < k` is the same as `diff < k * unit`. */
  lemma FloorBelow(diff: int, unit: int, k: int)
    requires unit > 0
    ensures diff / unit < k <==> diff < k * unit
  {
    var q := diff / unit;
    QuotientBounds(diff, unit);
    if q < k {
      MulMonotone(q + 1, k, unit);
    } else {
      MulMonotone(k, q, unit);
    }
  }

  /** Rounding down keeps the order of the dividends. */
  lemma DivMonotone(d: int, e: int, unit: int)
    requires d <= e && unit > 0
    ensures d / unit <= e / unit
  {
    var q, p := d / unit, e / unit;
    assert q * unit <= d < (q + 1) * unit;
    assert p * unit <= e < (p + 1) * unit;
  }

  lemma QuotientBounds(diff: int, unit: int)
    requires unit > 0
    ensures diff / unit * unit <= diff < (diff / unit + 1) * unit
  {
    assert diff == diff / unit * unit + diff % unit;
    assert (diff / unit + 1) * unit == diff / unit * unit + unit;
  }

  lemma MulMonotone(a: int, b: int, unit: int)
    requires a <= b && unit > 0
    ensures a * unit <= b * unit
  {
    assert b * unit - a * unit == (b - a) * unit;
  }
}
