/** Signed 64-bit credit arithmetic: the penalty and the saturating and clamping helpers. */
module Credits {

  const MAX: int := 0x7FFF_FFFF_FFFF_FFFF
  const MIN: int := -0x8000_0000_0000_0000

  type Int64 = x: int | MIN <= x <= MAX

  function Min(a: int, b: int): int {
    if a < b then a else b
  }

  /** Two's complement wrap-around of an addition or subtraction. */
  function Wrap(x: int): (r: Int64)
    ensures MIN <= x <= MAX ==> r == x
  {
    (x - MIN) % 0x1_0000_0000_0000_0000 + MIN
  }

  lemma QuotientBound(a: int, b: int)
    requires b > 0
    ensures a > MAX / b <==> a * b > MAX
  {
    if a > MAX / b {
      assert a * b >= (MAX / b + 1) * b;
    } else {
      assert a * b <= MAX / b * b;
    }
  }

  lemma ProductGrows(a: int, m: int)
    requires a > 0 && m > 0
    ensures a * m >= a
  {
  }

  /** No intermediate product leaves the 64-bit range, and the result is the true product
      capped at MAX. */
  function Penalty(bytes: Int64, ratio: Int64, multiplier: Int64): (r: Int64)
    ensures 0 <= r
    ensures r == if bytes > 0 && ratio > 0 && multiplier > 0 then Min(bytes * ratio * multiplier, MAX) else 0
  {
    if bytes <= 0 || ratio <= 0 || multiplier <= 0 then 0
    else
      QuotientBound(bytes, ratio);
      if bytes > MAX / ratio then
        ProductGrows(bytes * ratio, multiplier);
        MAX
      else
        assert bytes * ratio > 0;
        var base: Int64 := bytes * ratio;
        QuotientBound(base, multiplier);
        if base > MAX / multiplier then MAX else
          assert base * multiplier > 0;
          base * multiplier
  }

  function SaturatingAdd(current: Int64, delta: Int64): (r: Int64)
    ensures r == if delta <= 0 then current else Min(current + delta, MAX)
  {
    if delta <= 0 then current
    else if current > MAX - delta then MAX
    else current + delta
  }

  /** What a penalty takes: never more than the balance, never below zero, and all of the
      penalty when the balance covers it. */
  function ClampRemoval(balance: Int64, penalty: Int64): (r: Int64)
    ensures 0 <= r && MIN <= balance - r
    ensures balance >= 0 ==> 0 <= balance - r
    ensures penalty >= 0 && balance >= 0 ==> r == Min(penalty, balance)
    ensures balance <= 0 || penalty <= 0 ==> r == 0
  {
    if balance <= 0 || penalty <= 0 then 0
    else if penalty > balance then balance
    else penalty
  }
}
