/** The consent ratio reported with every telemetry payload: the share of
    orders (since the WeRePack start date) whose customer consented to
    re-used packaging, as a whole percentage. */
module Ratio {
  import opened Values

  /** `n / d` rounded to the nearest integer, halves rounded up: this is
      PHP's `round` (halves away from zero) on a non-negative quotient,
      done in exact integer arithmetic. */
  function RoundDiv(n: nat, d: nat): (r: nat)
    requires d > 0
    // r - 1/2 <= n/d < r + 1/2
    ensures 2 * d * r - d <= 2 * n < 2 * d * r + d
  {
    var q := (2 * n + d) / (2 * d);
    assert 2 * d * q <= 2 * n + d < 2 * d * q + 2 * d;
    q
  }

  /** True when `r` is the percentage `100 * c / o` rounded to the nearest
      integer with halves rounded up. */
  predicate IsRoundedPercent(c: nat, o: nat, r: int)
    requires o > 0
  {
    2 * o * r - o <= 200 * c < 2 * o * r + o
  }

  /** The numeric ratio: zero when there are no consents or no orders,
      otherwise the rounded percentage of consents per order. */
  function RepackRatio(consents: nat, orders: nat): (r: nat)
    ensures consents == 0 || orders == 0 ==> r == 0
    ensures consents > 0 && orders > 0 ==> IsRoundedPercent(consents, orders, r)
  {
    if consents == 0 || orders == 0 then 0
    else RoundDiv(consents * 100, orders)
  }

  /** The value `get_repack_ratio` hands back: the string `'0'` on the early
      exit and whenever the rounded ratio is not positive, and otherwise the
      rounded number itself (the `(string)` cast applies to `$ratio` in the
      comparison only, so the number is returned uncast). */
  function GetRepackRatio(consents: nat, orders: nat): (v: Value)
    ensures v == VStr("0") || (v.VInt? && v.i > 0)
    ensures v.VInt? ==> v.i == RepackRatio(consents, orders)
    ensures v == VStr("0") <==> RepackRatio(consents, orders) == 0
  {
    if consents == 0 || orders == 0 then VStr("0")
    else
      var ratio := RoundDiv(consents * 100, orders);
      if ratio > 0 then VInt(ratio) else VStr("0")
  }

  /** A positive factor keeps strict order: `d * a < d * b` forces `a < b`. */
  lemma CancelFactor(d: int, a: int, b: int)
    requires d > 0
    requires d * a < d * b
    ensures a < b
  {
  }

  /** The rounded percentage is unique: the ratio is the only integer that
      is nearest to `100 * c / o` with halves rounded up. */
  lemma RatioUnique(c: nat, o: nat, r: int)
    requires c > 0 && o > 0
    requires IsRoundedPercent(c, o, r)
    ensures r == RepackRatio(c, o)
  {
    var q := RepackRatio(c, o);
    // Both lie within half an order of 100 * c / o, so they differ by less than one.
    assert 2 * o * r - o < 2 * o * q + o;
    assert 2 * o * q - o < 2 * o * r + o;
    CancelFactor(2 * o, r, q + 1);
    CancelFactor(2 * o, q, r + 1);
  }

  /** The ratio never exceeds 100 while there are no more consents than
      orders. */
  lemma RatioAtMostHundred(c: nat, o: nat)
    requires c <= o
    ensures RepackRatio(c, o) <= 100
  {
    if c > 0 && o > 0 {
      var r := RepackRatio(c, o);
      assert 2 * o * r - o <= 200 * c <= 200 * o;
      CancelFactor(2 * o, r, 101);
    }
  }

  /** More consents over the same orders never lower the ratio. */
  lemma RatioMonotone(c1: nat, c2: nat, o: nat)
    requires c1 <= c2
    ensures RepackRatio(c1, o) <= RepackRatio(c2, o)
  {
    if c1 > 0 && o > 0 {
      var r1, r2 := RepackRatio(c1, o), RepackRatio(c2, o);
      assert 2 * o * r1 - o <= 200 * c1 <= 200 * c2 < 2 * o * r2 + o;
      CancelFactor(2 * o, r1, r2 + 1);
    }
  }

  /** Worked examples, including a half that rounds up. */
  lemma RatioExamples()
    ensures GetRepackRatio(5, 0) == VStr("0")
    ensures GetRepackRatio(10, 40) == VInt(25)
    ensures GetRepackRatio(0, 100) == VStr("0")
    ensures GetRepackRatio(1, 8) == VInt(13)
    ensures GetRepackRatio(1, 1000) == VStr("0")
  {
  }
}
