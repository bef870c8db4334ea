/**
 * Exact money arithmetic. Amounts are exact reals, so the numbers below are
 * what the JavaScript computes when no floating-point error arises.
 */
module Money {
  import opened Wrappers

  /** True when `r` is a whole number of pence. */
  predicate IsCents(r: real) {
    (100.0 * r).Floor as real == 100.0 * r
  }

  /** `Math.round(x * 100) / 100`: the nearest whole pence, halves rounded up. */
  function Round2(x: real): (r: real)
    ensures x - 1.0 / 200.0 < r <= x + 1.0 / 200.0
    ensures IsCents(r)
  {
    var n := (100.0 * x + 0.5).Floor;
    assert (100.0 * (n as real / 100.0)) == n as real;
    n as real / 100.0
  }

  /** `Math.round(x)`: the nearest integer, halves rounded towards +infinity. */
  function JsRound(x: real): (n: int)
    ensures x - 0.5 < n as real <= x + 0.5
  {
    (x + 0.5).Floor
  }

  lemma Round2OfCents(x: real)
    requires IsCents(x)
    ensures Round2(x) == x
  {
    var n := (100.0 * x).Floor;
    assert (100.0 * x + 0.5).Floor == n;
  }

  lemma Round2Monotonic(x: real, y: real)
    requires x <= y
    ensures Round2(x) <= Round2(y)
  {
    var a, b := (100.0 * x + 0.5).Floor, (100.0 * y + 0.5).Floor;
    assert a as real <= 100.0 * y + 0.5;
    assert a <= b;
  }

  /** JavaScript truthiness of a nullable number: `null` and `0` are falsy. */
  predicate Truthy(o: Option<real>) {
    o.Some? && o.value != 0.0
  }

  /** `o || fallback` for a nullable number. */
  function Pick(o: Option<real>, fallback: real): real {
    if Truthy(o) then o.value else fallback
  }
}
