/**
 The JavaScript rounding primitives the calculation core relies on, over
 exact reals: `Math.round` (halves go up), `Math.ceil`, and the
 component's `roundToFive`.
 */
module JsMath {

  /** `Math.round(x)`: the nearest integer, with halves rounded upwards. */
  function Round(x: real): (n: int)
    ensures n as real - 0.5 <= x < n as real + 0.5
  {
    (x + 0.5).Floor
  }

  /** `Math.ceil(x)`: the least integer not below `x`. */
  function Ceil(x: real): (n: int)
    ensures x <= n as real < x + 1.0
  {
    -((-x).Floor)
  }

  /** `r` is a whole multiple of 5. */
  predicate MultipleOfFive(r: real) {
    r == ((r / 5.0).Floor * 5) as real
  }

  /** `roundToFive` (app.jsx:155): the nearest multiple of 5, halves upwards. */
  function RoundToFive(x: real): (r: real)
    ensures MultipleOfFive(r)
    ensures r - 2.5 <= x < r + 2.5
  {
    var n := Round(x / 5.0);
    assert (n as real * 5.0 / 5.0).Floor == n;
    (n * 5) as real
  }

  /** Any integer times five is a multiple of five. */
  lemma TimesFiveIsMultiple(n: int)
    ensures MultipleOfFive((n * 5) as real)
  {
    assert ((n * 5) as real / 5.0) == n as real;
  }

  /** Rounding a multiple of five leaves it alone. */
  lemma {:induction false} RoundToFiveFixesMultiples(x: real)
    requires MultipleOfFive(x)
    ensures RoundToFive(x) == x
  {
    var k := (x / 5.0).Floor;
    assert x == k as real * 5.0;
    assert x / 5.0 == k as real;
    assert Round(x / 5.0) == k;
  }

  /** Rounding to five never reverses the order of two values. */
  lemma RoundToFiveMonotone(x: real, y: real)
    requires x <= y
    ensures RoundToFive(x) <= RoundToFive(y)
  {
    RoundMonotone(x / 5.0, y / 5.0);
  }

  /** `Math.round` never reverses the order of two values. */
  lemma RoundMonotone(x: real, y: real)
    requires x <= y
    ensures Round(x) <= Round(y)
  {
    assert Round(x) as real <= x + 0.5 <= y + 0.5 < Round(y) as real + 1.0;
  }

  /** Rounding a non-negative value to five gives a non-negative value. */
  lemma RoundToFiveKeepsSign(x: real)
    ensures x >= 0.0 ==> RoundToFive(x) >= 0.0
  {
    if x >= 0.0 {
      RoundToFiveMonotone(0.0, x);
      assert RoundToFive(0.0) == 0.0;
    }
  }

  /** Rounding to five is idempotent. */
  lemma RoundToFiveIdempotent(x: real)
    ensures RoundToFive(RoundToFive(x)) == RoundToFive(x)
  {
    RoundToFiveFixesMultiples(RoundToFive(x));
  }

  /** `Math.ceil(gap / flow)` is the least whole number of months whose inflow covers the gap. */
  lemma CeilQuotient(gap: real, flow: real)
    requires gap > 0.0 && flow > 0.0
    ensures Ceil(gap / flow) >= 1
    ensures Ceil(gap / flow) as real * flow >= gap
    ensures (Ceil(gap / flow) - 1) as real * flow < gap
  {
    var q := gap / flow;
    var below, above := (Ceil(q) - 1) as real, Ceil(q) as real;
    assert below < q <= above;
    assert q * flow == gap;
    MulMonotone(below, q, flow);
    MulMonotone(q, above, flow);
    assert below * flow < gap <= above * flow;
  }

  /** Multiplying by a positive factor keeps the order of two reals. */
  lemma MulMonotone(x: real, y: real, f: real)
    requires x <= y && f > 0.0
    ensures x * f <= y * f
    ensures x < y ==> x * f < y * f
  {
    assert y * f - x * f == (y - x) * f;
  }

  /** Dividing by a positive divisor keeps the order of two reals. */
  lemma DivMonotone(x: real, y: real, f: real)
    requires x <= y && f > 0.0
    ensures x / f <= y / f
  {
    assert y / f - x / f == (y - x) / f;
  }
}
