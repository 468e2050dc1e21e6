/** Money as the database stores it. Amounts in memory are exact decimals,
    modelled as reals measured in units of 0.0001; a numeric(19,4) column holds a
    whole number of such units, rounds half away from zero and refuses more than
    fifteen digits before the point. */
module Money {
  const LIMIT: int := 10_000_000_000_000_000_000

  function Round(x: real): int {
    if x >= 0.0 then (x + 0.5).Floor else -((0.5 - x).Floor)
  }

  /** Amounts with at most four decimals. */
  predicate OnGrid(x: real) {
    x == x.Floor as real
  }

  predicate Fits(units: int) {
    -LIMIT < units < LIMIT
  }

  /** A stored amount is never further than half a unit from the exact one. */
  lemma RoundNear(x: real)
    ensures x - 0.5 <= Round(x) as real <= x + 0.5
  {
  }

  /** Storing is lossless exactly for the amounts with at most four decimals. */
  lemma {:induction false} RoundExactIff(x: real)
    ensures Round(x) as real == x <==> OnGrid(x)
  {
    if OnGrid(x) {
      var n := x.Floor;
      assert x == n as real;
      assert (x + 0.5).Floor == n && (0.5 - x).Floor == -n;
    }
  }

  /** Halves go away from zero, on both sides alike. */
  lemma RoundHalfAway(n: nat, x: real)
    ensures Round(n as real + 0.5) == n + 1
    ensures Round(-x) == -Round(x)
  {
    assert (n as real + 1.0).Floor == n + 1;
  }

  lemma RoundOfPositive(x: real)
    requires x > 0.0
    ensures Round(x) >= 0
  {
  }

  lemma RoundWhole(n: int)
    ensures Round(n as real) == n
  {
    assert (n as real).Floor == n;
    RoundExactIff(n as real);
  }
}
