/** Monetary arithmetic shared by both endpoints: Python's `sum` over a list
    of amounts and Python's `round(x, 2)`, on exact reals. */
module Money {

  /** Python's `sum(...)`: a left-to-right fold starting from 0. A sum of
      non-negative amounts is non-negative. */
  function Sum(xs: seq<real>): (r: real)
    ensures (forall i :: 0 <= i < |xs| ==> xs[i] >= 0.0) ==> r >= 0.0
  {
    if |xs| == 0 then 0.0 else Sum(xs[..|xs| - 1]) + xs[|xs| - 1]
  }

  /** Summing a concatenation is summing the parts. */
  lemma {:induction false} SumAppend(a: seq<real>, b: seq<real>)
    ensures Sum(a + b) == Sum(a) + Sum(b)
    decreases |b|
  {
    if |b| == 0 {
      assert a + b == a;
    } else {
      var b' := b[..|b| - 1];
      assert (a + b)[..|a + b| - 1] == a + b';
      SumAppend(a, b');
    }
  }

  /** A sum of non-negative amounts is zero exactly when every amount is zero. */
  lemma {:induction false} SumZeroIff(xs: seq<real>)
    requires forall i :: 0 <= i < |xs| ==> xs[i] >= 0.0
    ensures Sum(xs) == 0.0 <==> forall i :: 0 <= i < |xs| ==> xs[i] == 0.0
    decreases |xs|
  {
    if |xs| > 0 {
      var init := xs[..|xs| - 1];
      SumZeroIff(init);
      assert forall i :: 0 <= i < |init| ==> init[i] == xs[i];
    }
  }

  /** A whole number of cents. */
  predicate IsCents(x: real)
  {
    (x * 100.0).Floor as real == x * 100.0
  }

  /** The integer nearest to `y`; a tie goes to the even neighbour. */
  function RoundHalfEven(y: real): (n: int)
    ensures -0.5 <= n as real - y <= 0.5
    ensures y >= 0.0 ==> n >= 0
    ensures y.Floor as real == y ==> n == y.Floor
  {
    var f := y.Floor;
    var d := y - f as real;
    if d < 0.5 || (d == 0.5 && f % 2 == 0) then f else f + 1
  }

  /** Python's `round(x, 2)`: the nearest whole number of cents, ties to even. */
  function Round2(x: real): (r: real)
    ensures IsCents(r)
    ensures -0.005 <= r - x <= 0.005
    ensures x >= 0.0 ==> r >= 0.0
  {
    var n := RoundHalfEven(x * 100.0);
    var r := n as real / 100.0;
    assert r * 100.0 == n as real;
    assert (n as real).Floor == n;
    r
  }

  /** An amount that is already whole cents is left unchanged by rounding. */
  lemma Round2OfCents(x: real)
    requires IsCents(x)
    ensures Round2(x) == x
  {
  }

  /** Rounding twice is rounding once. */
  lemma Round2Idempotent(x: real)
    ensures Round2(Round2(x)) == Round2(x)
  {
  }

  /** A rounded amount below zero comes from an amount below zero. */
  lemma Round2Negative(x: real)
    requires Round2(x) < 0.0
    ensures x < 0.0
  {
  }
}
