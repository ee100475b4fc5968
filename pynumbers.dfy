/** Python's `round` and the square root behind the timeline estimate, on exact reals. */
module PyNumbers {

  function Sq(x: real): real {
    x * x
  }

  predicate IsEven(n: int) {
    n % 2 == 0
  }

  /** Python's `round(x)`: the nearest integer, a tie going to the even neighbour. */
  function Round(x: real): (r: int)
    ensures x - 0.5 <= r as real <= x + 0.5
    ensures (r as real == x - 0.5 || r as real == x + 0.5) ==> IsEven(r)
  {
    var f := x.Floor;
    var d := x - f as real;
    if d < 0.5 then f
    else if d > 0.5 then f + 1
    else if IsEven(f) then f else f + 1
  }

  /** Rounding never reverses the order of its arguments. */
  lemma RoundMonotone(x: real, y: real)
    requires x <= y
    ensures Round(x) <= Round(y)
  {
  }

  /** `round(x, 2)`: the nearest multiple of 0.01, ties to an even number of hundredths. */
  function RoundCents(x: real): (r: real)
    ensures r * 100.0 == (r * 100.0).Floor as real
    ensures x - 0.005 <= r <= x + 0.005
    ensures (r == x - 0.005 || r == x + 0.005) ==> IsEven((r * 100.0).Floor)
  {
    var n := Round(x * 100.0);
    assert (n as real / 100.0) * 100.0 == n as real;
    assert (n as real).Floor == n;
    n as real / 100.0
  }

  /** The least n >= start with q <= (n + 1/2)^2, i.e. the least n with sqrt(q) <= n + 1/2. */
  function RootSearch(q: real, start: nat): (n: nat)
    requires q >= 0.0
    requires start == 0 || Sq(start as real - 0.5) < q
    ensures start <= n
    ensures q <= Sq(n as real + 0.5)
    ensures n == 0 || Sq(n as real - 0.5) < q
    decreases q.Floor - start
  {
    if q <= Sq(start as real + 0.5) then start
    else
      assert Sq(start as real + 0.5) >= start as real;
      RootSearch(q, start + 1)
  }

  /** `round(math.sqrt(q))`: an integer within half a unit of the square root of q, a tie going to the
      even neighbour. Stated without square roots: (r - 1/2)^2 <= q <= (r + 1/2)^2. */
  function RoundSqrt(q: real): (r: nat)
    requires q >= 0.0
    ensures q <= Sq(r as real + 0.5)
    ensures r == 0 || Sq(r as real - 0.5) <= q
    ensures (q == Sq(r as real + 0.5) || (r > 0 && q == Sq(r as real - 0.5))) ==> IsEven(r)
  {
    var n := RootSearch(q, 0);
    assert n > 0 ==> q != Sq(n as real - 0.5);
    if q == Sq(n as real + 0.5) && !IsEven(n) then
      assert Sq(n as real + 0.5) <= Sq(n as real + 1.5);
      n + 1
    else n
  }

  lemma SqStrict(a: real, b: real)
    requires 0.0 <= a < b
    ensures Sq(a) < Sq(b)
  {
    var d, e := b - a, b + a;
    assert d > 0.0 && e > 0.0;
    assert Sq(b) - Sq(a) == d * e;
    assert d * e > 0.0;
  }

  /** The rounded square root never decreases as its argument grows. */
  lemma RoundSqrtMonotone(p: real, q: real)
    requires 0.0 <= p <= q
    ensures RoundSqrt(p) <= RoundSqrt(q)
  {
    var a, b := RoundSqrt(p), RoundSqrt(q);
    if a >= b + 2 {
      // sqrt(p) >= a - 1/2 > b + 1/2 >= sqrt(q)
      SqStrict(b as real + 0.5, a as real - 0.5);
      assert false;
    } else if a == b + 1 {
      // both lie on the midpoint b + 1/2, so both are even
      assert false;
    }
  }
}
