/** Facts about Python's floor division by a positive divisor (which agrees
    with Dafny's `/`) and about ceiling division. */
module IntArith {

  /** Ceiling division, characterised by the two inequalities that define it.
      (Python's `//` with a positive divisor floors, as Dafny's `/` does.) */
  function CeilDiv(a: int, d: int): (q: int)
    requires d > 0
    ensures (q - 1) * d < a <= q * d
  {
    var k := (-a) / d;
    assert -a == d * k + (-a) % d;
    -k
  }

  /** Multiplying by a positive number keeps a strict order, read backwards. */
  lemma MulStrict(x: int, y: int, d: int)
    requires d > 0
    ensures x * d < y * d ==> x < y
  {
  }

  /** The ceiling is the only integer satisfying its two inequalities. */
  lemma CeilUnique(a: int, d: int, q: int)
    requires d > 0
    requires (q - 1) * d < a <= q * d
    ensures q == CeilDiv(a, d)
  {
    var c := CeilDiv(a, d);
    MulStrict(c - 1, q, d);
    MulStrict(q - 1, c, d);
  }

  /** `(a + d - 1) // d` is the ceiling of a / d. */
  lemma AddThenFloorIsCeil(a: int, d: int)
    requires d > 0
    ensures (a + d - 1) / d == CeilDiv(a, d)
  {
    var m := (a + d - 1) / d;
    assert a + d - 1 == d * m + (a + d - 1) % d;
    assert (m - 1) * d == m * d - d;
    CeilUnique(a, d, m);
  }

  /** Two ceiling divisions in a row are one ceiling division by the product. */
  lemma CeilDivTwice(a: int, b: int, c: int)
    requires b > 0 && c > 0
    ensures CeilDiv(CeilDiv(a, b), c) == CeilDiv(a, b * c)
  {
    var q1 := CeilDiv(a, b);
    var q2 := CeilDiv(q1, c);
    assert q1 <= q2 * c;
    assert a <= q2 * (b * c) by {
      assert q1 * b <= (q2 * c) * b;
    }
    assert (q2 - 1) * (b * c) < a by {
      assert (q2 - 1) * c <= q1 - 1;
      assert ((q2 - 1) * c) * b <= (q1 - 1) * b;
    }
    CeilUnique(a, b * c, q2);
  }

  /** Floor division by a positive divisor is monotone in the dividend. */
  lemma DivMonotone(a: int, b: int, d: int)
    requires d > 0 && a <= b
    ensures a / d <= b / d
  {
    assert a == d * (a / d) + a % d;
    assert b == d * (b / d) + b % d;
    assert (a / d) * d < (b / d + 1) * d;
    MulStrict(a / d, b / d + 1, d);
  }

  /** Block q of size b holds exactly the positions whose quotient by b is q. */
  lemma InBlock(r: int, b: int, q: int)
    requires b > 0
    ensures q * b <= r < q * b + b <==> r / b == q
  {
    assert r == b * (r / b) + r % b;
    var d := r / b;
    assert d * b <= r < d * b + b;
    if q * b <= r < q * b + b {
      assert q * b < d * b + b && d * b < q * b + b;
      assert (q - 1) * b < d * b && (d - 1) * b < q * b;
      MulStrict(q - 1, d, b);
      MulStrict(d - 1, q, b);
    }
  }

  /** A position below n lies in a block no later than block n / b. */
  lemma DivBelow(r: nat, n: nat, b: nat)
    requires b > 0 && r < n
    ensures r / b <= n / b
  {
    assert r == b * (r / b) + r % b;
    assert n == b * (n / b) + n % b;
    assert (r / b) * b < (n / b + 1) * b;
    MulStrict(r / b, n / b + 1, b);
  }

  /** Python's `a // d` for a non-zero divisor of either sign: the floor of a / d.
      (Dafny's `/` is Euclidean and agrees with it only for a positive divisor.) */
  function PyFloorDiv(a: int, d: int): (q: int)
    requires d != 0
    ensures d > 0 ==> q * d <= a < q * d + d
    ensures d < 0 ==> q * d + d < a <= q * d
  {
    if d > 0 then
      assert a == d * (a / d) + a % d;
      a / d
    else
      var q := (-a) / (-d);
      assert -a == (-d) * q + (-a) % (-d);
      q
  }

  /** Python's `a % d`: the remainder that goes with `a // d`, with the sign of d. */
  function PyMod(a: int, d: int): (r: int)
    requires d != 0
    ensures d > 0 ==> 0 <= r < d
    ensures d < 0 ==> d < r <= 0
    ensures a == PyFloorDiv(a, d) * d + r
  {
    a - PyFloorDiv(a, d) * d
  }
}
