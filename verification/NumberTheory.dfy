/**
  The arithmetic behind the name permutation: Euclid's algorithm, the search
  for a multiplier coprime to the space, and why multiplying by it and adding an
  offset permutes the space.
 */
module NumberTheory {

  // ------------------------------------------------------------- divisibility

  predicate Divides(d: nat, n: int)
    requires d > 0
  {
    n % d == 0
  }

  /** A multiple of `d` by at least one is at least `d`. */
  lemma MultipleIsNoSmaller(d: nat, k: int)
    requires k >= 1
    ensures d * k >= d
  {}

  lemma Distributes(d: int, a: int, b: int)
    ensures d * (a - b) == d * a - d * b
    ensures d * (a + b) == d * a + d * b
  {}

  lemma Regroups(a: int, b: int, c: int)
    ensures (a * b) * c == a * (b * c)
  {}

  /** Quotient and remainder are the only pair of their kind. */
  lemma UniqueRemainder(n: int, d: nat, q: int, r: int)
    requires d > 0 && n == d * q + r && 0 <= r < d
    ensures n / d == q && n % d == r
  {
    var quotient := n / d;
    assert n == d * quotient + n % d;
    Distributes(d, q, quotient);
    Distributes(d, quotient, q);
    if q > quotient {
      MultipleIsNoSmaller(d, q - quotient);
    } else if q < quotient {
      MultipleIsNoSmaller(d, quotient - q);
    }
  }

  lemma MultipleDivides(d: nat, n: int, k: int)
    requires d > 0 && n == d * k
    ensures Divides(d, n)
  {
    UniqueRemainder(n, d, k, 0);
  }

  lemma SumDivides(d: nat, a: int, b: int)
    requires d > 0 && Divides(d, a) && Divides(d, b)
    ensures Divides(d, a + b) && Divides(d, a - b)
  {
    var i, j := a / d, b / d;
    assert a == d * i && b == d * j;
    Distributes(d, i, j);
    MultipleDivides(d, a + b, i + j);
    MultipleDivides(d, a - b, i - j);
  }

  lemma ProductDivides(d: nat, a: int, k: int)
    requires d > 0 && Divides(d, a)
    ensures Divides(d, a * k)
  {
    var i := a / d;
    assert a == d * i;
    Regroups(d, i, k);
    MultipleDivides(d, a * k, i * k);
  }

  // ------------------------------------------------------- greatest divisors

  function Gcd(left: nat, right: nat): nat
    decreases right
  {
    if right == 0 then left else Gcd(right, left % right)
  }

  lemma {:induction false} GcdIsPositive(left: nat, right: nat)
    requires left > 0 || right > 0
    ensures Gcd(left, right) > 0
    decreases right
  {
    if right != 0 {
      GcdIsPositive(right, left % right);
    }
  }

  /** It divides both, and every common divisor divides it. */
  lemma {:induction false} GcdIsGreatest(left: nat, right: nat)
    requires left > 0 || right > 0
    ensures Gcd(left, right) > 0 && Divides(Gcd(left, right), left) && Divides(Gcd(left, right), right)
    ensures forall d: nat :: d > 0 && Divides(d, left) && Divides(d, right) ==> Divides(d, Gcd(left, right))
    decreases right
  {
    GcdIsPositive(left, right);
    if right == 0 {
      MultipleDivides(left, 0, 0);
      MultipleDivides(left, left, 1);
    } else {
      var g, q := Gcd(left, right), left / right;
      GcdIsGreatest(right, left % right);
      assert left == right * q + left % right;
      ProductDivides(g, right, q);
      SumDivides(g, right * q, left % right);
      forall d: nat | d > 0 && Divides(d, left) && Divides(d, right) ensures Divides(d, g) {
        ProductDivides(d, right, q);
        SumDivides(d, left, right * q);
      }
    }
  }

  /** Bezout's identity. */
  lemma {:induction false} Bezout(left: nat, right: nat) returns (x: int, y: int)
    ensures left * x + right * y == Gcd(left, right)
    decreases right
  {
    if right == 0 {
      x, y := 1, 0;
    } else {
      var q, r := left / right, left % right;
      var s, t := Bezout(right, r);
      x, y := t, s - q * t;
      assert left == right * q + r;
      assert left * t == right * q * t + r * t;
      Regroups(right, q, t);
      Distributes(right, s, q * t);
    }
  }

  /** A modulus that divides a product and shares nothing with one factor
      divides the other. */
  lemma CoprimeFactor(n: nat, m: nat, k: int)
    requires n > 0 && Gcd(m, n) == 1 && Divides(n, m * k)
    ensures Divides(n, k)
  {
    var x, y := Bezout(m, n);
    ProductDivides(n, m * k, x);
    MultipleDivides(n, n * (y * k), y * k);
    SumDivides(n, (m * k) * x, n * (y * k));
    Rotates(m, k, x);
    Rotates(n, y, k);
    SumsToOne(k, m * x, n * y);
  }

  lemma Rotates(a: int, b: int, c: int)
    ensures (a * b) * c == b * (a * c) && a * (b * c) == c * (a * b)
  {}

  lemma SumsToOne(k: int, a: int, b: int)
    requires a + b == 1
    ensures k * a + k * b == k
  {
    Distributes(k, a, b);
  }

  /** Euclid's loop. */
  method GreatestCommonDivisor(a: nat, b: nat) returns (g: nat)
    ensures g == Gcd(a, b)
  {
    var left, right := a, b;
    while right != 0
      invariant Gcd(left, right) == Gcd(a, b)
      decreases right
    {
      left, right := right, left % right;
    }
    g := left;
  }

  // ------------------------------------------------------ the multiplier

  /** One less than the modulus is coprime to it, which is why the search ends
      without ever wrapping around. */
  lemma PredecessorIsCoprime(n: nat)
    requires n >= 2
    ensures Gcd(n - 1, n) == 1
  {
    GcdIsGreatest(n - 1, n);
    var g := Gcd(n - 1, n);
    SumDivides(g, n, n - 1);
    assert Divides(g, 1);
    if g > 1 {
      UniqueRemainder(1, g, 0, 1);
    }
  }

  /** A zero residue is replaced by one. */
  function OrOne(n: nat): (r: nat)
    ensures r >= 1 && (n >= 1 ==> r == n)
  {
    if n == 0 then 1 else n
  }

  /** The first multiplier coprime to the space, searching up from `m`. */
  function CoprimeFrom(m: nat, space: nat): (r: nat)
    requires 1 <= m && (m < space || (m == 1 && space == 1))
    ensures m <= r && (r < space || r == space == 1) && Gcd(r, space) == 1
    ensures forall k: nat :: m <= k < r ==> Gcd(k, space) != 1
    decreases space - m
  {
    if space == 1 then
      assert Gcd(1, 1) == Gcd(1, 0) == 1; m
    else
      PredecessorIsCoprime(space);
      if Gcd(m, space) == 1 then m else CoprimeFrom(m + 1, space)
  }

  function Multiplier(start: nat, space: nat): (r: nat)
    requires space > 0
    ensures r >= 1 && Gcd(r, space) == 1
  {
    CoprimeFrom(OrOne(start % space), space)
  }

  /** The search loop.  It wraps around by remainder, but never has to. */
  method FindMultiplier(start: nat, space: nat) returns (multiplier: nat)
    requires space > 0
    ensures multiplier == Multiplier(start, space)
  {
    multiplier := OrOne(start % space);
    if space == 1 {
      assert Gcd(1, 1) == Gcd(1, 0) == 1;
    } else {
      PredecessorIsCoprime(space);
    }
    var g := GreatestCommonDivisor(multiplier, space);
    while g != 1
      invariant 1 <= multiplier && (multiplier < space || multiplier == space == 1) && g == Gcd(multiplier, space)
      invariant Multiplier(start, space) == CoprimeFrom(multiplier, space)
      decreases space - multiplier
    {
      assert multiplier != space - 1;
      UniqueRemainder(multiplier + 1, space, 0, multiplier + 1);
      multiplier := OrOne((multiplier + 1) % space);
      g := GreatestCommonDivisor(multiplier, space);
    }
  }

  // -------------------------------------------------------- the permutation

  /** Multiply and shift, modulo the space. */
  function Affine(sequence: nat, multiplier: nat, offset: nat, space: nat): (index: nat)
    requires space > 0
    ensures index < space
  {
    ((sequence % space) * multiplier + offset) % space
  }

  lemma SameRemainderMeansDivides(a: nat, b: nat, n: nat)
    requires n > 0
    ensures a % n == b % n <==> Divides(n, a - b)
  {
    var qa, qb := a / n, b / n;
    assert a == n * qa + a % n && b == n * qb + b % n;
    if a % n == b % n {
      MultipleDivides(n, a - b, qa - qb);
    }
    if Divides(n, a - b) {
      var k := (a - b) / n;
      assert a == n * (k + qb) + b % n;
      UniqueRemainder(a, n, k + qb, b % n);
    }
  }

  /** Two sequence numbers land on one index exactly when they are congruent. */
  lemma AffineIsInjective(a: nat, b: nat, multiplier: nat, offset: nat, space: nat)
    requires space > 0 && Gcd(multiplier, space) == 1
    ensures Affine(a, multiplier, offset, space) == Affine(b, multiplier, offset, space) <==> a % space == b % space
  {
    var x, y := a % space, b % space;
    if Affine(a, multiplier, offset, space) == Affine(b, multiplier, offset, space) {
      ShiftedProductsAgree(x, y, multiplier, offset, space);
      SameRemainderMeansDivides(x, y, space);
      UniqueRemainder(x, space, 0, x);
      UniqueRemainder(y, space, 0, y);
    }
  }

  lemma ShiftedProductsAgree(x: nat, y: nat, multiplier: nat, offset: nat, space: nat)
    requires space > 0 && Gcd(multiplier, space) == 1
    requires (x * multiplier + offset) % space == (y * multiplier + offset) % space
    ensures Divides(space, x - y)
  {
    SameRemainderMeansDivides(x * multiplier + offset, y * multiplier + offset, space);
    Distributes(multiplier, x, y);
    CoprimeFactor(space, multiplier, x - y);
  }

  /** Every index is reached: the map permutes the space. */
  lemma AffineIsOnto(index: nat, multiplier: nat, offset: nat, space: nat) returns (sequence: nat)
    requires space > 0 && Gcd(multiplier, space) == 1 && index < space
    ensures sequence < space && Affine(sequence, multiplier, offset, space) == index
  {
    var x, y := Bezout(multiplier, space);
    // multiplier * x is one modulo the space, so x undoes the multiplication.
    sequence := (x * (index - offset)) % space;
    var q := (x * (index - offset)) / space;
    UniqueRemainder(sequence, space, 0, sequence);
    InverseUndoes(x, y, multiplier, index - offset, space, q, sequence);
    UniqueRemainder(sequence * multiplier + offset, space, -(y * (index - offset) + q * multiplier), index);
  }

  lemma InverseUndoes(x: int, y: int, multiplier: int, d: int, space: int, q: int, sequence: int)
    requires multiplier * x + space * y == 1 && x * d == space * q + sequence
    ensures sequence * multiplier == space * (-(y * d + q * multiplier)) + d
  {
    var i, j, k := multiplier * x, space * y, space * q;
    assert sequence == x * d - k;
    assert sequence * multiplier == (x * d) * multiplier - k * multiplier by { Distributes(multiplier, x * d, k); }
    assert (x * d) * multiplier == d * i by { Rotates(x, d, multiplier); }
    assert d * i == d - d * j by { SumsToOne(d, i, j); }
    assert d * j == space * (y * d) by { Rotates(space, y, d); }
    assert k * multiplier == space * (q * multiplier) by { Regroups(space, q, multiplier); }
    Distributes(space, y * d, q * multiplier);
  }
}
