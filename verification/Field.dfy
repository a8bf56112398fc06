// Arithmetic modulo the group order (packages/crypto/src/group.ts).
module Field {
  import opened Wrappers

  const Q: nat := 21888242871839275222246405745257275088548364400416034343698204186575808495617

  // ----- Congruence modulo any m -----

  lemma MultipleAtLeast(m: nat, d: nat)
    requires d >= 1
    ensures m * d >= m
  {
  }

  lemma QuotientUnique(m: nat, q: int, s: int, k: int, r: int)
    requires 0 <= r < m && 0 <= s < m && m * q + s == m * k + r
    ensures q <= k
  {
    if q > k {
      var d: nat := q - k;
      assert m * q == m * k + m * d;
      MultipleAtLeast(m, d);
      assert false;
    }
  }

  // The remainder of a division is the only one there is.
  lemma RemainderUnique(x: int, k: int, r: int, m: int)
    requires 0 <= r < m && x == m * k + r
    ensures x % m == r
  {
    var q, s := x / m, x % m;
    assert x == m * q + s && 0 <= s < m;
    QuotientUnique(m, q, s, k, r);
    QuotientUnique(m, k, r, q, s);
  }

  lemma AddMultiple(x: int, k: int, m: int)
    requires m > 0
    ensures (x + m * k) % m == x % m
  {
    RemainderUnique(x + m * k, x / m + k, x % m, m);
  }

  ghost predicate Congruent(a: int, b: int, m: int)
    requires m > 0
  {
    a % m == b % m
  }

  lemma CongruentApart(a: int, b: int, m: int) returns (k: int)
    requires m > 0 && Congruent(a, b, m)
    ensures a == b + m * k
  {
    k := a / m - b / m;
    assert a == m * (a / m) + a % m && b == m * (b / m) + b % m;
  }

  lemma Distribute(b: int, m: int, k: int, c: int)
    ensures (b + m * k) * c == b * c + m * (k * c)
  {
  }

  lemma CongruentMul(a: int, b: int, c: int, m: int)
    requires m > 0 && Congruent(a, b, m)
    ensures Congruent(a * c, b * c, m)
  {
    var k := CongruentApart(a, b, m);
    Distribute(b, m, k, c);
    AddMultiple(b * c, k * c, m);
  }

  lemma CongruentAdd(a: int, b: int, c: int, m: int)
    requires m > 0 && Congruent(a, b, m)
    ensures Congruent(a + c, b + c, m)
  {
    var k := CongruentApart(a, b, m);
    AddMultiple(b + c, k, m);
  }

  lemma ModTwice(a: int, m: int)
    requires m > 0
    ensures Congruent(a % m, a, m)
  {
    RemainderUnique(a % m, 0, a % m, m);
  }

  // The remainder of the source's language takes the sign of the dividend.
  function Truncated(value: int, m: nat): int
    requires m > 0
  {
    if value >= 0 then value % m else -((-value) % m)
  }

  function Mod(value: int, m: nat): int
    requires m > 0
  {
    var residue := Truncated(value, m);
    if residue < 0 then residue + m else residue
  }

  // modq gives the representative in [0, m) for every integer, negative ones too.
  lemma ModIsRemainder(value: int, m: nat)
    requires m > 0
    ensures Mod(value, m) == value % m
  {
    if value < 0 {
      var r := (-value) % m;
      assert -value == m * ((-value) / m) + r;
      if r == 0 {
        RemainderUnique(value, -((-value) / m), 0, m);
      } else {
        assert value == m * (-((-value) / m) - 1) + (m - r);
        RemainderUnique(value, -((-value) / m) - 1, m - r, m);
      }
    }
  }

  // ----- Powers -----

  function Pow(base: int, exponent: nat): int {
    if exponent == 0 then 1 else base * Pow(base, exponent - 1)
  }

  lemma {:induction false} PowSquare(base: int, k: nat)
    ensures Pow(base, 2 * k) == Pow(base * base, k)
  {
    if k > 0 {
      PowSquare(base, k - 1);
      assert Pow(base, 2 * k) == base * (base * Pow(base, 2 * k - 2));
      assert Pow(base * base, k) == (base * base) * Pow(base * base, k - 1);
      assert base * (base * Pow(base, 2 * k - 2)) == (base * base) * Pow(base, 2 * k - 2);
    }
  }

  lemma {:induction false} PowCongruent(a: int, b: int, k: nat, m: int)
    requires m > 0 && Congruent(a, b, m)
    ensures Congruent(Pow(a, k), Pow(b, k), m)
  {
    if k > 0 {
      PowCongruent(a, b, k - 1, m);
      CongruentMul(a, b, Pow(a, k - 1), m);
      CongruentMul(Pow(a, k - 1), Pow(b, k - 1), b, m);
      assert b * Pow(a, k - 1) == Pow(a, k - 1) * b && Pow(b, k - 1) * b == b * Pow(b, k - 1);
    }
  }

  // One turn of square-and-multiply keeps result * factor^power.
  lemma SquareStep(result: int, factor: int, power: nat, m: int)
    requires m > 0 && power > 0
    ensures var next := if power % 2 == 1 then result * factor % m else result;
      Congruent(next * Pow(factor * factor % m, power / 2), result * Pow(factor, power), m)
  {
    var half := power / 2;
    var squared := Pow(factor * factor, half);
    PowSquare(factor, half);
    ModTwice(factor * factor, m);
    PowCongruent(factor * factor % m, factor * factor, half, m);
    var next := if power % 2 == 1 then result * factor % m else result;
    CongruentMul(Pow(factor * factor % m, half), squared, next, m);
    assert next * Pow(factor * factor % m, half) == Pow(factor * factor % m, half) * next && squared * next == next * squared;
    if power % 2 == 1 {
      assert power == 2 * half + 1;
      ModTwice(result * factor, m);
      CongruentMul(next, result * factor, squared, m);
      assert result * factor * squared == result * (factor * squared);
      assert Pow(factor, power) == factor * Pow(factor, 2 * half);
    } else {
      assert power == 2 * half;
    }
  }

  // powq, by squaring; None where it throws.
  method PowMod(base: int, exponent: int, m: nat) returns (r: Option<int>)
    requires m > 1
    ensures r.Some? <==> exponent >= 0
    ensures r.Some? ==> r.value == Pow(base, exponent) % m
  {
    if exponent < 0 { return None; }
    var result, factor, power := 1, Mod(base, m), exponent;
    ModIsRemainder(base, m);
    ModTwice(base, m);
    PowCongruent(factor, base, exponent, m);
    while power > 0
      invariant power >= 0 && 0 <= result < m
      invariant Congruent(result * Pow(factor, power), Pow(base, exponent), m)
    {
      SquareStep(result, factor, power, m);
      if power % 2 == 1 {
        ModIsRemainder(result * factor, m);
        result := Mod(result * factor, m);
      }
      ModIsRemainder(factor * factor, m);
      factor := Mod(factor * factor, m);
      power := power / 2;
    }
    assert result * Pow(factor, 0) == result;
    RemainderUnique(result, 0, result, m);
    r := Some(result);
  }

  // Fermat's little theorem for m, which holds because the group order is prime.
  ghost predicate Fermat(m: nat) {
    m > 1 && forall a: int :: a % m != 0 ==> Pow(a, m - 1) % m == 1
  }

  // inverseq; None where it throws.
  method Inverse(value: int, m: nat) returns (r: Option<int>)
    requires m > 1
    ensures r.Some? <==> value % m != 0
    ensures r.Some? ==> 0 <= r.value < m
    ensures r.Some? && Fermat(m) ==> value * r.value % m == 1
  {
    ModIsRemainder(value, m);
    if Mod(value, m) == 0 { return None; }
    r := PowMod(value, m - 2, m);
    if Fermat(m) {
      ModTwice(Pow(value, m - 2), m);
      CongruentMul(r.value, Pow(value, m - 2), value, m);
      assert Pow(value, m - 2) * value == Pow(value, m - 1);
      assert r.value * value == value * r.value;
    }
  }
}
