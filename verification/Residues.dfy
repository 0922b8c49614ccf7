/** Residues of the multiples of one number modulo another, the arithmetic behind the latency of the
    convolver's block adapter. */
module Residues {

  /** Euclid's algorithm. */
  function Gcd(a: nat, b: nat): (g: nat)
    requires a > 0 || b > 0
    ensures g > 0
    decreases b
  {
    if b == 0 then a else Gcd(b, a % b)
  }

  /** A combination of multiples of g is a multiple of g. */
  lemma CombineMultiples(g: int, p: int, q: int, x: int, y: int)
    ensures (g * p) * x + (g * q) * y == g * (p * x + q * y)
  {
    assert (g * p) * x == g * (p * x);
    assert (g * q) * y == g * (q * y);
  }

  lemma ProductSign(g: nat, d: int)
    requires g > 0
    ensures d >= 0 ==> g * d >= 0
    ensures d > 0 ==> g * d >= d
  {
  }

  lemma MultipleOrder(g: nat, u: int, v: int)
    requires g > 0
    ensures u <= v <==> g * u <= g * v
  {
    ProductSign(g, v - u);
    ProductSign(g, u - v);
    assert g * (v - u) == g * v - g * u;
    assert g * (u - v) == g * u - g * v;
  }

  lemma {:induction false} GcdFactors(a: nat, b: nat) returns (p: nat, q: nat)
    requires a > 0 || b > 0
    ensures a == Gcd(a, b) * p && b == Gcd(a, b) * q
    decreases b
  {
    if b == 0 {
      p, q := 1, 0;
    } else {
      var u, v := GcdFactors(b, a % b);
      p := LiftFactors(Gcd(a, b), a, b, u, v);
      q := u;
    }
  }

  lemma LiftFactors(g: nat, a: nat, b: nat, u: nat, v: nat) returns (p: nat)
    requires b > 0 && b == g * u && a % b == g * v
    ensures a == g * p
  {
    CombineMultiples(g, u, v, a / b, 1);
    ProductSign(u + 1, a / b);
    assert u * (a / b) >= 0;
    p := u * (a / b) + v * 1;
    assert a == b * (a / b) + a % b;
  }

  lemma {:induction false} Bezout(a: nat, b: nat) returns (x: int, y: int)
    requires a > 0 || b > 0
    ensures a * x + b * y == Gcd(a, b)
    decreases b
  {
    if b == 0 {
      x, y := 1, 0;
    } else {
      var u, v := Bezout(b, a % b);
      x, y := v, u - (a / b) * v;
      LiftCombination(a, b, a / b, a % b, u, v);
    }
  }

  lemma LiftCombination(a: int, b: int, d: int, r: int, u: int, v: int)
    requires a == d * b + r
    ensures a * v + b * (u - d * v) == b * u + r * v
  {
    assert a * v == (d * b) * v + r * v;
    assert b * (u - d * v) == b * u - b * (d * v);
    assert b * (d * v) == (d * b) * v;
  }

  /** `Gcd` really is the greatest common divisor. */
  lemma GcdIsGreatest(a: nat, b: nat, d: nat, p: nat, q: nat)
    requires a > 0 || b > 0
    requires a == d * p && b == d * q
    ensures d <= Gcd(a, b)
  {
    var x, y := Bezout(a, b);
    CombineMultiples(d, p, q, x, y);
    var m := p * x + q * y;
    assert d * m > 0;
    if d > 0 {
      MultipleOrder(d, m, 0);
      MultipleOrder(d, 1, m);
    }
  }

  lemma QuotientIsUnique(n: int, m: nat, q: int, r: int)
    requires m > 0 && n == q * m + r && 0 <= r < m
    ensures n % m == r && n / m == q
  {
    var k := n / m - q;
    assert m * k == r - n % m by {
      assert n == m * (n / m) + n % m;
      assert m * k == m * (n / m) - m * q;
    }
    MultipleOrder(m, 1, k);
    MultipleOrder(m, k, -1);
  }

  function Residue(k: nat, s: nat, m: nat): (r: nat)
    requires m > 0
    ensures r < m
  {
    (k * s) % m
  }

  lemma RemainderOfMultiples(g: nat, p: nat, q: nat, k: nat) returns (u: int)
    requires g * q > 0
    ensures (k * (g * p)) % (g * q) == g * u
  {
    var d := (k * (g * p)) / (g * q);
    u := p * k + q * -d;
    CombineMultiples(g, p, q, k, -d);
    assert (g * q) * -d == -((g * q) * d);
  }

  lemma ResidueBound(k: nat, s: nat, m: nat)
    requires m > 0
    ensures Residue(k, s, m) <= m - Gcd(s, m)
  {
    var g := Gcd(s, m);
    var p, q := GcdFactors(s, m);
    var u := RemainderOfMultiples(g, p, q, k);
    MultipleOrder(g, q, u);
    MultipleOrder(g, u, q - 1);
    assert g * (q - 1) == g * q - g;
  }

  /** The greatest possible residue is reached within the first `m / gcd` multiples. */
  lemma ResidueAttained(s: nat, m: nat) returns (k: nat)
    requires m > 0
    ensures k < Period(s, m)
    ensures Residue(k, s, m) == m - Gcd(s, m)
  {
    var g := Gcd(s, m);
    var p, q := GcdFactors(s, m);
    var x, y := Bezout(s, m);
    QuotientIsUnique(m, g, q, 0);
    assert q > 0;
    k := (-x) % q;
    var t := (-x) / q;
    assert k * s == (y - t * p - 1) * m + (m - g) by {
      assert -x == t * q + k;
      ShiftMultiple(g, p, q, x, y, t, k);
    }
    MultipleOrder(g, 1, q);
    QuotientIsUnique(k * s, m, y - t * p - 1, m - g);
  }

  lemma ShiftMultiple(g: int, p: int, q: int, x: int, y: int, t: int, k: int)
    requires (g * p) * x + (g * q) * y == g && -x == t * q + k
    ensures k * (g * p) == (y - t * p - 1) * (g * q) + (g * q - g)
  {
    var s, m := g * p, g * q;
    assert (t * q) * s == (t * p) * m;
    assert k * s == -(s * x) - (t * q) * s by {
      assert k == -x - t * q;
      assert (-x - t * q) * s == -(s * x) - (t * q) * s;
    }
    assert (y - t * p - 1) * m == m * y - (t * p) * m - m;
  }

  /** How many multiples of s there are before their residues repeat. */
  function Period(s: nat, m: nat): nat
    requires m > 0
  {
    m / Gcd(s, m)
  }

  /** The greatest residue among the multiples 0, s, 2s, ..., ns. */
  function MaxResidue(n: nat, s: nat, m: nat): (z: nat)
    requires m > 0
    ensures z < m
  {
    if n == 0 then 0
    else if MaxResidue(n - 1, s, m) < Residue(n, s, m) then Residue(n, s, m)
    else MaxResidue(n - 1, s, m)
  }

  lemma {:induction false} MaxResidueIsMaximum(n: nat, s: nat, m: nat)
    requires m > 0
    ensures forall k: nat :: k <= n ==> Residue(k, s, m) <= MaxResidue(n, s, m)
    ensures exists k: nat :: k <= n && Residue(k, s, m) == MaxResidue(n, s, m)
  {
    assert Residue(0, s, m) == 0;
    if n > 0 {
      MaxResidueIsMaximum(n - 1, s, m);
    }
  }

  /** The running maximum never exceeds m - gcd, and stays there from the last multiple of a period on. */
  lemma MaxResidueSettles(n: nat, s: nat, m: nat)
    requires m > 0
    ensures MaxResidue(n, s, m) <= m - Gcd(s, m)
    ensures Period(s, m) - 1 <= n ==> MaxResidue(n, s, m) == m - Gcd(s, m)
  {
    MaxResidueIsMaximum(n, s, m);
    var top: nat :| top <= n && Residue(top, s, m) == MaxResidue(n, s, m);
    ResidueBound(top, s, m);
    var k := ResidueAttained(s, m);
    if Period(s, m) - 1 <= n {
      assert Residue(k, s, m) <= MaxResidue(n, s, m);
    }
  }

  lemma SettledResidues(n: nat, s: nat, m: nat)
    requires n > 0 && s > 0 && m > 0
    ensures Period(s, m) <= n ==> MaxResidue(n, s, m) == MaxResidue(n - 1, s, m) == m - Gcd(s, m)
  {
    hide MaxResidue;
    MaxResidueSettles(n - 1, s, m);
    MaxResidueSettles(n, s, m);
  }

  lemma PeriodIsFactor(g: nat, m: nat, q: nat)
    requires g > 0 && m == g * q
    ensures m / g == q
  {
    QuotientIsUnique(m, g, q, 0);
  }

  lemma Regroup(j: nat, q: nat, g: nat, p: nat)
    ensures j * q * (g * p) == j * p * (g * q)
  {
    assert j * q * (g * p) == j * ((q * g) * p) == j * (p * (g * q)) == j * p * (g * q);
  }

  /** At the end of every period the residue is zero. */
  lemma ResidueOfPeriod(j: nat, s: nat, m: nat)
    requires m > 0
    ensures Residue(j * Period(s, m), s, m) == 0
  {
    hide Gcd;
    var g := Gcd(s, m);
    var p, q := GcdFactors(s, m);
    PeriodIsFactor(g, m, q);
    Regroup(j, q, g, p);
    QuotientIsUnique(j * q * s, m, j * p, 0);
  }
}
