/** Numbers with a given remainder modulo two different moduli. */
module Congruences {
  import opened Ranks

  /** Greatest common divisor of a and b, with coefficients that combine a and b to it. */
  datatype Combination = Combination(g: nat, u: int, v: int)

  function Gcd(a: nat, b: nat): (c: Combination)
    requires a > 0 || b > 0
    ensures c.g > 0
    decreases b
  {
    if b == 0 then Combination(a, 1, 0)
    else
      var c := Gcd(b, a % b);
      Combination(c.g, c.v, c.u - a / b * c.v)
  }

  lemma ModOf(x: int, m: nat, k: int, r: nat)
    requires r < m && x == k * m + r
    ensures x % m == r
  {
    assert x == x / m * m + x % m;
    assert (k - x / m) * m == x % m - r;
    MultipleIsFar(k - x / m, m);
  }

  lemma {:induction false} GcdCombines(a: nat, b: nat)
    requires a > 0 || b > 0
    ensures var c := Gcd(a, b); c.g == a * c.u + b * c.v
    decreases b
  {
    if b > 0 {
      GcdCombines(b, a % b);
      var c := Gcd(b, a % b);
      Recombine(a, b, a / b, a % b, c.u, c.v);
    }
  }

  lemma Recombine(a: int, b: int, q: int, r: int, u: int, v: int)
    requires a == q * b + r
    ensures b * u + r * v == a * v + b * (u - q * v)
  {
  }

  lemma {:induction false} GcdDivides(a: nat, b: nat)
    requires a > 0 || b > 0
    ensures a % Gcd(a, b).g == 0 && b % Gcd(a, b).g == 0
    decreases b
  {
    if b > 0 {
      GcdDivides(b, a % b);
      DividesNext(a, b, Gcd(b, a % b).g);
    }
  }

  lemma DividesNext(a: nat, b: nat, g: nat)
    requires b > 0 && g > 0 && b % g == 0 && a % b % g == 0
    ensures a % g == 0
  {
    assert a == a / b * b + a % b;
    DividesSum(a, a / b, b, a % b, g);
  }

  lemma DividesSum(a: int, q: int, b: int, r: int, g: nat)
    requires g > 0 && b % g == 0 && r % g == 0 && a == q * b + r
    ensures a % g == 0
  {
    assert b == b / g * g && r == r / g * g;
    MultipleSum(a, q, b / g, r / g, g);
  }

  lemma MultipleSum(a: int, q: int, y: int, z: int, g: nat)
    requires g > 0 && a == q * (y * g) + z * g
    ensures a % g == 0
  {
    assert a == (q * y + z) * g by { assert q * (y * g) == q * y * g; }
    ModOf(a, g, q * y + z, 0);
  }

  /** Whatever divides both numbers divides it. */
  lemma GcdGreatest(a: nat, b: nat, d: nat)
    requires (a > 0 || b > 0) && d > 0 && a % d == 0 && b % d == 0
    ensures Gcd(a, b).g % d == 0
  {
    var c := Gcd(a, b);
    GcdCombines(a, b);
    assert a == a / d * d && b == b / d * d;
    DividesCombination(c.g, a, b, a / d, b / d, d, c.u, c.v);
  }

  lemma DividesCombination(g: nat, a: nat, b: nat, y: int, z: int, d: nat, u: int, v: int)
    requires d > 0 && a == y * d && b == z * d && g == a * u + b * v
    ensures g % d == 0
  {
    assert g == (y * u + z * v) * d by { assert y * d * u == y * u * d && z * d * v == z * v * d; }
    ModOf(g, d, y * u + z * v, 0);
  }

  /** Number p has remainder r modulo n and remainder r' modulo n'. */
  predicate Both(p: int, r: nat, n: nat, r': nat, n': nat)
    requires n > 0 && n' > 0
  {
    p % n == r && p % n' == r'
  }

  lemma Quotient(n: nat, g: nat)
    requires n > 0 && g > 0 && n % g == 0
    ensures n == n / g * g && n / g > 0
  {
  }

  /** How many times n must be added to r. */
  function Steps(r: nat, n: nat, r': nat, n': nat): nat
    requires n > 0 && n' > 0
  {
    GcdDivides(n, n');
    Quotient(n', Gcd(n, n').g);
    ((r' - r) / Gcd(n, n').g * Gcd(n, n').u) % (n' / Gcd(n, n').g)
  }

  /** The least solution, if the remainders agree modulo the greatest common divisor. */
  function Least(r: nat, n: nat, r': nat, n': nat): nat
    requires n > 0 && n' > 0
  {
    r + n * Steps(r, n, r', n')
  }

  /** n == n1 * g, n' == m1 * g and n1 * u + m1 * v == 1. */
  ghost predicate Parts(n: nat, n': nat, c: Combination, n1: int, m1: int) {
    n == n1 * c.g && n' == m1 * c.g && m1 > 0 && c.g == n * c.u + n' * c.v && n1 * c.u + m1 * c.v == 1
  }

  lemma GcdParts(n: nat, n': nat)
    requires n > 0 && n' > 0
    ensures Parts(n, n', Gcd(n, n'), n / Gcd(n, n').g, n' / Gcd(n, n').g)
  {
    var c := Gcd(n, n');
    GcdCombines(n, n');
    GcdDivides(n, n');
    Quotient(n, c.g);
    Quotient(n', c.g);
    Cancel(n, n', c.g, c.u, c.v, n / c.g, n' / c.g);
  }

  lemma Cancel(n: nat, n': nat, g: nat, u: int, v: int, n1: int, m1: int)
    requires g > 0 && n == n1 * g && n' == m1 * g && g == n * u + n' * v
    ensures n1 * u + m1 * v == 1
  {
    var one := n1 * u + m1 * v;
    assert one * g == g by { assert n1 * g * u == n1 * u * g && m1 * g * v == m1 * v * g; }
    MultipleIsFar(one - 1, g);
    assert (one - 1) * g == 0;
  }

  lemma SameRemainder(r: int, r': int, g: nat)
    requires g > 0 && r % g == r' % g
    ensures r' - r == (r' - r) / g * g
  {
    assert r == r / g * g + r % g && r' == r' / g * g + r' % g;
    assert r' - r == (r' / g - r / g) * g;
    ModOf(r' - r, g, r' / g - r / g, 0);
    assert r' - r == (r' - r) / g * g + (r' - r) % g;
  }

  lemma SolvesSecond(r: int, n: int, r': int, n': int, g: int, u: int, v: int, n1: int, m1: int, d: int, q: int, k: int)
    requires g == n * u + n' * v && n == n1 * g && n' == m1 * g && r' - r == d * g && d * u == m1 * q + k
    ensures r + n * k == -(d * v + q * n1) * n' + r'
  {
    assert n * k == n * (d * u) - n * (m1 * q) by { assert k == d * u - m1 * q; }
    assert n * (d * u) == d * (n * u) == d * g - d * (n' * v) by { assert n * u == g - n' * v; }
    assert n * (m1 * q) == (n1 * q) * n' by { assert n * m1 == n1 * n'; }
    assert d * (n' * v) == (d * v) * n';
  }

  lemma Solves(r: nat, n: nat, r': nat, n': nat, c: Combination, n1: int, m1: int, d: int)
    requires r < n && r' < n' && Parts(n, n', c, n1, m1) && r' - r == d * c.g
    ensures Both(r + n * (d * c.u % m1), r, n, r', n')
  {
    var k, q := d * c.u % m1, d * c.u / m1;
    SolvesSecond(r, n, r', n', c.g, c.u, c.v, n1, m1, d, q, k);
    BothAt(r + n * k, r, n, r', n', k, -(d * c.v + q * n1));
  }

  lemma BothAt(p: int, r: nat, n: nat, r': nat, n': nat, k: int, j: int)
    requires r < n && r' < n' && p == r + n * k && p == j * n' + r'
    ensures Both(p, r, n, r', n')
  {
    ModOf(p, n, k, r);
    ModOf(p, n', j, r');
  }

  lemma LeastIsBoth(r: nat, n: nat, r': nat, n': nat)
    requires r < n && r' < n' && r % Gcd(n, n').g == r' % Gcd(n, n').g
    ensures Both(Least(r, n, r', n'), r, n, r', n')
  {
    var c := Gcd(n, n');
    GcdParts(n, n');
    SameRemainder(r, r', c.g);
    Solves(r, n, r', n', c, n / c.g, n' / c.g, (r' - r) / c.g);
  }

  // ----- any solution -----

  /** Solutions exist only if the remainders agree modulo the greatest common divisor. */
  lemma BothAgree(p: int, r: nat, n: nat, r': nat, n': nat)
    requires n > 0 && n' > 0 && Both(p, r, n, r', n')
    ensures r % Gcd(n, n').g == r' % Gcd(n, n').g
  {
    var c := Gcd(n, n');
    GcdParts(n, n');
    ModDivisor(p, n, n / c.g, c.g);
    ModDivisor(p, n', n' / c.g, c.g);
  }

  lemma ModDivisor(p: int, n: nat, n1: int, g: nat)
    requires n > 0 && g > 0 && n == n1 * g
    ensures p % n % g == p % g
  {
    var q, r := p / n, p % n;
    assert r == r / g * g + r % g && p == q * n + r;
    assert p == (q * n1 + r / g) * g + r % g by { assert q * (n1 * g) == q * n1 * g; }
    ModOf(p, g, q * n1 + r / g, r % g);
  }

  /** Two solutions r + n * a and r + n * k: a and k agree modulo m1. */
  lemma StepsAgree(n: nat, n': nat, c: Combination, n1: int, m1: int, a: int, k: int, e: int)
    requires c.g > 0 && Parts(n, n', c, n1, m1) && n * (a - k) == n' * e
    ensures a - k == m1 * (e * c.u + (a - k) * c.v)
  {
    var x := a - k;
    assert n1 * x == m1 * e by { Divide(n1, m1, c.g, x, e, n, n'); }
    assert x == x * (n1 * c.u + m1 * c.v);
    assert x * (n1 * c.u) == (n1 * x) * c.u == m1 * e * c.u;
    assert m1 * e * c.u == m1 * (e * c.u) && x * (m1 * c.v) == m1 * (x * c.v);
  }

  lemma Divide(n1: int, m1: int, g: nat, x: int, e: int, n: nat, n': nat)
    requires g > 0 && n == n1 * g && n' == m1 * g && n * x == n' * e
    ensures n1 * x == m1 * e
  {
    assert (n1 * x - m1 * e) * g == 0 by { assert n1 * g * x == n1 * x * g && m1 * g * e == m1 * e * g; }
    MultipleIsFar(n1 * x - m1 * e, g);
  }

  lemma AtLeastRemainder(a: nat, k: nat, m: nat, j: int)
    requires k < m && a - k == m * j
    ensures k <= a
  {
    MultipleIsFar(j, m);
    assert j * m == m * j;
  }

  lemma LeastIsLeast(p: nat, r: nat, n: nat, r': nat, n': nat)
    requires r < n && r' < n' && Both(p, r, n, r', n')
    ensures Least(r, n, r', n') <= p
  {
    BothAgree(p, r, n, r', n');
    LeastIsBoth(r, n, r', n');
    var c, k := Gcd(n, n'), Steps(r, n, r', n');
    GcdParts(n, n');
    FirstSteps(p, Least(r, n, r', n'), r, n, r', n', c, n / c.g, n' / c.g, k);
  }

  lemma FirstSteps(p: nat, least: nat, r: nat, n: nat, r': nat, n': nat, c: Combination, n1: int, m1: int, k: nat)
    requires r < n && r' < n' && c.g > 0 && Parts(n, n', c, n1, m1) && k < m1
    requires Both(p, r, n, r', n') && Both(least, r, n, r', n') && least == r + n * k
    ensures least <= p
  {
    var a, e := p / n, p / n' - least / n';
    Difference(p, least, r, n, r', n', a, p / n', least / n', k);
    StepsAgree(n, n', c, n1, m1, a, k, e);
    AtLeastRemainder(a, k, m1, e * c.u + (a - k) * c.v);
    MoreSteps(n, a, k);
  }

  lemma Difference(p: nat, least: nat, r: nat, n: nat, r': nat, n': nat, a: int, b: int, b': int, k: int)
    requires n > 0 && n' > 0 && Both(p, r, n, r', n') && Both(least, r, n, r', n') && least == r + n * k
    requires a == p / n && b == p / n' && b' == least / n'
    ensures p == r + n * a && n * (a - k) == n' * (b - b')
  {
    assert p == n * a + r && p == n' * b + r' && least == n' * b' + r';
    assert n * (a - k) == n * a - n * k && n' * (b - b') == n' * b - n' * b';
  }

  lemma MoreSteps(n: nat, a: int, k: int)
    requires k <= a
    ensures n * k <= n * a
  {
    assert n * a == n * k + n * (a - k);
  }

  ghost predicate SharedBelow(count: int, r: nat, n: nat, r': nat, n': nat)
    requires n > 0 && n' > 0
  {
    exists p :: 0 <= p < count && Both(p, r, n, r', n')
  }

  /** Some number below count has both remainders if and only if they agree modulo the greatest common
      divisor of the moduli and the least solution is below count. */
  lemma SharedIff(count: int, r: nat, n: nat, r': nat, n': nat)
    requires r < n && r' < n'
    ensures SharedBelow(count, r, n, r', n') <==>
            r % Gcd(n, n').g == r' % Gcd(n, n').g && Least(r, n, r', n') < count
  {
    if SharedBelow(count, r, n, r', n') {
      var p: int :| 0 <= p < count && Both(p, r, n, r', n');
      BothAgree(p, r, n, r', n');
      LeastIsLeast(p, r, n, r', n');
    }
    if r % Gcd(n, n').g == r' % Gcd(n, n').g { LeastIsBoth(r, n, r', n'); }
  }
}
