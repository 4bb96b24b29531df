/** Remainders of neighbouring numbers. */
module Modular {
  lemma Scale(n: nat, a: int, b: int)
    ensures a <= b ==> n * a <= n * b
  {}

  lemma DivMod(x: nat, n: nat, q: nat, r: nat)
    requires n > 0 && x == n * q + r && r < n
    ensures x / n == q && x % n == r
  {
    Scale(n, q + 1, x / n);
    Scale(n, x / n + 1, q);
  }

  lemma Successor(x: nat, n: nat)
    requires n > 0
    ensures (x % n + 1) % n == (x + 1) % n
  {
    var q, r := x / n, x % n;
    assert x + 1 == n * q + (r + 1);
    if r + 1 < n {
      DivMod(x + 1, n, q, r + 1);
      DivMod(r + 1, n, 0, r + 1);
    } else {
      assert n * (q + 1) == n * q + n;
      DivMod(x + 1, n, q + 1, 0);
      DivMod(n, n, 1, 0);
    }
  }

  lemma AddMultiple(x: nat, n: nat, k: nat)
    requires n > 0
    ensures (n * k + x) % n == x % n
  {
    assert n * (k + x / n) == n * k + n * (x / n);
    Scale(n, 0, k + x / n);
    DivMod(n * k + x, n, k + x / n, x % n);
  }

  /** Adding one lap changes nothing. */
  lemma Lap(x: nat, n: nat)
    requires n > 0
    ensures (x + n) % n == x % n
  {
    assert n * (x / n + 1) == n * (x / n) + n;
    DivMod(x + n, n, x / n + 1, x % n);
  }

  /** Numbers at most one lap apart have the same remainder only if they are equal or exactly a lap apart. */
  lemma SameRemainder(x: nat, y: nat, n: nat)
    requires n > 0 && y <= x <= y + n
    ensures x % n == y % n <==> x == y || x == y + n
  {
    Lap(y, n);
    if x % n == y % n {
      var d := x / n - y / n;
      assert x - y == n * d by {
        assert n * (x / n - y / n) == n * (x / n) - n * (y / n);
      }
      Scale(n, d, -1);
      Scale(n, 2, d);
    }
  }

  lemma Spread(a: int, b: int, s: int, t: int)
    ensures a * (b * s + t) == (a * b) * s + a * t
  {
    assert a * (b * s) == (a * b) * s;
  }

  lemma DivDiv(x: nat, a: nat, b: nat)
    requires a > 0 && b > 0
    ensures a * b > 0 && x / a / b == x / (a * b)
  {
    var q, r := x / a, x % a;
    var s, t := q / b, q % b;
    Spread(a, b, s, t);
    Scale(a, t + 1, b);
    Spread(a, 1, t, 1);
    assert q == b * s + t && x == a * q + r;
    DivMod(x, a * b, s, a * t + r);
  }
}
