/** Facts about remainders, used for circular arrays whose size is not a constant. */
module Modular {

  lemma MulGrows(k: int, n: int)
    requires n > 0
    ensures k >= 1 ==> k * n >= n
    ensures k <= -1 ==> k * n <= -n
  {
    if k >= 1 {
      assert (k - 1) * n >= 0;
    } else if k <= -1 {
      assert (-1 - k) * n >= 0;
    }
  }

  lemma RemUnique(a: int, q: int, r: int, n: int)
    requires n > 0 && a == q * n + r && 0 <= r < n
    ensures a % n == r && a / n == q
  {
    var d := q - a / n;
    assert d * n == a % n - r;
    MulGrows(d, n);
  }

  /** Adding before or after taking the remainder. */
  lemma RemAdd(a: int, d: int, n: int)
    requires n > 0
    ensures (a % n + d) % n == (a + d) % n
  {
    var x := a % n + d;
    assert a + d == (a / n + x / n) * n + x % n;
    RemUnique(a + d, a / n + x / n, x % n, n);
  }

  /** Fewer than n consecutive numbers have distinct remainders. */
  lemma RemDistinct(a: int, b: int, n: int)
    requires n > 0 && a < b < a + n
    ensures a % n != b % n
  {
    MulGrows(b / n - a / n, n);
    assert (b / n - a / n) * n == b - a - (b % n - a % n);
  }

  lemma RemSmall(a: int, n: int)
    requires 0 <= a < n
    ensures a % n == a
  {
    RemUnique(a, 0, a, n);
  }

  /** Going round once. */
  lemma RemCycle(a: int, n: int)
    requires n > 0
    ensures (a + n) % n == a % n
  {
    RemUnique(a + n, a / n + 1, a % n, n);
  }

  /** Subtracting before or after taking remainders. */
  lemma RemSubtract(a: int, b: int, n: int)
    requires n > 0
    ensures (a % n - b % n) % n == (a - b) % n
  {
    var x := a % n - b % n;
    assert a - b == (a / n - b / n + x / n) * n + x % n;
    RemUnique(a - b, a / n - b / n + x / n, x % n, n);
  }
}
