/** Facts about numbers written with a quotient and a remainder digit. */
module Digits {

  lemma MulMono(n: int, x: int, y: int)
    requires n >= 0 && x <= y
    ensures n * x <= n * y
  {
  }

  lemma MulSucc(n: int, x: int)
    ensures n * (x + 1) == n * x + n
  {
  }

  /** The two digits of a number are determined by it. */
  lemma DigitsUnique(a: int, b: int, n: int, r: int, s: int)
    requires 0 <= r < n && 0 <= s < n && n * a + r == n * b + s
    ensures a == b && r == s
  {
    if a < b {
      MulMono(n, a + 1, b);
      MulSucc(n, a);
    }
    if b < a {
      MulMono(n, b + 1, a);
      MulSucc(n, b);
    }
  }

  lemma DivModOfDigits(high: int, low: int, lows: int)
    requires 0 <= low < lows
    ensures (lows * high + low) / lows == high
    ensures (lows * high + low) % lows == low
  {
    var x := lows * high + low;
    assert x == lows * (x / lows) + x % lows;
    DigitsUnique(x / lows, high, lows, x % lows, low);
  }

  lemma Recompose(x: int, n: int)
    requires n > 0
    ensures x == n * (x / n) + x % n && 0 <= x % n < n
  {
  }

  lemma DivModIs(x: int, q: int, r: int, n: int)
    requires 0 <= r < n && x == n * q + r
    ensures x / n == q && x % n == r
  {
    DivModOfDigits(q, r, n);
  }

  /** A two-digit number stays below the product of its radices. */
  lemma DigitsBelow(high: int, highs: int, low: int, lows: int)
    requires 0 <= high < highs && 0 <= low < lows
    ensures 0 <= high * lows + low < highs * lows
  {
    MulMono(lows, high + 1, highs);
    MulSucc(lows, high);
    MulMono(lows, 0, high);
    assert high * lows == lows * high && highs * lows == lows * highs;
  }

  /** How quotient and remainder move when the number grows by one. */
  lemma SuccDivMod(k: int, n: int)
    requires n > 0
    ensures (k + 1) % n == (k % n + 1) % n
    ensures (k + 1) % n == 0 ==> (k + 1) / n == k / n + 1
    ensures (k + 1) % n != 0 ==> (k + 1) / n == k / n
  {
    SuccDigits(k, k / n, k % n, n);
  }

  lemma SuccDigits(k: int, q: int, r: int, n: int)
    requires 0 <= r < n && k == n * q + r
    ensures (k + 1) % n == (r + 1) % n
    ensures (k + 1) % n == 0 ==> (k + 1) / n == q + 1
    ensures (k + 1) % n != 0 ==> (k + 1) / n == q
  {
    if r + 1 < n {
      DivModIs(k + 1, q, r + 1, n);
      DivModIs(r + 1, 0, r + 1, n);
    } else {
      MulSucc(n, q);
      DivModIs(k + 1, q + 1, 0, n);
      DivModIs(r + 1, 1, 0, n);
    }
  }

  /** The least quotient at which a number with last digit `low` is not below `start`. */
  function FirstQuotient(start: int, n: int, low: int): int
    requires n > 0
  {
    if low >= start % n then start / n else start / n + 1
  }

  /** Among n*m consecutive numbers, those with last digit `low` have m consecutive quotients. */
  lemma QuotientWindow(start: int, n: int, m: int, low: int, x: int)
    requires 0 <= low < n && m > 0
    ensures start <= n * x + low < start + n * m <==> FirstQuotient(start, n, low) <= x < FirstQuotient(start, n, low) + m
  {
    var q, r := start / n, start % n;
    var t := FirstQuotient(start, n, low);
    assert start == n * q + r;
    assert n * (t + m) == n * t + n * m;
    MulSucc(n, q);
    if x < t {
      MulMono(n, x + 1, t);
      MulSucc(n, x);
    } else if x >= t + m {
      MulMono(n, t + m, x);
    } else {
      MulMono(n, t, x);
      MulMono(n, x + 1, t + m);
      MulSucc(n, x);
    }
  }
}
