/** The Fibonacci numbers, as a specification: the classical sequence on the
    naturals, its extension to every integer index, and the identities that
    the fast-doubling computation relies on. */
module FibSpec {

  /** The classical Fibonacci sequence: F(0) = 0, F(1) = 1, F(n) = F(n-1) + F(n-2). */
  function Fib(n: nat): int
  {
    if n < 2 then n else Fib(n - 1) + Fib(n - 2)
  }

  /** The bidirectional extension, F(-n) = (-1)^(n+1) * F(n) for n > 0. */
  function FibInt(n: int): int
  {
    if n >= 0 then Fib(n)
    else if (-n) % 2 == 1 then Fib(-n)
    else -Fib(-n)
  }

  /** The sign rule as the source applies it to a negative index n, testing
      the parity of n itself (Python's `n & 1`). */
  lemma SignRule(n: int)
    requires n < 0
    ensures FibInt(n) == if n % 2 == 1 then FibInt(-n) else -FibInt(-n)
  {
    assert (-n) % 2 == n % 2;
  }

  /** The extension keeps the recurrence at every integer index, negative ones included. */
  lemma FibIntRecurrence(n: int)
    ensures FibInt(n + 2) == FibInt(n + 1) + FibInt(n)
  {
    if n <= -3 {
      var p := -n;
      assert Fib(p) == Fib(p - 1) + Fib(p - 2);
      if p % 2 == 1 {
        assert (p - 1) % 2 == 0 && (p - 2) % 2 == 1;
      } else {
        assert (p - 1) % 2 == 1 && (p - 2) % 2 == 0;
      }
    }
  }

  /** The recurrence at one integer index. */
  ghost predicate Recurs(f: int -> int, i: int)
  {
    f(i + 2) == f(i + 1) + f(i)
  }

  /** F(0) = 0, F(1) = 1 and the recurrence at every integer pin the sequence
      down: any such integer sequence is FibInt. */
  lemma {:induction false} RecurrenceDetermines(f: int -> int, n: int)
    requires f(0) == 0 && f(1) == 1
    requires forall i :: Recurs(f, i)
    ensures f(n) == FibInt(n)
    decreases if n >= 0 then n else 1 - n
  {
    if n >= 2 {
      RecurrenceDetermines(f, n - 1);
      RecurrenceDetermines(f, n - 2);
      assert Recurs(f, n - 2);
      FibIntRecurrence(n - 2);
    } else if n < 0 {
      RecurrenceDetermines(f, n + 1);
      RecurrenceDetermines(f, n + 2);
      assert Recurs(f, n);
      FibIntRecurrence(n);
    }
  }

  /** The addition law F(m + j) = F(m) * F(j + 1) + F(m - 1) * F(j). */
  lemma {:induction false} Addition(m: nat, j: nat)
    requires m >= 1
    ensures Fib(m + j) == Fib(m) * Fib(j + 1) + Fib(m - 1) * Fib(j)
    decreases j
  {
    if j == 0 {
      AdditionBase(m);
    } else if j == 1 {
      AdditionBase(m);
    } else {
      Addition(m, j - 1);
      Addition(m, j - 2);
      AdditionStep(m, j);
    }
  }

  /** The addition law at j = 0 and j = 1. */
  lemma AdditionBase(m: nat)
    requires m >= 1
    ensures Fib(m) == Fib(m) * Fib(1) + Fib(m - 1) * Fib(0)
    ensures Fib(m + 1) == Fib(m) * Fib(2) + Fib(m - 1) * Fib(1)
  {
    assert Fib(2) == 1 && Fib(1) == 1 && Fib(0) == 0;
  }

  /** One step of the induction behind Addition: the law at j - 1 and j - 2
      gives it at j. */
  lemma AdditionStep(m: nat, j: nat)
    requires m >= 1 && j >= 2
    requires Fib(m + (j - 1)) == Fib(m) * Fib(j - 1 + 1) + Fib(m - 1) * Fib(j - 1)
    requires Fib(m + (j - 2)) == Fib(m) * Fib(j - 2 + 1) + Fib(m - 1) * Fib(j - 2)
    ensures Fib(m + j) == Fib(m) * Fib(j + 1) + Fib(m - 1) * Fib(j)
  {
    assert Fib(m + j) == Fib(m + j - 1) + Fib(m + j - 2);
    assert Fib(j + 1) == Fib(j) + Fib(j - 1);
    assert Fib(j) == Fib(j - 1) + Fib(j - 2);
    Collect(Fib(m), Fib(m - 1), Fib(j + 1), Fib(j), Fib(j - 1), Fib(j - 2), Fib(m + j - 1), Fib(m + j - 2));
  }

  lemma Collect(x: int, y: int, t: int, u: int, v: int, w: int, p: int, q: int)
    requires p == x * u + y * v && q == x * v + y * w
    requires t == u + v && u == v + w
    ensures p + q == x * t + y * u
  {
  }

  /** The doubling identities in the form the loop uses, from the pair
      (a, b) = (F(k-1), F(k)): F(2k-1) = b² + a² and F(2k) = (a + b)² - a². */
  lemma DoublingIdentities(k: nat)
    requires k >= 1
    ensures Fib(2 * k - 1) == Fib(k) * Fib(k) + Fib(k - 1) * Fib(k - 1)
    ensures Fib(2 * k) == (Fib(k - 1) + Fib(k)) * (Fib(k - 1) + Fib(k)) - Fib(k - 1) * Fib(k - 1)
  {
    var a, b := Fib(k - 1), Fib(k);
    Addition(k, k - 1);
    assert Fib(2 * k - 1) == b * b + a * a;
    Addition(k, k);
    assert Fib(k + 1) == b + a;
    assert Fib(2 * k) == b * (b + a) + a * b;
    Square(a, b);
  }

  lemma Square(a: int, b: int)
    ensures b * (b + a) + a * b == (a + b) * (a + b) - a * a
  {
  }

  /** Values the module's documentation and the test suite expect, at the
      ends of the `tiny` and `negative` ranges. */
  lemma Examples()
    ensures Fib(10) == 55 && Fib(11) == 89
    ensures FibInt(0) == 0 && FibInt(1) == 1
    ensures FibInt(-1) == 1 && FibInt(-2) == -1
    ensures FibInt(-11) == 89 && FibInt(-12) == -144
  {
  }
}
