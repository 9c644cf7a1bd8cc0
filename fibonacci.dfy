/** `fibonacci(n, cls)`: the n-th Fibonacci number by fast doubling over the
    binary digits of n, in any numeric type, with negative indices handled
    by the sign rule. */
module Fibonacci {
  import opened FibSpec
  import opened Bits
  import opened Rings

  /** The loop's pair (a, b) stands for (F(k-1), F(k)) in R. */
  ghost predicate PairAt<T>(R: Ring<T>, k: nat, a: T, b: T)
    requires k >= 1
  {
    a == R.of(Fib(k - 1)) && b == R.of(Fib(k))
  }

  /** The squaring half of the loop body: from the pair for k it computes the
      pair for 2k, both updates reading the same a and b. */
  lemma DoubleStep<T>(R: Ring<T>, k: nat, a: T, b: T)
    requires IsHomomorphism(R) && k >= 1 && PairAt(R, k, a, b)
    ensures PairAt(R, 2 * k, R.add(R.mul(b, b), R.mul(a, a)), R.sub(R.mul(R.add(a, b), R.add(a, b)), R.mul(a, a)))
  {
    DoublingIdentities(k);
    var x, y := Fib(k - 1), Fib(k);
    assert R.mul(a, a) == R.of(x * x);
    assert R.mul(b, b) == R.of(y * y);
    assert R.add(a, b) == R.of(x + y);
    assert R.mul(R.of(x + y), R.of(x + y)) == R.of((x + y) * (x + y));
  }

  /** The advance on a 1-digit: (b, a + b) is the pair for k + 1. */
  lemma AdvanceStep<T>(R: Ring<T>, k: nat, a: T, b: T)
    requires IsHomomorphism(R) && k >= 1 && PairAt(R, k, a, b)
    ensures PairAt(R, k + 1, b, R.add(a, b))
  {
    assert R.add(R.of(Fib(k - 1)), R.of(Fib(k))) == R.of(Fib(k - 1) + Fib(k));
  }

  /** The body of the loop for one binary digit `c` (lines 39-42): square
      into the pair for 2k, then on a 1-digit advance to the pair for 2k + 1. */
  method Step<T>(R: Ring<T>, a0: T, b0: T, c: bool, ghost k: nat) returns (a: T, b: T)
    requires IsHomomorphism(R) && k >= 1 && PairAt(R, k, a0, b0)
    ensures PairAt(R, 2 * k + (if c then 1 else 0), a, b)
  {
    a, b := a0, b0;
    DoubleStep(R, k, a, b);
    var s := R.mul(a, a);
    a, b := R.add(R.mul(b, b), s), R.sub(R.mul(R.add(a, b), R.add(a, b)), s);
    if c {
      AdvanceStep(R, 2 * k, a, b);
      a, b := b, R.add(a, b);
    }
  }

  /** F(n) in the numeric type R, for every integer n. `steps` counts the
      iterations of the doubling loop: none for |n| < 2, otherwise one per
      binary digit of |n| after the leading one. */
  method Fibonacci<T>(n: int, R: Ring<T>) returns (r: T, ghost steps: nat)
    requires IsHomomorphism(R)
    ensures r == R.of(FibInt(n))
    ensures steps == if -2 < n < 2 then 0 else |ToBits(if n < 0 then -n else n)| - 1
    decreases if n < 0 then 1 else 0
  {
    if n < 0 {
      // one call on the magnitude, which is positive, so the recursion stops there
      r, steps := Fibonacci(-n, R);
      // Python's `n & 1` on a negative n is its parity, which is `n % 2` here
      SignRule(n);
      if n % 2 != 1 {
        r := R.neg(r);
      }
      return;
    }
    if n < 2 {
      // the source returns the plain integer n; in R that is the image of n
      return R.of(n), 0;
    }
    r, steps := Doubling(n, R);
  }

  /** The fast-doubling loop for n >= 2: one pass per binary digit of n
      after the leading one, keeping the pair for the digits read so far. */
  method Doubling<T>(n: nat, R: Ring<T>) returns (r: T, ghost steps: nat)
    requires IsHomomorphism(R) && n >= 2
    ensures r == R.of(Fib(n))
    ensures steps == |ToBits(n)| - 1
  {
    var a, b := R.of(0), R.of(1);
    var digits := ToBits(n);
    LeadingOne(n);
    ghost var k: nat := 1;
    steps := 0;
    var shifted := n;
    for i := 1 to |digits|
      invariant k >= 1 && k == Value(digits[..i])
      invariant PairAt(R, k, a, b)
      invariant steps == i - 1
    {
      a, b := Step(R, a, b, digits[i], k);
      k := 2 * k + (if digits[i] then 1 else 0);
      PrefixStep(digits, i);
      // the source also shifts n right; the loop is driven by the digit string, so this is never read
      shifted := shifted / 2;
      steps := steps + 1;
    }
    ValueToBits(n);
    r := b;
  }

  /** `fibonacci(n)` with the default `cls = int`: the exact Fibonacci number. */
  method FibonacciOverInt(n: int) returns (r: int)
    ensures r == FibInt(n)
  {
    ghost var steps: nat;
    r, steps := Fibonacci(n, IntRing());
  }

  /** `fibonacci(n, lambda n: mod(n, m))`: the Fibonacci number reduced modulo m. */
  method FibonacciModulo(n: int, m: int) returns (r: int)
    requires m > 0
    ensures r == FibInt(n) % m
    ensures 0 <= r < m
  {
    ModRingIsHomomorphism(m);
    ghost var steps: nat;
    r, steps := Fibonacci(n, ModRing(m));
  }
}
