# fibonacci — fast doubling, modelled in Dafny

The library's one function, `fibonacci(n, cls)`, returns the n-th Fibonacci
number for any integer `n`, computed in whatever numeric type `cls` builds.

- For a negative `n` it applies the sign rule F(n) = ±F(-n). The sign depends on the parity of `n`.
- For `n` of 0 or 1 it returns `n` itself.
- Otherwise it runs the fast-doubling loop over the binary digits of `n` after the leading one.
  - The loop keeps the pair (a, b) = (F(k-1), F(k)), where k is the value of the digits read so far.
  - Each digit squares the pair into (F(2k-1), F(2k)).
  - A 1-digit then advances the pair once more, to (F(2k), F(2k+1)).

The same function is packaged twice, identically: `fibonacci.py:22-44` and
`src/fibonacci/__init__.py:22-44`. Both are modelled once, by module `Fibonacci`.

The modules:

- `FibSpec` (fib_spec.dfy) is the specification.
  - `Fib` is the classical sequence on the naturals.
  - `FibInt` extends it to every integer by the sign rule.
  - It proves that this extension is the only integer sequence with F(0) = 0, F(1) = 1 and the recurrence everywhere.
  - It proves the addition law and the two doubling identities the loop relies on.
- `Bits` (bits.dfy) models `bin(n)` as a digit sequence.
  - `ToBits(n)` gives the binary digits of n, most significant first, as a `seq<bool>`.
  - `Value` reads such a sequence back as a number.
  - `ToBits(n)[1..]` is the string `bin(n)[3:]` that the loop walks.
- `Rings` (rings.dfy) models the `cls` argument as a `Ring<T>`.
  - A `Ring<T>` is a record of `cls` itself (the map `of` from integers) together with `+`, binary `-`, `*` and unary `-` on the elements.
  - `IsHomomorphism` is the condition that these operations agree with integer arithmetic through `of`. Every ring has exactly one such map from the integers, so this is how the model says that `cls` implements `+`, `-` and `*` faithfully.
  - The module gives two instances: the integers (the default `cls = int`) and the residues modulo m (the `lambda n: mod(n, m)` of the test suite).
- `Fibonacci` (fibonacci.dfy) holds the algorithm as imperative Dafny.
  - The method `Fibonacci` covers the sign rule and the base cases.
  - The method `Doubling` is the `for` loop over the digits.
  - The method `Step` is the loop body.
  - The loop invariant is `PairAt(R, k, a, b)`, with k the value of the digits read so far.
- `Regression` (regression.dfy) holds the test suite's expectations.
  - It proves the `modulo` test's vector, F(79496847203390844133441536) mod 998244353 = 357977786.
  - `ResiduesOf(m, k)` is the loop on residues modulo m, written as recursion on the binary digits of k. `ResiduesOfFib` proves that it yields the residues of (F(k-1), F(k)).
  - Lemmas `Pass1` to `Pass86` evaluate `ResiduesOf` at the test's index one digit at a time. Each pass's arithmetic is a closed computation in a lemma `Residues1` to `Residues86` of its own.

## Model

| member | source | states |
|---|---|---|
| `FibSpec.SignRule` | fibonacci.py:33-34 | for n < 0, F(n) is F(-n) when `n & 1` is set (n odd) and -F(-n) otherwise, with the parity taken of n itself as the source does |
| `FibSpec.FibIntRecurrence` | src/fibonacci/__init__.py:33-34 | the sign-rule extension keeps F(n+2) = F(n+1) + F(n) at every integer, negative indices included |
| `FibSpec.RecurrenceDetermines` | fibonacci.py:33-36 | any integer sequence with f(0) = 0, f(1) = 1 and the recurrence at every integer equals the sign-rule extension, so the negative branch computes the Fibonacci numbers at negative indices |
| `FibSpec.Addition` | fibonacci.py:39-42 | the addition law F(m+j) = F(m)·F(j+1) + F(m-1)·F(j) for m ≥ 1, from which both loop updates follow |
| `FibSpec.DoublingIdentities` | fibonacci.py:39-40 | for k ≥ 1, F(2k-1) = F(k)² + F(k-1)² and F(2k) = (F(k-1)+F(k))² - F(k-1)², the two expressions the loop computes from a and b |
| `FibSpec.Examples` | fibonacci.py:10-12 | F(10) = 55 as the documentation shows, and the values at the ends of the `tiny` and `negative` ranges: F(-1) = 1, F(-2) = -1 and F(-12) = -144 |
| `Bits.ToBits` | fibonacci.py:38 | the digit sequence standing for `bin(n)` read back as a number is n, so a loop over all digits ends with the prefix value k equal to n |
| `Bits.LeadingOne` | src/fibonacci/__init__.py:37-38 | the digits of n ≥ 1 start with a 1, whose prefix value is 1: the digit `bin(n)[3:]` drops, which is why the loop starts from k = 1 with (0, 1) |
| `Bits.BitLength` | fibonacci.py:38 | the digit sequence of n ≥ 1 has the bit length of n: 2^(len-1) ≤ n < 2^len |
| `Bits.PrefixStep` | fibonacci.py:38-42 | reading one more digit c turns the prefix value k into 2k + c |
| `Rings.IntRing` | fibonacci.py:22 | Python's `int`, the default `cls`, maps each integer to itself and implements the arithmetic the algorithm uses faithfully (`IsHomomorphism`) |
| `Rings.ModRing` | fibonacci.py:134 | `lambda n: mod(n, m)` for m > 0: every image `cls(x)` and every result of +, binary -, * and unary - is a residue in [0, m) |
| `Rings.ModRingIsHomomorphism` | fibonacci.py:132-134 | arithmetic on residues modulo m > 0, each operation reduced by `% m`, agrees with integer arithmetic reduced modulo m for +, -, * and unary - |
| `Fibonacci.DoubleStep` | fibonacci.py:39-40 | the simultaneous update `s = a**2; a, b = b**2 + s, (a + b)**2 - s`, computed from the values before the update, maps the pair for k to the pair for 2k in any ring that satisfies `IsHomomorphism` |
| `Fibonacci.AdvanceStep` | fibonacci.py:41-42 | on a 1-digit, `a, b = b, a + b` maps the pair for 2k to the pair for 2k + 1 |
| `Fibonacci.Step` | src/fibonacci/__init__.py:39-42 | one pass of the loop body over digit c takes the pair for k to the pair for 2k + c |
| `Fibonacci.Fibonacci` | fibonacci.py:22-44 | for every integer n and every `cls` that satisfies `IsHomomorphism`, the result is `cls` applied to F(n) (sign rule for n < 0, by one call on -n > 0); the loop runs no passes for -2 < n < 2 and bitlength(abs(n)) - 1 passes otherwise |
| `Fibonacci.Doubling` | src/fibonacci/__init__.py:37-44 | for n ≥ 2 the loop over `bin(n)[3:]`, started from (`cls(0)`, `cls(1)`), returns `cls(F(n))` after one pass per digit after the leading one, keeping (a, b) = (F(k-1), F(k)) for the prefix k read so far |
| `Fibonacci.FibonacciOverInt` | src/fibonacci/__init__.py:22-44 | with the default `cls = int`, the result is exactly F(n) for every integer n |
| `Fibonacci.FibonacciModulo` | fibonacci.py:37-44 | with `cls` reducing modulo m > 0, the result is F(n) mod m, a residue in [0, m) |
| `Regression.ResiduePass` | fibonacci.py:38-42 | one pass of the loop computed on residues modulo m (digit c) takes the residues of (F(k-1), F(k)) to those of the pair for 2k + c |
| `Regression.ResiduesOfFib` | fibonacci.py:37-44 | the loop on residues modulo m, started from (`cls(0)`, `cls(1)`) and run over the digits of k after the leading one, ends with the residues of (F(k-1), F(k)), for every m > 0 and k ≥ 1 |
| `Regression.ResidueDouble` | src/fibonacci/__init__.py:39-40 | the squaring update on residues modulo m gives the residues of (F(2k-1), F(2k)) |
| `Regression.ResidueAdvance` | src/fibonacci/__init__.py:41-42 | the advance on residues modulo m gives the residues of (F(k), F(k+1)) |
| `Regression.ModuloVector` | fibonacci.py:132-134 | F(79496847203390844133441536) mod 998244353 = 357977786 |
| `Regression.ModuloTest` | src/fibonacci/__main__.py:90-93 | `fibonacci(79496847203390844133441536, lambda n: mod(n, 998244353))` returns 357977786, as the `modulo` test asserts |
| `Regression.DocExample` | src/fibonacci/__init__.py:10-12 | `fibonacci(10)` returns 55, as the module documentation shows |

## Left out

- Fibonacci.Fibonacci: for n = 0 and n = 1 the source returns the plain integer `n`, not `cls(n)`, and for n = -1 it returns `fibonacci(1, cls)`, the plain integer 1. The model returns `R.of(n)` and `R.of(1)`, the images in the ring. The two differ only in type, except for the modulus 1, where `R.of(1)` is 0 and the source returns 1.
- Fibonacci.FibonacciModulo: for the same reason, at m = 1 and n = 1 or n = -1 the source returns the integer 1, which is not a residue in [0, 1). The model returns 0 there.
- Fibonacci.Doubling: the shift `n >>= 1` is kept as a local that is halved on every pass and never read. The loop is driven by the digit sequence fixed before it starts, as in the source, so the model makes no statement about the shifted value.
- The function is split into a method per level: the sign rule, the digit loop and the loop body. The split is for verification and does not change the order of operations.
- That the recursion for n < 0 is one level deep is stated by the `decreases` clause of `Fibonacci.Fibonacci`, since the argument of the recursive call is -n > 0. It is not a postcondition.
- `bin(n)` is modelled by the digit sequence `ToBits(n)`, not by string formatting. `bin(n)[3:]` is `ToBits(n)[1..]`.
- Operations on `cls` are total functions on its elements. Errors raised, or results that depend on a number's type, are not modelled.
- `Decimal` under a `localcontext` of maximal precision, used by the `decimal` and `large_decimal` tests, is not modelled. Its arithmetic depends on a context precision.
- The external `modulo.mod` type is not modelled. The residues modulo m are modelled directly by `Rings.ModRing`: integers in [0, m) with every operation followed by `% m`.
- The test harness is not modelled: the `Test` class, the asynchronous runner, the timeouts, timing and printing. Neither are the `sympy` oracle and the random indices of the `large` and `huge` tests. The model proves the result for every index against `FibSpec.Fib` instead.
- Running time (the O(log n) behaviour) is not modelled. Only the number of loop passes is stated.
