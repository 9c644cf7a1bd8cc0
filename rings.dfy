/** The numeric capabilities that `fibonacci` asks of its `cls` argument,
    and the two instantiations its users pass: the integers themselves and
    the integers modulo m. */
module Rings {

  /** A numeric type as the algorithm sees it. `of` builds an element from an
      integer (the source calls `cls(0)` and `cls(1)`); `add`, `sub`, `mul`
      and `neg` are Python's `+`, binary `-`, `*` (so also `**2`) and unary `-`
      on the elements. */
  datatype Ring<!T> = Ring(
    of: int -> T,
    add: (T, T) -> T,
    sub: (T, T) -> T,
    mul: (T, T) -> T,
    neg: T -> T)

  /** The operations agree with integer arithmetic through `of`: the
      elements are the images of integers and the operations compute the
      images of the integer results. Every ring has exactly one such map from
      the integers, so this is the condition "the supplied type implements
      +, -, * faithfully". */
  ghost predicate IsHomomorphism<T>(R: Ring<T>)
  {
    (forall x: int, y: int {:trigger R.add(R.of(x), R.of(y))} :: R.add(R.of(x), R.of(y)) == R.of(x + y)) &&
    (forall x: int, y: int {:trigger R.sub(R.of(x), R.of(y))} :: R.sub(R.of(x), R.of(y)) == R.of(x - y)) &&
    (forall x: int, y: int {:trigger R.mul(R.of(x), R.of(y))} :: R.mul(R.of(x), R.of(y)) == R.of(x * y)) &&
    (forall x: int {:trigger R.neg(R.of(x))} :: R.neg(R.of(x)) == R.of(-x))
  }

  /** Python's `int`, the default `cls`: each integer is its own image, and
      the native operations implement the arithmetic faithfully. */
  function IntRing(): (r: Ring<int>)
    ensures IsHomomorphism(r)
    ensures forall x: int {:trigger r.of(x)} :: r.of(x) == x
  {
    Ring(x => x, (x, y) => x + y, (x, y) => x - y, (x, y) => x * y, x => -x)
  }

  /** The integers modulo m, each element kept as its least non-negative
      residue: the `lambda n: mod(n, m)` that the test suite passes. */
  function ModRing(m: int): (r: Ring<int>)
    requires m > 0
    ensures forall x: int {:trigger r.of(x)} :: 0 <= r.of(x) < m
    ensures forall x: int, y: int {:trigger r.add(x, y)} :: 0 <= r.add(x, y) < m
    ensures forall x: int, y: int {:trigger r.sub(x, y)} :: 0 <= r.sub(x, y) < m
    ensures forall x: int, y: int {:trigger r.mul(x, y)} :: 0 <= r.mul(x, y) < m
    ensures forall x: int {:trigger r.neg(x)} :: 0 <= r.neg(x) < m
  {
    Ring(x => x % m, (x, y) => (x + y) % m, (x, y) => (x - y) % m, (x, y) => (x * y) % m, x => (-x) % m)
  }

  /** Adding a multiple of m does not change the residue. */
  lemma ModShift(q: int, m: int, z: int)
    requires m > 0
    ensures (q * m + z) % m == z % m
  {
    var r := z % m;
    var d := z / m;
    assert z == d * m + r;
    assert q * m + z == (q + d) * m + r;
    DivisionUnique(q * m + z, m, q + d, r);
  }

  /** Euclidean division by m > 0 has one quotient and one remainder. */
  lemma DivisionUnique(x: int, m: int, d: int, r: int)
    requires m > 0 && 0 <= r < m && x == d * m + r
    ensures x % m == r
  {
    var d0, r0 := x / m, x % m;
    assert x == d0 * m + r0 && 0 <= r0 < m;
    assert (d - d0) * m == d * m - d0 * m;
    MultipleBound(d - d0, m);
  }

  /** The only multiple of m strictly between -m and m is 0. */
  lemma MultipleBound(e: int, m: int)
    requires m > 0 && -m < e * m < m
    ensures e == 0
  {
  }

  /** Reduction modulo m commutes with +, -, * and unary -. */
  lemma ModAdd(m: int, x: int, y: int)
    requires m > 0
    ensures (x % m + y % m) % m == (x + y) % m
  {
    var qx, qy := x / m, y / m;
    assert x + y == (qx + qy) * m + (x % m + y % m);
    ModShift(qx + qy, m, x % m + y % m);
  }

  lemma ModSub(m: int, x: int, y: int)
    requires m > 0
    ensures (x % m - y % m) % m == (x - y) % m
  {
    var qx, qy := x / m, y / m;
    assert x - y == (qx - qy) * m + (x % m - y % m);
    ModShift(qx - qy, m, x % m - y % m);
  }

  lemma ModNeg(m: int, x: int)
    requires m > 0
    ensures (-(x % m)) % m == (-x) % m
  {
    var qx := x / m;
    assert -x == (-qx) * m + (-(x % m));
    ModShift(-qx, m, -(x % m));
  }

  lemma ModMul(m: int, x: int, y: int)
    requires m > 0
    ensures (x % m * (y % m)) % m == (x * y) % m
  {
    var qx, rx := x / m, x % m;
    var qy, ry := y / m, y % m;
    var c := qx * qy * m + qx * ry + rx * qy;
    assert x * y == c * m + rx * ry by {
      assert x == qx * m + rx && y == qy * m + ry;
      ExpandProduct(qx, rx, qy, ry, m);
    }
    ModShift(c, m, rx * ry);
  }

  lemma ExpandProduct(qx: int, rx: int, qy: int, ry: int, m: int)
    ensures (qx * m + rx) * (qy * m + ry) == (qx * qy * m + qx * ry + rx * qy) * m + rx * ry
  {
  }

  lemma ModRingIsHomomorphism(m: int)
    requires m > 0
    ensures IsHomomorphism(ModRing(m))
  {
    ModRingAdds(m);
    ModRingSubtracts(m);
    ModRingMultiplies(m);
    ModRingNegates(m);
  }

  lemma ModRingAdds(m: int)
    requires m > 0
    ensures forall x: int, y: int {:trigger ModRing(m).add(ModRing(m).of(x), ModRing(m).of(y))} ::
      ModRing(m).add(ModRing(m).of(x), ModRing(m).of(y)) == ModRing(m).of(x + y)
  {
    forall x: int, y: int
      ensures ModRing(m).add(ModRing(m).of(x), ModRing(m).of(y)) == ModRing(m).of(x + y)
    {
      ModAdd(m, x, y);
    }
  }

  lemma ModRingSubtracts(m: int)
    requires m > 0
    ensures forall x: int, y: int {:trigger ModRing(m).sub(ModRing(m).of(x), ModRing(m).of(y))} ::
      ModRing(m).sub(ModRing(m).of(x), ModRing(m).of(y)) == ModRing(m).of(x - y)
  {
    forall x: int, y: int
      ensures ModRing(m).sub(ModRing(m).of(x), ModRing(m).of(y)) == ModRing(m).of(x - y)
    {
      ModSub(m, x, y);
    }
  }

  lemma ModRingMultiplies(m: int)
    requires m > 0
    ensures forall x: int, y: int {:trigger ModRing(m).mul(ModRing(m).of(x), ModRing(m).of(y))} ::
      ModRing(m).mul(ModRing(m).of(x), ModRing(m).of(y)) == ModRing(m).of(x * y)
  {
    forall x: int, y: int
      ensures ModRing(m).mul(ModRing(m).of(x), ModRing(m).of(y)) == ModRing(m).of(x * y)
    {
      ModMul(m, x, y);
    }
  }

  lemma ModRingNegates(m: int)
    requires m > 0
    ensures forall x: int {:trigger ModRing(m).neg(ModRing(m).of(x))} ::
      ModRing(m).neg(ModRing(m).of(x)) == ModRing(m).of(-x)
  {
    forall x: int
      ensures ModRing(m).neg(ModRing(m).of(x)) == ModRing(m).of(-x)
    {
      ModNeg(m, x);
    }
  }
}
