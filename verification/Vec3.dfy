/** Triples indexed by dimension 0, 1, 2, and the C cast from real to int. */
module Vec3 {

  datatype V3<T> = V3(x: T, y: T, z: T) {
    /** Component d; the `if (idim == 0) ... x` chains of the program. */
    function At(d: nat): T
      requires d < 3
    {
      if d == 0 then x else if d == 1 then y else z
    }

    function Set(d: nat, v: T): V3<T>
      requires d < 3
    {
      if d == 0 then this.(x := v) else if d == 1 then this.(y := v) else this.(z := v)
    }
  }

  type Vec = V3<real>

  /** The cast `(int) r`: rounds toward zero. */
  function Trunc(r: real): int {
    if r >= 0.0 then r.Floor else -((-r).Floor)
  }

  function Min(a: real, b: real): real { if a < b then a else b }

  function Max(a: real, b: real): real { if a > b then a else b }

  /** n copies of r. */
  function Mul(n: int, r: real): real { n as real * r }

  lemma MulAdd(a: int, b: int, r: real)
    ensures Mul(a + b, r) == Mul(a, r) + Mul(b, r)
  {}

  lemma MulMono(a: int, b: int, r: real)
    requires r > 0.0
    ensures a < b <==> Mul(a, r) < Mul(b, r)
    ensures a <= b <==> Mul(a, r) <= Mul(b, r)
  {}

  lemma TruncBounds(r: real)
    ensures r >= 0.0 ==> 0.0 <= Trunc(r) as real <= r < (Trunc(r) + 1) as real
    ensures r <= 0.0 ==> (Trunc(r) - 1) as real < r <= Trunc(r) as real <= 0.0
  {}
}
