/** clamp_dim: texture sides are cut down to a power of two. */
module Dims {
  import opened Common

  /** 1, 2, 4, 8, ... */
  predicate IsPow2(n: int)
    decreases if n < 0 then 0 else n
  {
    n == 1 || (n > 1 && n % 2 == 0 && IsPow2(n / 2))
  }

  /** Reference definition: the largest power of two not above dim, or 0 when there is none. */
  function Pow2Floor(dim: int): (r: int)
    ensures r >= 0
    ensures dim >= 1 ==> r >= 1
    decreases if dim < 0 then 0 else dim
  {
    if dim < 1 then 0 else if dim == 1 then 1 else 2 * Pow2Floor(dim / 2)
  }

  /** Pow2Floor(dim) is a power of two r with r <= dim < 2r. */
  lemma {:induction false} Pow2FloorBounds(dim: int)
    requires dim >= 1
    ensures IsPow2(Pow2Floor(dim))
    ensures Pow2Floor(dim) <= dim < 2 * Pow2Floor(dim)
    decreases dim
  {
    if dim > 1 {
      Pow2FloorBounds(dim / 2);
      var q := Pow2Floor(dim / 2);
      assert Pow2Floor(dim) == 2 * q;
      assert (2 * q) / 2 == q;
    }
  }

  /** There is only one power of two r with r <= dim < 2r. */
  lemma {:induction false} Pow2FloorUnique(r: int, dim: int)
    requires IsPow2(r) && r <= dim < 2 * r
    ensures r == Pow2Floor(dim)
    decreases r
  {
    if r != 1 {
      var q := r / 2;
      assert r == 2 * q;
      assert q <= dim / 2 < 2 * q;
      Pow2FloorUnique(q, dim / 2);
    }
  }

  /** clamp_dim (include/lib.hpp, and its copy in include/_v1/load_tex.h): double a power of two
      until it passes dim, then halve it once. */
  method ClampDim(dim: int) returns (r: int)
    requires INT_MIN <= dim < 0x4000_0000  // from 2^30 on, `_dim *= 2` overflows int
    ensures dim < 1 ==> r == 0
    ensures dim >= 1 ==> IsPow2(r) && r <= dim < 2 * r
    ensures r == Pow2Floor(dim)
  {
    var d := 1;
    while true
      invariant IsPow2(d)
      invariant d == 1 || d / 2 <= dim
      decreases dim - d
    {
      if d > dim {
        break;
      }
      assert d * 2 <= INT_MAX;
      assert (d * 2) / 2 == d;
      d := d * 2;
    }
    r := d / 2;
    if dim >= 1 {
      Pow2FloorUnique(r, dim);
    }
  }

  /** Clamping a clamped side changes nothing. */
  lemma ClampIdempotent(dim: int)
    requires dim >= 1
    ensures Pow2Floor(Pow2Floor(dim)) == Pow2Floor(dim)
  {
    var r := Pow2Floor(dim);
    Pow2FloorBounds(dim);
    Pow2FloorUnique(r, r);
  }

  /** A larger side never clamps to a smaller power of two. */
  lemma {:induction false} ClampMonotone(d1: int, d2: int)
    requires d1 <= d2
    ensures Pow2Floor(d1) <= Pow2Floor(d2)
    decreases if d2 < 0 then 0 else d2
  {
    if d1 >= 2 {
      ClampMonotone(d1 / 2, d2 / 2);
    }
  }
}
