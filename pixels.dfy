/** Colour samples with three real-valued channels and the distance between them. */
module Pixels {

  /** One colour sample (a `struct pixel`): three channel values. */
  datatype Pixel = Pixel(r: real, g: real, b: real)

  const Zero := Pixel(0.0, 0.0, 0.0)

  function Add(p: Pixel, q: Pixel): Pixel {
    Pixel(p.r + q.r, p.g + q.g, p.b + q.b)
  }

  function Sub(p: Pixel, q: Pixel): Pixel {
    Pixel(p.r - q.r, p.g - q.g, p.b - q.b)
  }

  /** Channel-wise division of an accumulated sum by a (positive) count. */
  function Div(p: Pixel, n: nat): Pixel
    requires n > 0
  {
    Pixel(p.r / n as real, p.g / n as real, p.b / n as real)
  }

  /** A product of two reals of the same strict sign is positive. */
  function Mul(a: real, b: real): (r: real)
    ensures (a > 0.0 && b > 0.0) || (a < 0.0 && b < 0.0) ==> r > 0.0
  {
    a * b
  }

  function Sq(x: real): (y: real)
    ensures y >= 0.0
    ensures x != 0.0 ==> y > 0.0
  {
    Mul(x, x)
  }

  /**
   * The squared Euclidean distance. The source returns its square root; since
   * distances are only compared with each other, SqrtOrder shows that the
   * squared form orders every pair of distances exactly as the root does.
   */
  function Dist(p: Pixel, q: Pixel): (d: real)
    ensures d >= 0.0
    ensures p == q ==> d == 0.0
  {
    Sq(p.r - q.r) + Sq(p.g - q.g) + Sq(p.b - q.b)
  }

  lemma DistSymmetric(p: Pixel, q: Pixel)
    ensures Dist(p, q) == Dist(q, p)
  {
    assert Sq(p.r - q.r) == Sq(q.r - p.r);
    assert Sq(p.g - q.g) == Sq(q.g - p.g);
    assert Sq(p.b - q.b) == Sq(q.b - p.b);
  }

  lemma MulPos(a: real, b: real)
    requires a > 0.0 && b > 0.0
    ensures a * b > 0.0
  {
  }

  /** Distinct pixels lie at a positive distance. */
  lemma DistPositive(p: Pixel, q: Pixel)
    requires p != q
    ensures Dist(p, q) > 0.0
  {
  }

  /** `s` is the (non-negative) square root of `x`. */
  predicate IsSqrt(s: real, x: real) {
    s >= 0.0 && s * s == x
  }

  /** Comparing two square roots gives the same answer as comparing their squares. */
  lemma SqrtOrder(s1: real, x1: real, s2: real, x2: real)
    requires IsSqrt(s1, x1) && IsSqrt(s2, x2)
    ensures s1 < s2 <==> x1 < x2
    ensures s1 == s2 <==> x1 == x2
  {
    var d, t := s2 - s1, s2 + s1;
    assert x2 - x1 == d * t;
    if s1 < s2 {
      MulPos(d, t);
    } else if s2 < s1 {
      MulPos(-d, t);
      assert (-d) * t == -(d * t);
    }
  }

  /** The pixels of a flat buffer that stores pixel `d` at indices `3*d`, `3*d+1`, `3*d+2`. */
  function Unflatten(flat: seq<real>, n: nat): (ps: seq<Pixel>)
    requires 3 * n <= |flat|
    ensures |ps| == n
  {
    seq(n, d requires 0 <= d < n => Pixel(flat[3 * d], flat[3 * d + 1], flat[3 * d + 2]))
  }

  /** Channel `k` (0, 1 or 2) of a pixel. */
  function Channel(p: Pixel, k: nat): real
    requires k < 3
  {
    if k == 0 then p.r else if k == 1 then p.g else p.b
  }

  /** The flat buffer layout of a sequence of pixels. */
  function Flatten(ps: seq<Pixel>): (flat: seq<real>)
    ensures |flat| == 3 * |ps|
  {
    seq(3 * |ps|, k requires 0 <= k < 3 * |ps| => Channel(ps[k / 3], k % 3))
  }

  lemma FlattenAt(ps: seq<Pixel>, d: nat)
    requires d < |ps|
    ensures Flatten(ps)[3 * d] == ps[d].r
    ensures Flatten(ps)[3 * d + 1] == ps[d].g
    ensures Flatten(ps)[3 * d + 2] == ps[d].b
  {
    assert (3 * d) / 3 == d && (3 * d) % 3 == 0;
    assert (3 * d + 1) / 3 == d && (3 * d + 1) % 3 == 1;
    assert (3 * d + 2) / 3 == d && (3 * d + 2) % 3 == 2;
  }

  /** Reading a flattened buffer back gives the original pixels. */
  lemma UnflattenFlatten(ps: seq<Pixel>)
    ensures Unflatten(Flatten(ps), |ps|) == ps
  {
    var qs := Unflatten(Flatten(ps), |ps|);
    forall d | 0 <= d < |ps|
      ensures qs[d] == ps[d]
    {
      FlattenAt(ps, d);
    }
  }

  /** Flattening the pixels of a buffer of exactly `3*n` values gives the buffer back. */
  lemma FlattenUnflatten(flat: seq<real>, n: nat)
    requires |flat| == 3 * n
    ensures Flatten(Unflatten(flat, n)) == flat
  {
    var ps := Unflatten(flat, n);
    forall k | 0 <= k < |flat|
      ensures Flatten(ps)[k] == flat[k]
    {
      var d := k / 3;
      assert k == 3 * d + k % 3;
    }
  }

  /**
   * `flat` holds exactly the pixels `ps`, pixel `d` at indices `3*d`, `3*d+1`
   * and `3*d+2`.
   */
  predicate Stores(flat: seq<real>, ps: seq<Pixel>) {
    && |flat| == 3 * |ps|
    && forall d :: 0 <= d < |ps| ==> flat[3 * d] == ps[d].r && flat[3 * d + 1] == ps[d].g && flat[3 * d + 2] == ps[d].b
  }

  /** A buffer stores `ps` exactly when it has room for them and reads back as `ps`. */
  lemma StoresIsUnflatten(flat: seq<real>, ps: seq<Pixel>)
    ensures Stores(flat, ps) <==> |flat| == 3 * |ps| && Unflatten(flat, |ps|) == ps
  {
    if |flat| == 3 * |ps| && Unflatten(flat, |ps|) == ps {
      forall d | 0 <= d < |ps|
        ensures flat[3 * d] == ps[d].r && flat[3 * d + 1] == ps[d].g && flat[3 * d + 2] == ps[d].b
      {
        assert Unflatten(flat, |ps|)[d] == ps[d];
      }
    }
  }

  /** Writing the three channels of `q` into slot `c` stores `q` as pixel `c`. */
  lemma StoresUpdate(flat: seq<real>, ps: seq<Pixel>, c: nat, q: Pixel)
    requires Stores(flat, ps) && c < |ps|
    ensures Stores(flat[3 * c := q.r][3 * c + 1 := q.g][3 * c + 2 := q.b], ps[c := q])
  {
  }

  /** Channel `i` of pixel `d` sits at index `3*d+i` of a buffer that stores the pixels. */
  lemma StoresChannel(flat: seq<real>, ps: seq<Pixel>, d: nat, i: nat)
    requires Stores(flat, ps) && d < |ps| && i < 3
    ensures 3 * d + i < |flat| && flat[3 * d + i] == Channel(ps[d], i)
  {
  }

  /**
   * A buffer that differs from one storing `ps` only in slot `c`, where it
   * holds the channels of `q`, stores `ps` with pixel `c` replaced by `q`.
   */
  lemma StoresChannels(flat0: seq<real>, flat: seq<real>, ps: seq<Pixel>, c: nat, q: Pixel)
    requires Stores(flat0, ps) && c < |ps| && |flat| == |flat0|
    requires forall j :: 0 <= j < |flat| && (j < 3 * c || 3 * c + 3 <= j) ==> flat[j] == flat0[j]
    requires forall i :: 0 <= i < 3 ==> flat[3 * c + i] == Channel(q, i)
    ensures Stores(flat, ps[c := q])
  {
    assert flat[3 * c] == q.r && flat[3 * c + 1] == q.g && flat[3 * c + 2] == q.b by {
      assert Channel(q, 0) == q.r && Channel(q, 1) == q.g && Channel(q, 2) == q.b;
    }
  }

  /** A buffer that stores `ps` is the flat layout of `ps`. */
  lemma StoresFlatten(flat: seq<real>, ps: seq<Pixel>)
    requires Stores(flat, ps)
    ensures flat == Flatten(ps)
  {
    StoresIsUnflatten(flat, ps);
    FlattenUnflatten(flat, |ps|);
  }

  /** Every buffer of `3*n` reals stores its own `n` pixels. */
  lemma StoresUnflatten(flat: seq<real>, n: nat)
    requires |flat| == 3 * n
    ensures Stores(flat, Unflatten(flat, n))
  {
    StoresIsUnflatten(flat, Unflatten(flat, n));
  }

  /** The sum of the squared channel differences of `p` and `q` over channels `0 .. n-1`. */
  function PartialDist(p: Pixel, q: Pixel, n: nat): real
    requires n <= 3
  {
    if n == 0 then 0.0 else PartialDist(p, q, n - 1) + Sq(Channel(p, n - 1) - Channel(q, n - 1))
  }

  /** Over all three channels the partial sum is the distance. */
  lemma PartialDistFull(p: Pixel, q: Pixel)
    ensures PartialDist(p, q, 3) == Dist(p, q)
  {
    assert PartialDist(p, q, 1) == Sq(p.r - q.r);
    assert PartialDist(p, q, 2) == Sq(p.r - q.r) + Sq(p.g - q.g);
  }
}
