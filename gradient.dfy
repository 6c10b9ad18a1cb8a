/** The gradient lookup tables `grad2`, `grad3` and `grad4`: a `match` on
    the hash modulo the table size, whose catch-all arm panics. The catch-all
    is modelled as `None`; each function proves it is never taken. */
module Gradient {
  import opened Wrappers

  /** `FRAC_1_SQRT_2` as an f64 literal. */
  const DIAG: real := 0.7071067811865476
  /** `0.577_350_269_189_625_8`, 1/√3 rounded to f64. */
  const DIAG3: real := 0.5773502691896258
  const HALF: real := 0.5

  /** 1 when component `j` exists and is zero. */
  function ZeroAt(v: seq<real>, j: nat): nat
  {
    if j < |v| && v[j] == 0.0 then 1 else 0
  }

  /** Number of zero components of a gradient of at most four components. */
  function ZeroCount(v: seq<real>): nat
    requires |v| <= 4
  {
    ZeroAt(v, 0) + ZeroAt(v, 1) + ZeroAt(v, 2) + ZeroAt(v, 3)
  }

  /** `grad2`: eight directions, picked by `index % 8`. */
  function Grad2(index: nat): (r: Option<seq<real>>)
    ensures r.Some? && |r.value| == 2
  {
    var k := index % 8;
    if k == 0 then Some([1.0, 0.0])
    else if k == 1 then Some([-1.0, 0.0])
    else if k == 2 then Some([0.0, 1.0])
    else if k == 3 then Some([0.0, -1.0])
    else if k == 4 then Some([DIAG, DIAG])
    else if k == 5 then Some([-DIAG, DIAG])
    else if k == 6 then Some([DIAG, -DIAG])
    else if k == 7 then Some([-DIAG, -DIAG])
    else None
  }

  /** `grad3`: twelve cube edges listed twice, then the eight cube corners,
      picked by `index % 32`. */
  function Grad3(index: nat): (r: Option<seq<real>>)
    ensures r.Some? && |r.value| == 3
  {
    var k := index % 32;
    if k == 0 || k == 12 then Some([DIAG, DIAG, 0.0])
    else if k == 1 || k == 13 then Some([-DIAG, DIAG, 0.0])
    else if k == 2 || k == 14 then Some([DIAG, -DIAG, 0.0])
    else if k == 3 || k == 15 then Some([-DIAG, -DIAG, 0.0])
    else if k == 4 || k == 16 then Some([DIAG, 0.0, DIAG])
    else if k == 5 || k == 17 then Some([-DIAG, 0.0, DIAG])
    else if k == 6 || k == 18 then Some([DIAG, 0.0, -DIAG])
    else if k == 7 || k == 19 then Some([-DIAG, 0.0, -DIAG])
    else if k == 8 || k == 20 then Some([0.0, DIAG, DIAG])
    else if k == 9 || k == 21 then Some([0.0, -DIAG, DIAG])
    else if k == 10 || k == 22 then Some([0.0, DIAG, -DIAG])
    else if k == 11 || k == 23 then Some([0.0, -DIAG, -DIAG])
    else if k == 24 then Some([DIAG3, DIAG3, DIAG3])
    else if k == 25 then Some([-DIAG3, DIAG3, DIAG3])
    else if k == 26 then Some([DIAG3, -DIAG3, DIAG3])
    else if k == 27 then Some([-DIAG3, -DIAG3, DIAG3])
    else if k == 28 then Some([DIAG3, DIAG3, -DIAG3])
    else if k == 29 then Some([-DIAG3, DIAG3, -DIAG3])
    else if k == 30 then Some([DIAG3, -DIAG3, -DIAG3])
    else if k == 31 then Some([-DIAG3, -DIAG3, -DIAG3])
    else None
  }

  /** `grad4`: the 32 edges of the 4-cube, then its 16 corners listed twice,
      picked by `index % 64`. */
  function Grad4(index: nat): (r: Option<seq<real>>)
    ensures r.Some? && |r.value| == 4
  {
    var k := index % 64;
    if k < 32 then Grad4Edge(k) else Grad4Corner(k)
  }

  /** Arms 0..31 of `grad4`: the edges. */
  function Grad4Edge(k: nat): (r: Option<seq<real>>)
    requires k < 32
    ensures r.Some? && |r.value| == 4
  {
    if k == 0 then Some([0.0, DIAG3, DIAG3, DIAG3])
    else if k == 1 then Some([0.0, DIAG3, DIAG3, -DIAG3])
    else if k == 2 then Some([0.0, DIAG3, -DIAG3, DIAG3])
    else if k == 3 then Some([0.0, DIAG3, -DIAG3, -DIAG3])
    else if k == 4 then Some([0.0, -DIAG3, DIAG3, DIAG3])
    else if k == 5 then Some([0.0, -DIAG3, DIAG3, -DIAG3])
    else if k == 6 then Some([0.0, -DIAG3, -DIAG3, DIAG3])
    else if k == 7 then Some([0.0, -DIAG3, -DIAG3, -DIAG3])
    else if k == 8 then Some([DIAG3, 0.0, DIAG3, DIAG3])
    else if k == 9 then Some([DIAG3, 0.0, DIAG3, -DIAG3])
    else if k == 10 then Some([DIAG3, 0.0, -DIAG3, DIAG3])
    else if k == 11 then Some([DIAG3, 0.0, -DIAG3, -DIAG3])
    else if k == 12 then Some([-DIAG3, 0.0, DIAG3, DIAG3])
    else if k == 13 then Some([-DIAG3, 0.0, DIAG3, -DIAG3])
    else if k == 14 then Some([-DIAG3, 0.0, -DIAG3, DIAG3])
    else if k == 15 then Some([-DIAG3, 0.0, -DIAG3, -DIAG3])
    else if k == 16 then Some([DIAG3, DIAG3, 0.0, DIAG3])
    else if k == 17 then Some([DIAG3, DIAG3, 0.0, -DIAG3])
    else if k == 18 then Some([DIAG3, -DIAG3, 0.0, DIAG3])
    else if k == 19 then Some([DIAG3, -DIAG3, 0.0, -DIAG3])
    else if k == 20 then Some([-DIAG3, DIAG3, 0.0, DIAG3])
    else if k == 21 then Some([-DIAG3, DIAG3, 0.0, -DIAG3])
    else if k == 22 then Some([-DIAG3, -DIAG3, 0.0, DIAG3])
    else if k == 23 then Some([-DIAG3, -DIAG3, 0.0, -DIAG3])
    else if k == 24 then Some([DIAG3, DIAG3, DIAG3, 0.0])
    else if k == 25 then Some([DIAG3, DIAG3, -DIAG3, 0.0])
    else if k == 26 then Some([DIAG3, -DIAG3, DIAG3, 0.0])
    else if k == 27 then Some([DIAG3, -DIAG3, -DIAG3, 0.0])
    else if k == 28 then Some([-DIAG3, DIAG3, DIAG3, 0.0])
    else if k == 29 then Some([-DIAG3, DIAG3, -DIAG3, 0.0])
    else if k == 30 then Some([-DIAG3, -DIAG3, DIAG3, 0.0])
    else if k == 31 then Some([-DIAG3, -DIAG3, -DIAG3, 0.0])
    else None
  }

  /** Arms 32..63 of `grad4`: each corner of the 4-cube, once at k and again
      at k + 16. */
  function Grad4Corner(k: nat): (r: Option<seq<real>>)
    requires 32 <= k < 64
    ensures r.Some? && |r.value| == 4
  {
    if k == 32 || k == 48 then Some([HALF, HALF, HALF, HALF])
    else if k == 33 || k == 49 then Some([-HALF, HALF, HALF, HALF])
    else if k == 34 || k == 50 then Some([HALF, -HALF, HALF, HALF])
    else if k == 35 || k == 51 then Some([-HALF, -HALF, HALF, HALF])
    else if k == 36 || k == 52 then Some([HALF, HALF, -HALF, HALF])
    else if k == 37 || k == 53 then Some([-HALF, HALF, -HALF, HALF])
    else if k == 38 || k == 54 then Some([HALF, HALF, HALF, -HALF])
    else if k == 39 || k == 55 then Some([-HALF, HALF, HALF, -HALF])
    else if k == 40 || k == 56 then Some([HALF, -HALF, -HALF, HALF])
    else if k == 41 || k == 57 then Some([-HALF, -HALF, -HALF, HALF])
    else if k == 42 || k == 58 then Some([HALF, -HALF, HALF, -HALF])
    else if k == 43 || k == 59 then Some([-HALF, -HALF, HALF, -HALF])
    else if k == 44 || k == 60 then Some([HALF, HALF, -HALF, -HALF])
    else if k == 45 || k == 61 then Some([-HALF, HALF, -HALF, -HALF])
    else if k == 46 || k == 62 then Some([HALF, -HALF, -HALF, -HALF])
    else if k == 47 || k == 63 then Some([-HALF, -HALF, -HALF, -HALF])
    else None
  }

  /** Only `index % 32` matters to `grad3`. */
  lemma Grad3Periodic(index: nat)
    ensures Grad3(index) == Grad3(index % 32)
  {
  }

  /** The twelve edges appear twice: entries i and i + 12 agree for i < 12. */
  lemma Grad3EdgesRepeat(i: nat)
    requires i < 12
    ensures Grad3(i) == Grad3(i + 12)
  {
  }

  /** Entries 24..31 are the cube corners: no component is zero. */
  lemma Grad3CornersHaveNoZero(i: nat)
    requires 24 <= i < 32
    ensures ZeroCount(Grad3(i).value) == 0
  {
  }

  /** The corners of the 4-cube appear twice: entries 32..47 equal 48..63. */
  lemma Grad4CornersRepeat(i: nat)
    requires 32 <= i < 48
    ensures Grad4(i) == Grad4(i + 16)
  {
    assert i % 64 == i && (i + 16) % 64 == i + 16;
  }

  /** Entries below 32 are edges: exactly one component is zero. */
  lemma Grad4EdgesHaveOneZero(i: nat)
    requires i < 32
    ensures ZeroCount(Grad4(i).value) == 1
  {
    assert i % 64 == i;
    if i < 16 {
      Grad4EdgeLowHasOneZero(i);
    } else {
      Grad4EdgeHighHasOneZero(i);
    }
  }

  lemma Grad4EdgeLowHasOneZero(k: nat)
    requires k < 16
    ensures ZeroCount(Grad4Edge(k).value) == 1
  {
  }

  lemma Grad4EdgeHighHasOneZero(k: nat)
    requires 16 <= k < 32
    ensures ZeroCount(Grad4Edge(k).value) == 1
  {
  }
}
