/** Super simplex noise: the point is skewed onto the simplex lattice, a few
    comparisons of the in-cell coordinates build an index into a lookup table,
    and the four table entries that index selects are the lattice points that
    may contribute. The 3D variant sums two interleaved lattices. */
module SuperSimplex {
  import opened Numeric
  import opened Vectors
  import opened PermTable
  import opened Gradient
  import Simplex

  const TO_REAL_CONSTANT_2D: real := -0.211324865405187
  const TO_SIMPLEX_CONSTANT_2D: real := 0.366025403784439
  const TO_SIMPLEX_CONSTANT_3D: real := -2.0 / 3.0
  const NORM_CONSTANT_2D: real := 1.0 / 0.05428295288661623
  const NORM_CONSTANT_3D: real := 1.0 / 0.0867664001655369

  /** Squared radius of a 2D lattice point's influence, and of a 3D one. */
  const RADIUS_SQUARED_2D: real := 2.0 / 3.0
  const RADIUS_SQUARED_3D: real := 0.75

  /** Offset of the second 3D lattice from the first, along every axis. */
  const SECOND_LATTICE_SHIFT: real := 512.5

  /** `LATTICE_LOOKUP_2D`: eight groups of four entries, each a lattice
      offset in simplex space and the same offset, negated, in real space. */
  const LATTICE_LOOKUP_2D: seq<((int, int), (real, real))> := [
    ((0, 0), (0.0, 0.0)),
    ((1, 1), (-0.577350269189626, -0.577350269189626)),
    ((-1, 0), (0.788675134594813, -0.211324865405187)),
    ((0, -1), (-0.211324865405187, 0.788675134594813)),

    ((0, 0), (0.0, 0.0)),
    ((1, 1), (-0.577350269189626, -0.577350269189626)),
    ((0, 1), (0.211324865405187, -0.788675134594813)),
    ((1, 0), (-0.788675134594813, 0.211324865405187)),

    ((0, 0), (0.0, 0.0)),
    ((1, 1), (-0.577350269189626, -0.577350269189626)),
    ((1, 0), (-0.788675134594813, 0.211324865405187)),
    ((0, -1), (-0.211324865405187, 0.788675134594813)),

    ((0, 0), (0.0, 0.0)),
    ((1, 1), (-0.577350269189626, -0.577350269189626)),
    ((2, 1), (-1.366025403784439, -0.36602540378443904)),
    ((1, 0), (-0.788675134594813, 0.211324865405187)),

    ((0, 0), (0.0, 0.0)),
    ((1, 1), (-0.577350269189626, -0.577350269189626)),
    ((-1, 0), (0.788675134594813, -0.211324865405187)),
    ((0, 1), (0.211324865405187, -0.788675134594813)),

    ((0, 0), (0.0, 0.0)),
    ((1, 1), (-0.577350269189626, -0.577350269189626)),
    ((0, 1), (0.211324865405187, -0.788675134594813)),
    ((1, 2), (-0.36602540378443904, -1.366025403784439)),

    ((0, 0), (0.0, 0.0)),
    ((1, 1), (-0.577350269189626, -0.577350269189626)),
    ((1, 0), (-0.788675134594813, 0.211324865405187)),
    ((0, 1), (0.211324865405187, -0.788675134594813)),

    ((0, 0), (0.0, 0.0)),
    ((1, 1), (-0.577350269189626, -0.577350269189626)),
    ((2, 1), (-1.366025403784439, -0.36602540378443904)),
    ((1, 2), (-0.36602540378443904, -1.366025403784439))
  ]

  /** `LATTICE_LOOKUP_3D`: sixteen groups of four corners of the unit cube.
      Every index into it is a multiple of four and is used only as the
      start of a four-entry slice, so it is stored group by group. */
  const LATTICE_LOOKUP_3D: seq<seq<(int, int, int)>> := [
    [(0, 0, 0), (1, 0, 0), (0, 1, 0), (0, 0, 1)],
    [(1, 1, 1), (1, 0, 0), (0, 1, 0), (0, 0, 1)],
    [(0, 0, 0), (0, 1, 1), (0, 1, 0), (0, 0, 1)],
    [(1, 1, 1), (0, 1, 1), (0, 1, 0), (0, 0, 1)],
    [(0, 0, 0), (1, 0, 0), (1, 0, 1), (0, 0, 1)],
    [(1, 1, 1), (1, 0, 0), (1, 0, 1), (0, 0, 1)],
    [(0, 0, 0), (0, 1, 1), (1, 0, 1), (0, 0, 1)],
    [(1, 1, 1), (0, 1, 1), (1, 0, 1), (0, 0, 1)],
    [(0, 0, 0), (1, 0, 0), (0, 1, 0), (1, 1, 0)],
    [(1, 1, 1), (1, 0, 0), (0, 1, 0), (1, 1, 0)],
    [(0, 0, 0), (0, 1, 1), (0, 1, 0), (1, 1, 0)],
    [(1, 1, 1), (0, 1, 1), (0, 1, 0), (1, 1, 0)],
    [(0, 0, 0), (1, 0, 0), (1, 0, 1), (1, 1, 0)],
    [(1, 1, 1), (1, 0, 0), (1, 0, 1), (1, 1, 0)],
    [(0, 0, 0), (0, 1, 1), (1, 0, 1), (1, 1, 0)],
    [(1, 1, 1), (0, 1, 1), (1, 0, 1), (1, 1, 0)]
  ]

  // ---------------------------------------------------------------- lattice

  /** The base point of the simplex cell (`floor` then `numcast`) and the
      coordinates of the point inside it. */
  datatype Cell = Cell(base: seq<int>, rel: seq<real>)

  function CellOf(p: seq<real>): (c: Cell)
    ensures |c.base| == |p| && |c.rel| == |p|
    ensures forall i :: 0 <= i < |p| ==> c.rel[i] == p[i] - c.base[i] as real
    ensures forall i :: 0 <= i < |p| ==> 0.0 <= c.rel[i] < 1.0
  {
    Cell(Floor(p), Sub(p, ToReal(Floor(p))))
  }

  /** `(b as usize) << k`, written with its weight `2^k`. The flags of an
      index set distinct bits, so or-ing them together is adding them. */
  function Flag(b: bool, weight: nat): nat
  {
    if b then weight else 0
  }

  // ---------------------------------------------------------------- 2D

  /** `simplex_rel_coords.sum().floor()`. */
  function RegionSum2D(rel: seq<real>): real
  {
    SumOf(rel).Floor as real
  }

  /** The in-cell coordinates lie in [0, 1), so the region sum is 0 or 1. */
  lemma RegionSum2DIsBit(rel: seq<real>)
    requires |rel| == 2 && 0.0 <= rel[0] < 1.0 && 0.0 <= rel[1] < 1.0
    ensures RegionSum2D(rel) == 0.0 || RegionSum2D(rel) == 1.0
    ensures RegionSum2D(rel) == 1.0 <==> rel[0] + rel[1] >= 1.0
  {
    Simplex.SumOfPair(rel);
  }

  /** The 2D lookup index: bit 2 is the region, bits 3 and 4 compare one
      coordinate against half the other. Only bits 2 to 4 can be set, so
      the four entries from the index on lie inside the table. */
  function Index2D(rel: seq<real>): (index: nat)
    requires |rel| == 2
    ensures index % 4 == 0 && index + 4 <= |LATTICE_LOOKUP_2D|
    ensures (index / 4) % 2 == 1 <==> RegionSum2D(rel) >= 1.0
    ensures (index / 8) % 2 == 1 <==> rel[0] - rel[1] * 0.5 + 1.0 - RegionSum2D(rel) * 0.5 >= 1.0
    ensures (index / 16) % 2 == 1 <==> rel[1] - rel[0] * 0.5 + 1.0 - RegionSum2D(rel) * 0.5 >= 1.0
  {
    var regionSum := RegionSum2D(rel);
    Flag(regionSum >= 1.0, 4)
      + Flag(rel[0] - rel[1] * 0.5 + 1.0 - regionSum * 0.5 >= 1.0, 8)
      + Flag(rel[1] - rel[0] * 0.5 + 1.0 - regionSum * 0.5 >= 1.0, 16)
  }

  /** Every 2D group starts with the two corners of the skewed cell on its
      long diagonal, `(0, 0)` and `(1, 1)`, so both are always considered. */
  lemma Lattice2DGroupsStartOnDiagonal(index: nat)
    requires index % 4 == 0 && index + 4 <= |LATTICE_LOOKUP_2D|
    ensures LATTICE_LOOKUP_2D[index].0 == (0, 0)
    ensures LATTICE_LOOKUP_2D[index + 1].0 == (1, 1)
  {
  }

  /** The real-space column of every 2D entry is the negated unskewed lattice
      offset `v + v.sum() * TO_REAL_CONSTANT_2D`, up to the rounding of the
      table's literals (at most 1e-16). */
  lemma Lattice2DRealOffsets(k: nat)
    requires k < |LATTICE_LOOKUP_2D|
    ensures var e := LATTICE_LOOKUP_2D[k];
      var s := (e.0.0 + e.0.1) as real * TO_REAL_CONSTANT_2D;
      Abs(e.1.0 + (e.0.0 as real + s)) <= 0.0000000000000001
      && Abs(e.1.1 + (e.0.1 as real + s)) <= 0.0000000000000001
  {
  }

  /** `dpos = real_rel_coords + entry.1`. */
  function Dpos2D(realRel: seq<real>, entry: ((int, int), (real, real))): (d: seq<real>)
    requires |realRel| == 2
    ensures |d| == 2
  {
    Add(realRel, [entry.1.0, entry.1.1])
  }

  /** What one table entry adds: `attn⁴ · (gradient · dpos)` with
      `attn = 2/3 - |dpos|²`, and nothing when `attn` is not positive. */
  function Contribution2D(t: PermutationTable, base: seq<int>, realRel: seq<real>, entry: ((int, int), (real, real))): (r: real)
    requires t.Valid() && |base| == 2 && |realRel| == 2
    ensures MagnitudeSquared(Dpos2D(realRel, entry)) >= RADIUS_SQUARED_2D ==> r == 0.0
  {
    var dpos := Dpos2D(realRel, entry);
    var attn := RADIUS_SQUARED_2D - MagnitudeSquared(dpos);
    if attn > 0.0 then
      var latticePoint := AddInt(base, [entry.0.0, entry.0.1]);
      Pow(attn, 4) * DotOf(Grad2(Hash(t, latticePoint)).value, dpos)
    else 0.0
  }

  /** The contributions of the `k` table entries from `index` on. */
  function LatticeSum2D(t: PermutationTable, base: seq<int>, realRel: seq<real>, index: nat, k: nat): real
    requires t.Valid() && |base| == 2 && |realRel| == 2 && index + k <= |LATTICE_LOOKUP_2D|
  {
    if k == 0 then 0.0
    else LatticeSum2D(t, base, realRel, index, k - 1) + Contribution2D(t, base, realRel, LATTICE_LOOKUP_2D[index + k - 1])
  }

  lemma LatticeSum2DStep(t: PermutationTable, base: seq<int>, realRel: seq<real>, index: nat, k: nat)
    requires t.Valid() && |base| == 2 && |realRel| == 2 && index + k < |LATTICE_LOOKUP_2D|
    ensures LatticeSum2D(t, base, realRel, index, k + 1)
      == LatticeSum2D(t, base, realRel, index, k) + Contribution2D(t, base, realRel, LATTICE_LOOKUP_2D[index + k])
  {
  }

  /** A group all of whose points lie outside the radius contributes nothing. */
  lemma {:induction false} LatticeSum2DOutsideRadius(t: PermutationTable, base: seq<int>, realRel: seq<real>, index: nat, k: nat)
    requires t.Valid() && |base| == 2 && |realRel| == 2 && index + k <= |LATTICE_LOOKUP_2D|
    requires forall j :: index <= j < index + k ==>
      MagnitudeSquared(Dpos2D(realRel, LATTICE_LOOKUP_2D[j])) >= RADIUS_SQUARED_2D
    ensures LatticeSum2D(t, base, realRel, index, k) == 0.0
  {
    if k > 0 {
      LatticeSum2DOutsideRadius(t, base, realRel, index, k - 1);
    }
  }

  /** The skewed point, its cell, and the in-cell coordinates mapped back to
      real space. */
  function SimplexPoint2D(point: seq<real>): (s: seq<real>)
    requires |point| == 2
    ensures |s| == 2
  {
    Simplex.Skew(point, TO_SIMPLEX_CONSTANT_2D)
  }

  function RealRel2D(rel: seq<real>): (r: seq<real>)
    ensures |r| == |rel|
  {
    Simplex.Skew(rel, TO_REAL_CONSTANT_2D)
  }

  /** The body of the 2D lattice loop for one entry: the contribution is
      computed only when `attn` is positive. */
  method EntryContribution2D(t: PermutationTable, base: seq<int>, realRel: seq<real>, entry: ((int, int), (real, real)))
    returns (contribution: real)
    requires t.Valid() && |base| == 2 && |realRel| == 2
    ensures contribution == Contribution2D(t, base, realRel, entry)
  {
    contribution := 0.0;
    var dpos := Add(realRel, [entry.1.0, entry.1.1]);
    var attn := RADIUS_SQUARED_2D - MagnitudeSquared(dpos);
    if attn > 0.0 {
      var latticePoint := AddInt(base, [entry.0.0, entry.0.1]);
      var gradient := Grad2(Hash(t, latticePoint)).value;
      contribution := Pow(attn, 4) * DotOf(gradient, dpos);
    }
  }

  /** One pass of the 2D lattice loop: entry `index + k` adds its
      contribution to the sum of the entries before it. */
  method AddEntry2D(t: PermutationTable, base: seq<int>, realRel: seq<real>, index: nat, k: nat, value: real)
    returns (newValue: real)
    requires t.Valid() && |base| == 2 && |realRel| == 2 && index + k < |LATTICE_LOOKUP_2D|
    requires value == LatticeSum2D(t, base, realRel, index, k)
    ensures newValue == LatticeSum2D(t, base, realRel, index, k + 1)
  {
    var contribution := EntryContribution2D(t, base, realRel, LATTICE_LOOKUP_2D[index + k]);
    newValue := value + contribution;
    LatticeSum2DStep(t, base, realRel, index, k);
  }

  /** `super_simplex_2d`: the four entries the index selects are visited in
      order and those within the radius add their contribution. */
  method SuperSimplex2D(t: PermutationTable, point: seq<real>) returns (value: real)
    requires t.Valid() && |point| == 2
    ensures var cell := CellOf(SimplexPoint2D(point));
      var index := Index2D(cell.rel);
      value == LatticeSum2D(t, cell.base, RealRel2D(cell.rel), index, 4) * NORM_CONSTANT_2D
  {
    var simplexPoint := SimplexPoint2D(point);
    var cell := CellOf(simplexPoint);
    var index := Index2D(cell.rel);
    var realRel := RealRel2D(cell.rel);
    value := 0.0;
    for k := 0 to 4
      invariant value == LatticeSum2D(t, cell.base, realRel, index, k)
    {
      value := AddEntry2D(t, cell.base, realRel, index, k, value);
    }
    value := value * NORM_CONSTANT_2D;
  }

  // ---------------------------------------------------------------- 3D

  /** `-(v + point.sum() * TO_SIMPLEX_CONSTANT_3D)` for every component. */
  function SimplexPoint3D(point: seq<real>): (s: seq<real>)
    ensures |s| == |point|
    ensures forall i :: 0 <= i < |point| ==> s[i] == -(point[i] + SumOf(point) * TO_SIMPLEX_CONSTANT_3D)
  {
    var skewed := Simplex.Skew(point, TO_SIMPLEX_CONSTANT_3D);
    seq(|point|, i requires 0 <= i < |point| => -skewed[i])
  }

  /** The 3D lookup index: bit 2 compares the coordinate sum against 1.5,
      bits 3 to 5 compare each signed pair sum against 0.5. Only bits 2 to 5
      can be set, so the four entries from the index on lie inside the table. */
  function Index3D(rel: seq<real>): (index: nat)
    requires |rel| == 3
    ensures index % 4 == 0 && index + 4 <= 4 * |LATTICE_LOOKUP_3D|
    ensures (index / 4) % 2 == 1 <==> rel[0] + rel[1] + rel[2] >= 1.5
    ensures (index / 8) % 2 == 1 <==> -rel[0] + rel[1] + rel[2] >= 0.5
    ensures (index / 16) % 2 == 1 <==> rel[0] - rel[1] + rel[2] >= 0.5
    ensures (index / 32) % 2 == 1 <==> rel[0] + rel[1] - rel[2] >= 0.5
  {
    Flag(rel[0] + rel[1] + rel[2] >= 1.5, 4)
      + Flag(-rel[0] + rel[1] + rel[2] >= 0.5, 8)
      + Flag(rel[0] - rel[1] + rel[2] >= 0.5, 16)
      + Flag(rel[0] + rel[1] - rel[2] >= 0.5, 32)
  }

  /** The cube corner opposite `c`. */
  function Opposite(c: (int, int, int)): (int, int, int)
  {
    (1 - c.0, 1 - c.1, 1 - c.2)
  }

  /** `LATTICE_LOOKUP_3D[index..index + 4]`. */
  function Slice3D(index: nat): (group: seq<(int, int, int)>)
    requires index % 4 == 0 && index + 4 <= 4 * |LATTICE_LOOKUP_3D|
    ensures |group| == 4
  {
    Lattice3DGroups(index / 4);
    LATTICE_LOOKUP_3D[index / 4]
  }

  /** Each 3D group holds one corner from each of the four pairs of opposite
      cube corners; bit 0 of the group number (bit 2 of the index) chooses
      within the first pair, bit 1 within the second, and so on. */
  lemma Lattice3DGroups(g: nat)
    requires g < |LATTICE_LOOKUP_3D|
    ensures |LATTICE_LOOKUP_3D[g]| == 4
    ensures LATTICE_LOOKUP_3D[g][0] == if g % 2 == 1 then (1, 1, 1) else (0, 0, 0)
    ensures LATTICE_LOOKUP_3D[g][1] == if (g / 2) % 2 == 1 then (0, 1, 1) else (1, 0, 0)
    ensures LATTICE_LOOKUP_3D[g][2] == if (g / 4) % 2 == 1 then (1, 0, 1) else (0, 1, 0)
    ensures LATTICE_LOOKUP_3D[g][3] == if (g / 8) % 2 == 1 then (1, 1, 0) else (0, 0, 1)
  {
    if g == 0 {
    }
    else if g == 1 {
    }
    else if g == 2 {
    }
    else if g == 3 {
    }
    else if g == 4 {
    }
    else if g == 5 {
    }
    else if g == 6 {
    }
    else if g == 7 {
    }
    else if g == 8 {
    }
    else if g == 9 {
    }
    else if g == 10 {
    }
    else if g == 11 {
    }
    else if g == 12 {
    }
    else if g == 13 {
    }
    else if g == 14 {
    }
    else if g == 15 {
    }
  }

  /** Squared distance from the in-cell point to a cube corner. */
  function CornerDistance(rel: seq<real>, c: (int, int, int)): real
    requires |rel| == 3
  {
    MagnitudeSquared(Sub(rel, [c.0 as real, c.1 as real, c.2 as real]))
  }

  /** Every corner the index selects is at least as near to the point as the
      corner opposite it, so the four nearest corners of the cube, one per
      opposite pair, are the ones visited. */
  lemma Lookup3DPicksNearer(rel: seq<real>, k: nat)
    requires |rel| == 3 && k < 4
    ensures var c := Slice3D(Index3D(rel))[k];
      CornerDistance(rel, c) <= CornerDistance(rel, Opposite(c))
  {
    var index := Index3D(rel);
    var g := index / 4;
    Lattice3DGroups(g);
    assert index / 8 == g / 2 && index / 16 == g / 4 && index / 32 == g / 8;
    var c := Slice3D(index)[k];
    CornerDistanceExpanded(rel, c);
    CornerDistanceExpanded(rel, Opposite(c));
  }

  lemma CornerDistanceExpanded(rel: seq<real>, c: (int, int, int))
    requires |rel| == 3
    ensures CornerDistance(rel, c)
      == (rel[0] - c.0 as real) * (rel[0] - c.0 as real)
       + (rel[1] - c.1 as real) * (rel[1] - c.1 as real)
       + (rel[2] - c.2 as real) * (rel[2] - c.2 as real)
  {
    var d := Sub(rel, [c.0 as real, c.1 as real, c.2 as real]);
    assert DotOf(d, d) == DotOf(d[..2], d[..2]) + d[2] * d[2];
    assert d[..2][..1] == d[..1];
    assert DotOf(d[..2], d[..2]) == DotOf(d[..1], d[..1]) + d[1] * d[1];
    assert d[..1][..0] == [];
    assert DotOf(d[..1], d[..1]) == d[0] * d[0];
  }

  /** `dpos = rel - corner`. */
  function Dpos3D(rel: seq<real>, c: (int, int, int)): (d: seq<real>)
    requires |rel| == 3
    ensures |d| == 3
  {
    Sub(rel, [c.0 as real, c.1 as real, c.2 as real])
  }

  /** What one corner adds: `attn⁴ · (gradient · dpos)` with
      `attn = 0.75 - |dpos|²`, and nothing when `attn` is not positive. */
  function Contribution3D(t: PermutationTable, cell: Cell, c: (int, int, int)): (r: real)
    requires t.Valid() && |cell.base| == 3 && |cell.rel| == 3
    ensures MagnitudeSquared(Dpos3D(cell.rel, c)) >= RADIUS_SQUARED_3D ==> r == 0.0
  {
    Surflet3D(Hash(t, AddInt(cell.base, [c.0, c.1, c.2])), Dpos3D(cell.rel, c))
  }

  /** The contribution of a corner whose hash is `hash` at offset `dpos`. */
  function Surflet3D(hash: int, dpos: seq<real>): (r: real)
    requires 0 <= hash < TABLE_SIZE && |dpos| == 3
    ensures MagnitudeSquared(dpos) >= RADIUS_SQUARED_3D ==> r == 0.0
  {
    var attn := RADIUS_SQUARED_3D - MagnitudeSquared(dpos);
    if attn > 0.0 then Pow(attn, 4) * DotOf(Grad3(hash).value, dpos) else 0.0
  }

  /** The contributions of the `k` table entries from `index` on. */
  function LatticeSum3D(t: PermutationTable, cell: Cell, index: nat, k: nat): real
    requires t.Valid() && |cell.base| == 3 && |cell.rel| == 3
    requires index % 4 == 0 && index + 4 <= 4 * |LATTICE_LOOKUP_3D| && k <= 4
  {
    GroupSum3D(t, cell, Slice3D(index), k)
  }

  /** The contributions of the first `k` corners of `group`. */
  function GroupSum3D(t: PermutationTable, cell: Cell, group: seq<(int, int, int)>, k: nat): real
    requires t.Valid() && |cell.base| == 3 && |cell.rel| == 3 && k <= |group|
  {
    if k == 0 then 0.0
    else GroupSum3D(t, cell, group, k - 1) + Contribution3D(t, cell, group[k - 1])
  }

  lemma LatticeSum3DStep(t: PermutationTable, cell: Cell, index: nat, k: nat)
    requires t.Valid() && |cell.base| == 3 && |cell.rel| == 3
    requires index % 4 == 0 && index + 4 <= 4 * |LATTICE_LOOKUP_3D| && k < 4
    ensures LatticeSum3D(t, cell, index, k + 1)
      == LatticeSum3D(t, cell, index, k) + Contribution3D(t, cell, Slice3D(index)[k])
  {
  }

  /** The first lattice's cell, and the second lattice's: the same point
      moved by 512.5 along every axis before flooring. */
  function FirstCell3D(point: seq<real>): (c: Cell)
    requires |point| == 3
    ensures |c.base| == 3 && |c.rel| == 3
  {
    CellOf(SimplexPoint3D(point))
  }

  function SecondCell3D(point: seq<real>): (c: Cell)
    requires |point| == 3
    ensures |c.base| == 3 && |c.rel| == 3
  {
    CellOf(AddScalar(SimplexPoint3D(point), SECOND_LATTICE_SHIFT))
  }

  /** The second lattice is the first moved by half a cell: its in-cell
      coordinates are those of the point moved by 0.5, and its base point
      differs from that point's by 512 = 2·256 on every axis, a whole number
      of hash periods. */
  lemma SecondLatticeIsHalfCellShift(point: seq<real>)
    requires |point| == 3
    ensures var half := CellOf(AddScalar(SimplexPoint3D(point), 0.5));
      var second := SecondCell3D(point);
      second.rel == half.rel
      && forall i :: 0 <= i < 3 ==> second.base[i] == half.base[i] + 512
  {
    var s := SimplexPoint3D(point);
    var half := CellOf(AddScalar(s, 0.5));
    var second := SecondCell3D(point);
    forall i | 0 <= i < 3
      ensures second.base[i] == half.base[i] + 512
    {
      var x := s[i] + 0.5;
      assert AddScalar(s, SECOND_LATTICE_SHIFT)[i] == x + 512.0;
      assert (x + 512.0).Floor == x.Floor + 512;
    }
  }

  /** So the second lattice sums the same contributions as the first lattice
      would at the point moved by half a cell. */
  lemma SecondLatticeSum(t: PermutationTable, point: seq<real>, index: nat, k: nat)
    requires t.Valid() && |point| == 3
    requires index % 4 == 0 && index + 4 <= 4 * |LATTICE_LOOKUP_3D| && k <= 4
    ensures LatticeSum3D(t, SecondCell3D(point), index, k)
      == LatticeSum3D(t, CellOf(AddScalar(SimplexPoint3D(point), 0.5)), index, k)
  {
    var half := CellOf(AddScalar(SimplexPoint3D(point), 0.5));
    var second := SecondCell3D(point);
    SecondLatticeIsHalfCellShift(point);
    SameContributions(t, second, half, Slice3D(index), k);
  }

  lemma {:induction false} SameContributions(t: PermutationTable, a: Cell, b: Cell, group: seq<(int, int, int)>, k: nat)
    requires t.Valid() && |a.base| == 3 && |a.rel| == 3 && |b.base| == 3
    requires a.rel == b.rel && k <= |group|
    requires forall i :: 0 <= i < 3 ==> a.base[i] == b.base[i] + 512
    ensures GroupSum3D(t, a, group, k) == GroupSum3D(t, b, group, k)
  {
    if k > 0 {
      SameContributions(t, a, b, group, k - 1);
      SameContribution(t, a, b, group[k - 1]);
    }
  }

  lemma SameContribution(t: PermutationTable, a: Cell, b: Cell, c: (int, int, int))
    requires t.Valid() && |a.base| == 3 && |a.rel| == 3 && |b.base| == 3
    requires a.rel == b.rel
    requires forall i :: 0 <= i < 3 ==> a.base[i] == b.base[i] + 512
    ensures Contribution3D(t, a, c) == Contribution3D(t, b, c)
  {
    var o := [c.0, c.1, c.2];
    var pa := AddInt(a.base, o);
    var pb := AddInt(b.base, o);
    assert forall i :: 0 <= i < 3 ==> pa[i] - pb[i] == 2 * 256;
    HashPeriodic(t, pa, pb);
    SameHashSameContribution(t, a, b, c, pa, pb);
  }

  lemma SameHashSameContribution(t: PermutationTable, a: Cell, b: Cell, c: (int, int, int), pa: seq<int>, pb: seq<int>)
    requires t.Valid() && |a.base| == 3 && |a.rel| == 3 && |b.base| == 3 && a.rel == b.rel
    requires pa == AddInt(a.base, [c.0, c.1, c.2]) && pb == AddInt(b.base, [c.0, c.1, c.2])
    requires Hash(t, pa) == Hash(t, pb)
    ensures Contribution3D(t, a, c) == Contribution3D(t, b, c)
  {
  }

  /** The body of the 3D lattice loops for one corner: the contribution is
      computed only when `attn` is positive. */
  method EntryContribution3D(t: PermutationTable, cell: Cell, c: (int, int, int)) returns (contribution: real)
    requires t.Valid() && |cell.base| == 3 && |cell.rel| == 3
    ensures contribution == Contribution3D(t, cell, c)
  {
    contribution := 0.0;
    var dpos := Sub(cell.rel, [c.0 as real, c.1 as real, c.2 as real]);
    var attn := RADIUS_SQUARED_3D - MagnitudeSquared(dpos);
    if attn > 0.0 {
      var latticePoint := AddInt(cell.base, [c.0, c.1, c.2]);
      var gradient := Grad3(Hash(t, latticePoint)).value;
      contribution := Pow(attn, 4) * DotOf(gradient, dpos);
    }
  }

  /** `super_simplex_3d`: the four entries the first index selects, then the
      four the second index selects, each counted when within the radius. */
  method SuperSimplex3D(t: PermutationTable, point: seq<real>) returns (value: real)
    requires t.Valid() && |point| == 3
    ensures var first := FirstCell3D(point);
      var second := SecondCell3D(point);
      value == (LatticeSum3D(t, first, Index3D(first.rel), 4)
        + LatticeSum3D(t, second, Index3D(second.rel), 4)) * NORM_CONSTANT_3D
  {
    var simplexPoint := SimplexPoint3D(point);
    var secondSimplexPoint := AddScalar(simplexPoint, SECOND_LATTICE_SHIFT);
    var first := CellOf(simplexPoint);
    var second := CellOf(secondSimplexPoint);
    var index := Index3D(first.rel);
    var secondIndex := Index3D(second.rel);
    value := 0.0;

    for k := 0 to 4
      invariant value == LatticeSum3D(t, first, index, k)
    {
      var contribution := EntryContribution3D(t, first, Slice3D(index)[k]);
      value := value + contribution;
      LatticeSum3DStep(t, first, index, k);
    }

    ghost var firstSum := value;
    for k := 0 to 4
      invariant value == firstSum + LatticeSum3D(t, second, secondIndex, k)
    {
      var contribution := EntryContribution3D(t, second, Slice3D(secondIndex)[k]);
      value := value + contribution;
      LatticeSum3DStep(t, second, secondIndex, k);
    }
    value := value * NORM_CONSTANT_3D;
  }
}
