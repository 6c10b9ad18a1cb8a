/** Checkerboard noise: the point is divided by the grid size, floored with
    `floor_to_isize`, and the cell is coloured -1 or 1 by the exclusive or
    of the low bits of its integer coordinates. */
module Checkerboard {
  import opened Numeric
  import opened Vectors

  /** `c & 1` on an `isize`: the low bit, which for a negative `c` is the
      Euclidean remainder modulo 2. */
  function LowBit(c: int): (b: int)
    ensures b == 0 || b == 1
    ensures (c - b) % 2 == 0
  {
    c % 2
  }

  /** `^` on two bits. */
  function XorBit(a: int, b: int): (r: int)
    requires (a == 0 || a == 1) && (b == 0 || b == 1)
    ensures r == 0 || r == 1
    ensures r == 0 <==> a == b
  {
    if a == b then 0 else 1
  }

  /** `(c.x & 1) ^ (c.y & 1) ^ ..`, folded left to right over the coordinates. */
  function XorLowBits(c: seq<int>): (b: int)
    ensures b == 0 || b == 1
  {
    if |c| == 0 then 0 else XorBit(XorLowBits(c[..|c| - 1]), LowBit(c[|c| - 1]))
  }

  /** Reference definition: the sum of the coordinates. */
  function IntSum(c: seq<int>): int
  {
    if |c| == 0 then 0 else IntSum(c[..|c| - 1]) + c[|c| - 1]
  }

  /** The colour of a cell: -1 when the exclusive or of the low bits is 0,
      1 otherwise. */
  function Colour(cell: seq<int>): (r: real)
    ensures r == -1.0 || r == 1.0
  {
    if XorLowBits(cell) == 0 then -1.0 else 1.0
  }

  /** `checkerboard_2d`, `checkerboard_3d`, `checkerboard_4d`: the colour of
      the cell `floor_to_isize(point / grid_size)`. */
  function Checkerboard(point: seq<real>, gridSize: real): (r: real)
    requires 2 <= |point| <= 4 && gridSize != 0.0
    ensures r == -1.0 || r == 1.0
  {
    Colour(FloorAll(DivScalar(point, gridSize)))
  }

  /** The exclusive or of the low bits is the parity of the coordinates' sum. */
  lemma {:induction false} XorLowBitsIsParity(c: seq<int>)
    ensures XorLowBits(c) == IntSum(c) % 2
  {
    if |c| > 0 {
      XorLowBitsIsParity(c[..|c| - 1]);
    }
  }

  /** A cell is coloured -1 exactly when the sum of its coordinates is even,
      so a cell and its neighbour along any axis have opposite colours. */
  lemma ColourIsParity(cell: seq<int>, i: nat)
    requires i < |cell|
    ensures Colour(cell) == -1.0 <==> IntSum(cell) % 2 == 0
    ensures Colour(cell[i := cell[i] + 1]) == -Colour(cell)
  {
    XorLowBitsIsParity(cell);
    XorLowBitsIsParity(cell[i := cell[i] + 1]);
    IntSumIncrement(cell, i);
  }

  /** A point is coloured -1 exactly when the sum of its floored coordinates
      is even. */
  lemma CheckerboardIsParity(point: seq<real>, gridSize: real)
    requires 2 <= |point| <= 4 && gridSize != 0.0
    ensures Checkerboard(point, gridSize) == -1.0
        <==> IntSum(FloorAll(DivScalar(point, gridSize))) % 2 == 0
  {
    XorLowBitsIsParity(FloorAll(DivScalar(point, gridSize)));
  }

  /** In 2D the colour is -1 exactly when the low bits of the two floored
      coordinates are equal. */
  lemma Checkerboard2D(point: seq<real>, gridSize: real)
    requires |point| == 2 && gridSize != 0.0
    ensures var floor := FloorAll(DivScalar(point, gridSize));
      Checkerboard(point, gridSize) == -1.0 <==> LowBit(floor[0]) == LowBit(floor[1])
  {
    var floor := FloorAll(DivScalar(point, gridSize));
    assert floor[..1][..0] == [];
    assert XorLowBits(floor[..1]) == LowBit(floor[0]);
    assert floor[..2] == floor;
    assert XorLowBits(floor) == XorBit(LowBit(floor[0]), LowBit(floor[1]));
  }

  /** Raising one coordinate by one does not change the sum's other terms. */
  lemma {:induction false} IntSumIncrement(c: seq<int>, i: nat)
    requires i < |c|
    ensures IntSum(c[i := c[i] + 1]) == IntSum(c) + 1
  {
    var d := c[i := c[i] + 1];
    if i < |c| - 1 {
      assert d[..|d| - 1] == c[..|c| - 1][i := c[i] + 1];
      IntSumIncrement(c[..|c| - 1], i);
    } else {
      assert d[..|d| - 1] == c[..|c| - 1];
    }
  }

  /** Moving one grid step along any axis from a point inside a cell (not on
      a cell boundary on that axis) lands in a cell of the other colour. */
  lemma NeighbourCellFlips(point: seq<real>, gridSize: real, i: nat)
    requires 2 <= |point| <= 4 && gridSize != 0.0 && i < |point|
    requires var x := point[i] / gridSize; x != x.Floor as real
    ensures Checkerboard(point[i := point[i] + gridSize], gridSize) == -Checkerboard(point, gridSize)
  {
    var moved := point[i := point[i] + gridSize];
    var x := point[i] / gridSize;
    DivAddDivisor(point[i], gridSize);
    assert FloorToIsize(x + 1.0) == FloorToIsize(x) + 1;
    var floor := FloorAll(DivScalar(point, gridSize));
    var floor' := FloorAll(DivScalar(moved, gridSize));
    assert floor'[i] == floor[i] + 1;
    assert floor' == floor[i := floor[i] + 1] by {
      assert forall j :: 0 <= j < |point| && j != i ==> floor'[j] == floor[j];
    }
    ColourIsParity(floor, i);
  }

  /** `floor_to_isize` sends 0.0 to cell -1 and one grid step to cell 1, so
      on the line through the origin two neighbouring cells share a colour. */
  lemma ZeroAndOneStepShareColour(point: seq<real>, gridSize: real, i: nat)
    requires 2 <= |point| <= 4 && gridSize > 0.0 && i < |point|
    ensures Checkerboard(point[i := 0.0], gridSize) == Checkerboard(point[i := gridSize], gridSize)
  {
    var atZero := point[i := 0.0];
    var atOne := point[i := gridSize];
    var floor := FloorAll(DivScalar(atZero, gridSize));
    assert floor[i] == -1 by { FloorToIsizeOfZero(); }
    assert gridSize / gridSize == 1.0;
    assert FloorToIsize(1.0) == 1;
    assert FloorAll(DivScalar(atOne, gridSize)) == floor[i := floor[i] + 1][i := 1];
    ColourIsParity(floor, i);
    ColourIsParity(floor[i := floor[i] + 1], i);
    assert floor[i := floor[i] + 1][i := 1] == floor[i := floor[i] + 1][i := floor[i] + 1 + 1];
  }
}
