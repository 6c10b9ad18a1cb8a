/** `NoiseMap`: a `width × height` grid of values stored row by row in one
    buffer, cell `(x, y)` at index `x + y·width`. Reads outside the grid
    return the border value; writes outside it are dropped. */
module NoiseMap {
  const RASTER_MAX_WIDTH: nat := 32767
  const RASTER_MAX_HEIGHT: nat := 32767

  /** The index of cell `(x, y)` in a row-major grid `width` wide. */
  function Cell(x: nat, y: nat, width: nat): nat
  {
    x + y * width
  }

  /** One row further down is `width` further along the buffer. */
  lemma {:induction false} RowStep(a: nat, b: nat, width: nat)
    requires a < b
    ensures a * width + width <= b * width
    decreases b - a
  {
    assert (b - 1) * width + width == b * width;
    if a < b - 1 {
      RowStep(a, b - 1, width);
    }
  }

  /** Cell `(x, y)` of a grid `width` wide lies inside a buffer of
      `width·height` values. */
  lemma CellInBounds(x: nat, y: nat, width: nat, height: nat)
    requires x < width && y < height
    ensures Cell(x, y, width) < width * height
  {
    RowStep(y, height, width);
    assert height * width == width * height;
  }

  /** Distinct cells of a row-major grid have distinct indices. */
  lemma CellInjective(x: nat, y: nat, x': nat, y': nat, width: nat)
    requires x < width && x' < width
    requires Cell(x, y, width) == Cell(x', y', width)
    ensures x == x' && y == y'
  {
    if y < y' {
      RowStep(y, y', width);
    } else if y' < y {
      RowStep(y', y, width);
    }
  }

  class NoiseMap {
    /** `size.0`. */
    var width: nat
    /** `size.1`. */
    var height: nat
    /** `border_value`. */
    var borderValue: real
    /** `map`; its capacity is its length. */
    var buffer: array<real>

    /** The size is below the raster maximum, empty in both directions or
        in neither, and the buffer holds every cell. */
    predicate Valid()
      reads this
    {
      width < RASTER_MAX_WIDTH && height < RASTER_MAX_HEIGHT
      && (width == 0 <==> height == 0)
      && width * height <= buffer.Length
    }

    /** `initialize` (and `Default`): size (0, 0), border 0, no buffer. */
    constructor Initialize()
      ensures Valid()
      ensures width == 0 && height == 0 && borderValue == 0.0 && buffer.Length == 0
    {
      width, height := 0, 0;
      borderValue := 0.0;
      buffer := new real[0];
    }

    /** `NoiseMap::new(width, height)`: an initialized map resized; a fresh
        buffer reads 0 in every cell and the border reads 0 too. */
    constructor (width: nat, height: nat)
      requires width < RASTER_MAX_WIDTH && height < RASTER_MAX_HEIGHT
      ensures Valid() && borderValue == 0.0
      ensures width == 0 || height == 0 ==> this.width == 0 && this.height == 0
      ensures width > 0 && height > 0 ==> this.width == width && this.height == height
      ensures forall x: nat, y: nat :: GetValue(x, y) == 0.0
    {
      if width == 0 || height == 0 {
        this.width, this.height := 0, 0;
        buffer := new real[0];
      } else {
        this.width, this.height := width, height;
        buffer := new real[width * height](_ => 0.0);
      }
      borderValue := 0.0;
      new;
      forall x: nat, y: nat
        ensures GetValue(x, y) == 0.0
      {
        if x < this.width && y < this.height {
          CellInBounds(x, y, this.width, this.height);
        }
      }
    }

    /** `set_size(width, height)`: the assertions demand both below the
        raster maximum. A zero in either resets the whole map to its
        initial state, border value included. Otherwise the size changes,
        and the buffer is replaced by one of zeros only when it is too small
        for the new size; a large enough buffer keeps its values. */
    method SetSize(width: nat, height: nat)
      requires Valid()
      requires width < RASTER_MAX_WIDTH && height < RASTER_MAX_HEIGHT
      modifies this
      ensures Valid()
      ensures width == 0 || height == 0 ==>
        this.width == 0 && this.height == 0 && borderValue == 0.0 && buffer.Length == 0
      ensures width > 0 && height > 0 ==>
        this.width == width && this.height == height && borderValue == old(borderValue)
      ensures width > 0 && height > 0 && old(buffer.Length) < width * height ==>
        fresh(buffer) && buffer.Length == width * height && forall i :: 0 <= i < buffer.Length ==> buffer[i] == 0.0
      ensures width > 0 && height > 0 && width * height <= old(buffer.Length) ==>
        buffer == old(buffer) && buffer[..] == old(buffer[..])
    {
      if width == 0 || height == 0 {
        this.width, this.height := 0, 0;
        borderValue := 0.0;
        buffer := new real[0];
      } else {
        var mapSize := width * height;
        if buffer.Length < mapSize {
          buffer := new real[mapSize](_ => 0.0);
        }
        this.width, this.height := width, height;
      }
    }

    /** `set_border_value`: only the border value changes. */
    method SetBorderValue(borderValue: real)
      modifies this
      ensures this.borderValue == borderValue
      ensures width == old(width) && height == old(height) && buffer == old(buffer)
    {
      this.borderValue := borderValue;
    }

    /** `get_value(x, y)`: the cell at `x + y·width` inside the grid, the
        border value outside it. */
    function GetValue(x: nat, y: nat): real
      requires Valid()
      reads this, buffer
    {
      if x < width && y < height then
        CellInBounds(x, y, width, height);
        buffer[Cell(x, y, width)]
      else borderValue
    }

    /** `set_value(x, y, value)`: inside the grid the cell at `x + y·width`
        takes the value and every other cell keeps its own; outside it
        nothing changes. */
    method SetValue(x: nat, y: nat, value: real)
      requires Valid()
      modifies buffer
      ensures Valid()
      ensures forall i :: 0 <= i < buffer.Length ==>
                buffer[i] == if x < width && y < height && i == Cell(x, y, width) then value
                             else old(buffer[i])
      ensures forall x': nat, y': nat ::
                GetValue(x', y') == if x' == x && y' == y && x < width && y < height then value
                                    else old(GetValue(x', y'))
    {
      if x < width && y < height {
        var i := Cell(x, y, width);
        CellInBounds(x, y, width, height);
        buffer[i] := value;
      }
      forall x': nat, y': nat
        ensures GetValue(x', y') == if x' == x && y' == y && x < width && y < height then value
                                    else old(GetValue(x', y'))
      {
        if x < width && y < height && x' < width && y' < height {
          CellInBounds(x', y', width, height);
          if Cell(x', y', width) == Cell(x, y, width) {
            CellInjective(x', y', x, y, width);
          }
        }
      }
    }
  }
}
