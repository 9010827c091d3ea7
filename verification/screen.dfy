/**
 * The 64x32 monochrome framebuffer: one byte per pixel, row-major, so pixel
 * (x, y) lives at index x + y * 64. Only 0 (off) and 1 (on) are written.
 */
module Screen {
  import opened Bits

  const Width: nat := 64
  const Height: nat := 32

  /** The length of the pixel buffer, written as a literal in the Rust code. */
  const PixelCount: nat := 2048

  type Pixels = s: seq<Byte> | |s| == PixelCount witness seq(PixelCount, _ => 0)

  datatype Screen = Screen(pixels: Pixels)

  datatype PixelState = On | Off

  /** Row-major position of pixel (x, y). */
  function CellIndex(x: nat, y: nat): nat
  {
    x + y * Width
  }

  /** The coordinate lies on the 64x32 grid. */
  predicate OnGrid(x: nat, y: nat)
  {
    x < Width && y < Height
  }

  /** The byte the Rust code stores for a pixel state. */
  function Level(state: PixelState): Byte
  {
    if state.On? then 1 else 0
  }

  /** Every cell holds 0 or 1. */
  predicate Binary(s: Screen)
  {
    forall k :: 0 <= k < PixelCount ==> s.pixels[k] <= 1
  }

  /**
   * The buffer is exactly one grid's worth of cells, every grid coordinate
   * indexes a cell, and distinct coordinates index distinct cells.
   */
  lemma GridLayout(x: nat, y: nat, x': nat, y': nat)
    requires OnGrid(x, y) && OnGrid(x', y')
    ensures PixelCount == Width * Height
    ensures CellIndex(x, y) < PixelCount
    ensures CellIndex(x, y) == CellIndex(x', y') <==> x == x' && y == y'
  {
  }

  /** Every cell is the image of exactly one grid coordinate. */
  lemma CellCoordinates(k: nat)
    requires k < PixelCount
    ensures OnGrid(k % Width, k / Width)
    ensures CellIndex(k % Width, k / Width) == k
  {
  }

  /** A framebuffer with every pixel off. */
  function New(): (s: Screen)
    ensures forall k :: 0 <= k < PixelCount ==> s.pixels[k] == 0
  {
    Screen(seq(PixelCount, _ => 0))
  }

  /**
   * Writes one pixel. The Rust code computes the index without checking the
   * coordinate against the grid, so it only demands that the index fall
   * inside the buffer.
   */
  function UpdatePixel(s: Screen, x: nat, y: nat, state: PixelState): (r: Screen)
    requires CellIndex(x, y) < PixelCount
    ensures r.pixels[CellIndex(x, y)] == Level(state)
    ensures forall k :: 0 <= k < PixelCount && k != CellIndex(x, y) ==> r.pixels[k] == s.pixels[k]
  {
    Screen(s.pixels[CellIndex(x, y) := Level(state)])
  }

  /** Reads one pixel: any non-zero byte reads as on. */
  function GetPixelState(s: Screen, x: nat, y: nat): (r: PixelState)
    requires CellIndex(x, y) < PixelCount
    ensures r == Off <==> s.pixels[CellIndex(x, y)] == 0
  {
    if s.pixels[CellIndex(x, y)] == 0 then Off else On
  }

  /**
   * Turns every pixel off by writing `Off` column by column, as the Rust code's
   * nested loop does. Whatever the prior contents, the result is the blank
   * framebuffer, so clearing twice is the same as clearing once.
   */
  method Clear(s: Screen) returns (r: Screen)
    ensures r == New()
    ensures forall x: nat, y: nat :: OnGrid(x, y) ==> GetPixelState(r, x, y) == Off
  {
    r := s;
    var x := 0;
    while x < Width
      invariant 0 <= x <= Width
      invariant forall cx: nat, cy: nat :: cx < x && cy < Height ==> r.pixels[CellIndex(cx, cy)] == 0
    {
      var y := 0;
      while y < Height
        invariant 0 <= y <= Height
        invariant forall cx: nat, cy: nat :: cx < x && cy < Height ==> r.pixels[CellIndex(cx, cy)] == 0
        invariant forall cy: nat :: cy < y ==> r.pixels[CellIndex(x, cy)] == 0
      {
        r := UpdatePixel(r, x, y, Off);
        y := y + 1;
      }
      x := x + 1;
    }
    forall k | 0 <= k < PixelCount
      ensures r.pixels[k] == 0
    {
      CellCoordinates(k);
    }
    assert r.pixels == New().pixels;
  }

  /** Reading a pixel back returns the state just written to it. */
  lemma UpdateThenGet(s: Screen, x: nat, y: nat, state: PixelState)
    requires CellIndex(x, y) < PixelCount
    ensures GetPixelState(UpdatePixel(s, x, y, state), x, y) == state
  {
  }

  /** Writing one grid pixel leaves every other grid pixel reading as before. */
  lemma UpdateLeavesOthers(s: Screen, x: nat, y: nat, state: PixelState, x': nat, y': nat)
    requires OnGrid(x, y) && OnGrid(x', y')
    requires x != x' || y != y'
    ensures GetPixelState(UpdatePixel(s, x, y, state), x', y') == GetPixelState(s, x', y')
  {
    GridLayout(x, y, x', y');
  }

  /**
   * Off the grid the frame property fails: column 64 of row 0 is the same cell
   * as column 0 of row 1, because the Rust code does not check coordinates.
   */
  lemma OffGridAliasesNextRow(s: Screen, state: PixelState)
    ensures UpdatePixel(s, Width, 0, state) == UpdatePixel(s, 0, 1, state)
    ensures GetPixelState(UpdatePixel(s, Width, 0, state), 0, 1) == state
  {
  }

  /** Only 0 and 1 are ever stored: a blank screen is binary and writes keep it so. */
  lemma UpdateKeepsBinary(s: Screen, x: nat, y: nat, state: PixelState)
    requires CellIndex(x, y) < PixelCount
    requires Binary(s)
    ensures Binary(New())
    ensures Binary(UpdatePixel(s, x, y, state))
  {
  }
}
