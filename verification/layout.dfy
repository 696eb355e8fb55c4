/**
 * Grid layout arithmetic of the FadeIn component: how many 64-pixel tiles fit
 * in the viewport once 16 pixels of padding are taken off each side, and
 * whether the tile array the renderer allocates for that grid can exist.
 */
module Layout {
  import opened Options

  /** Side of one tile, in pixels. */
  const SquareSize: int := 64
  /** Padding removed from each side of the viewport, in pixels. */
  const Padding: int := 16
  /** Largest length `Array(n)` accepts; any other `n` throws a RangeError. */
  const MaxArrayLength: int := 0xFFFF_FFFF

  datatype Grid = Grid(cols: int, rows: int)

  /** The grid before the first calculation. */
  const EmptyGrid := Grid(0, 0)

  /**
   * Tiles along one axis of `extent` pixels: Math.floor((extent - 2 * Padding) / SquareSize).
   * Dafny's `/` is Euclidean, which is floor division for the positive divisor.
   * Nothing clamps the result, so an extent below twice the padding gives -1.
   */
  function Cells(extent: int): (n: int)
    ensures n * SquareSize <= extent - 2 * Padding < (n + 1) * SquareSize
    ensures n >= 0 <==> extent >= 2 * Padding
    ensures 0 <= extent < 2 * Padding ==> n == -1
  {
    (extent - 2 * Padding) / SquareSize
  }

  /** The grid calculateGrid stores for a viewport of `width` by `height` pixels. */
  function GridFor(width: int, height: int): (g: Grid)
    ensures g.cols * SquareSize + 2 * Padding <= width < (g.cols + 1) * SquareSize + 2 * Padding
    ensures g.rows * SquareSize + 2 * Padding <= height < (g.rows + 1) * SquareSize + 2 * Padding
  {
    Grid(Cells(width), Cells(height))
  }

  /**
   * Length of the array `Array(cols * rows)` that the renderer maps to tiles;
   * None where that call throws a RangeError (a negative or too large length).
   */
  function TileArrayLength(g: Grid): (r: Option<nat>)
    ensures r.Some? <==> 0 <= g.cols * g.rows <= MaxArrayLength
    ensures r.Some? ==> r.value == g.cols * g.rows
  {
    var n := g.cols * g.rows;
    if 0 <= n <= MaxArrayLength then Some(n) else None
  }

  /** The floor bracket determines the tile count along an axis uniquely. */
  lemma CellsUnique(extent: int, n: int)
    requires n * SquareSize <= extent - 2 * Padding < (n + 1) * SquareSize
    ensures n == Cells(extent)
  {
  }

  /** A wider viewport never has fewer tiles along that axis. */
  lemma CellsMonotone(a: int, b: int)
    requires a <= b
    ensures Cells(a) <= Cells(b)
  {
  }

  /** Each further SquareSize pixels of viewport adds exactly one tile along that axis. */
  lemma CellsStep(extent: int)
    ensures Cells(extent + SquareSize) == Cells(extent) + 1
  {
    CellsUnique(extent + SquareSize, Cells(extent) + 1);
  }

  /**
   * For a viewport of at least twice the padding on both axes the tiles fill
   * the padded area without overflowing it, one more column or row would not
   * fit, and the tile array has cols * rows entries.
   */
  lemma GridFits(width: int, height: int)
    requires width >= 2 * Padding && height >= 2 * Padding
    requires width * height <= MaxArrayLength
    ensures var g := GridFor(width, height);
      0 <= g.cols && 0 <= g.rows &&
      g.cols * SquareSize + 2 * Padding <= width < (g.cols + 1) * SquareSize + 2 * Padding &&
      g.rows * SquareSize + 2 * Padding <= height < (g.rows + 1) * SquareSize + 2 * Padding &&
      TileArrayLength(g) == Some(g.cols * g.rows)
  {
    var g := GridFor(width, height);
    assert g.cols <= width && g.rows <= height;
    assert g.cols * g.rows <= width * g.rows <= width * height by {
      MulMonotone(g.cols, width, g.rows);
      MulMonotone(g.rows, height, width);
    }
  }

  lemma MulMonotone(a: int, b: int, c: int)
    requires 0 <= a <= b && 0 <= c
    ensures a * c <= b * c
  {
  }

  /**
   * The unclamped arithmetic on a viewport narrower than twice the padding on
   * both axes: both counts are -1, so the renderer allocates one phantom tile.
   */
  lemma NarrowViewportPhantomTile(width: int, height: int)
    requires 0 <= width < 2 * Padding && 0 <= height < 2 * Padding
    ensures GridFor(width, height) == Grid(-1, -1)
    ensures TileArrayLength(GridFor(width, height)) == Some(1)
  {
  }

  /**
   * Narrow on one axis only: a count of -1 times a positive count is a
   * negative array length, on which `Array(n)` throws.
   */
  lemma NarrowViewportRangeError(width: int, height: int)
    requires 0 <= width < 2 * Padding && height >= 2 * Padding + SquareSize
    ensures GridFor(width, height).cols == -1 && GridFor(width, height).rows >= 1
    ensures TileArrayLength(GridFor(width, height)) == None
  {
    CellsMonotone(2 * Padding + SquareSize, height);
    CellsStep(2 * Padding);
  }
}
