/**
 * Integer pixel geometry shared by the board panel and the preview panel.
 * All arithmetic is Java `int` arithmetic; panel sizes are the non-negative
 * values `getWidth()`/`getHeight()` return.
 */
module Geometry {

  datatype Point = Point(x: int, y: int)

  /** An AWT rectangle: top-left corner, width and height. */
  datatype Rect = Rect(x: int, y: int, w: int, h: int)

  /** Stroke width of the block outline (`THICKNESS`). */
  const STROKE: int := 3
  /** Inner padding of the block outline (`PADDING`). */
  const PADDING: int := 0

  /** Java's `a / 2`, which truncates toward zero. */
  function Half(a: int): (r: int)
    ensures a >= 0 ==> 0 <= a - 2 * r <= 1
    ensures a < 0 ==> -1 <= a - 2 * r <= 0
  {
    if a >= 0 then a / 2 else -((-a) / 2)
  }

  /**
   * Offset that centres an extent inside a panel dimension:
   * `panel / 2 - extent / 2`. The two margins differ by at most one pixel,
   * and an extent that fits leaves both margins non-negative.
   */
  function CenterOffset(panel: int, extent: int): (r: int)
    ensures panel >= 0 && extent >= 0 ==> -1 <= (panel - r - extent) - r <= 1
    ensures 0 <= extent <= panel ==> 0 <= r && r + extent <= panel
  {
    Half(panel) - Half(extent)
  }

  lemma MulLeq(a: int, b: int, c: int)
    requires 0 <= a <= b && c >= 0
    ensures a * c <= b * c
  {}

  lemma DivBounds(n: int, d: int)
    requires n >= 0 && d > 0
    ensures (n / d) * d <= n < (n / d + 1) * d
  {}

  /**
   * Side of a square block: the smaller of the per-axis quotients
   * `panelH / rows` and `panelW / cols`.
   */
  function BlockSize(panelW: nat, panelH: nat, cols: int, rows: int): nat
    requires cols > 0 && rows > 0
  {
    var heightCheck := panelH / rows;
    var widthCheck := panelW / cols;
    if heightCheck < widthCheck then heightCheck else widthCheck
  }

  /** The block size is the largest at which the whole board fits the panel. */
  lemma BlockSizeIsLargestFit(panelW: nat, panelH: nat, cols: int, rows: int)
    requires cols > 0 && rows > 0
    ensures var bs := BlockSize(panelW, panelH, cols, rows);
      bs * cols <= panelW && bs * rows <= panelH &&
      ((bs + 1) * cols > panelW || (bs + 1) * rows > panelH)
  {
    var heightCheck := panelH / rows;
    var widthCheck := panelW / cols;
    var bs := BlockSize(panelW, panelH, cols, rows);
    DivBounds(panelH, rows);
    DivBounds(panelW, cols);
    if heightCheck < widthCheck {
      assert bs == heightCheck;
      MulLeq(heightCheck, widthCheck, cols);
      assert bs * cols <= panelW;
      assert (bs + 1) * rows > panelH;
    } else {
      assert bs == widthCheck;
      MulLeq(widthCheck, heightCheck, rows);
      assert bs * rows <= panelH;
      assert (bs + 1) * cols > panelW;
    }
  }

  /** Where a board cell is drawn: block size, origin and the board's row count. */
  datatype Layout = Layout(blockSize: int, origin: Point, rows: int)

  /**
   * Pixel rectangle of cell (x, y); row 0 is the bottom row, so the pixel
   * row is inverted: `(rows - y - 1) * blockSize + origin.y`.
   */
  function CellRect(l: Layout, x: int, y: int): Rect
  {
    Rect(x * l.blockSize + l.origin.x, (l.rows - y - 1) * l.blockSize + l.origin.y,
         l.blockSize, l.blockSize)
  }

  lemma MulCancel(a: int, b: int, c: int)
    requires c > 0 && a * c == b * c
    ensures a == b
  {
    if a < b { MulLeq(a + 1, b, c); } else if b < a { MulLeq(b + 1, a, c); }
  }

  /** With a positive block size distinct cells get distinct rectangles. */
  lemma CellRectInjective(l: Layout, x1: int, y1: int, x2: int, y2: int)
    requires l.blockSize > 0
    requires CellRect(l, x1, y1) == CellRect(l, x2, y2)
    ensures x1 == x2 && y1 == y2
  {
    MulCancel(x1, x2, l.blockSize);
    MulCancel(l.rows - y1 - 1, l.rows - y2 - 1, l.blockSize);
  }

  /**
   * A cell of a `cols`-wide board lies inside the board's pixel area
   * `[origin.x, origin.x + cols * bs) x [origin.y, origin.y + rows * bs)`,
   * and the row above it is drawn exactly one block higher.
   */
  lemma CellRectInsideBoard(l: Layout, cols: int, x: int, y: int)
    requires l.blockSize >= 0 && 0 <= x < cols && 0 <= y < l.rows
    ensures var r := CellRect(l, x, y);
      l.origin.x <= r.x && r.x + r.w <= l.origin.x + cols * l.blockSize &&
      l.origin.y <= r.y && r.y + r.h <= l.origin.y + l.rows * l.blockSize
    ensures CellRect(l, x, y + 1).y + l.blockSize == CellRect(l, x, y).y
  {
    MulLeq(0, x, l.blockSize);
    MulLeq(x + 1, cols, l.blockSize);
    MulLeq(0, l.rows - y - 1, l.blockSize);
    MulLeq(l.rows - y, l.rows, l.blockSize);
  }

  /**
   * The outline drawn on top of a filled block: inset by `PADDING + STROKE / 2`
   * and `2 * PADDING + STROKE` smaller. The 3-pixel stroke centred on it starts
   * on the block's first pixel and ends one pixel short of its far edge.
   */
  function Outline(r: Rect): (o: Rect)
    ensures o.x - STROKE / 2 == r.x && o.y - STROKE / 2 == r.y
    ensures o.x + o.w + STROKE / 2 == r.x + r.w - 1
    ensures o.y + o.h + STROKE / 2 == r.y + r.h - 1
  {
    Rect(r.x + PADDING + STROKE / 2, r.y + PADDING + STROKE / 2,
         r.w - PADDING * 2 - STROKE, r.h - PADDING * 2 - STROKE)
  }
}
