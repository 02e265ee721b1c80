/**
 * What the board panel's `paintComponent` draws, as pixel geometry: the
 * backdrop, one command per occupied visible cell (`drawBlock`), the
 * skeletons over the completed rows (`drawSkellies`) and the sword sprite.
 * The pure functions specify; `DrawBoard` and `DrawSkeletons` are the
 * source's nested loops.
 */
module BoardRender {
  import opened BoardTypes
  import opened Geometry
  import Display

  /** Rows at the top of the board that are never drawn (`REMOVED_LINES`). */
  const HIDDEN_ROWS: nat := 4

  /** What `drawBlock` draws for an occupied cell. */
  datatype BlockCmd =
    | Plain(cell: Rect, outline: Rect, color: Color)   // filled rectangle plus its outline
    | GuardSprite(cell: Rect)                          // themed: a guard image in the cell

  /** The drawing of occupied cell (x, y) of colour `c`. */
  function CmdAt(l: Layout, x: int, y: int, c: Color, paused: bool, theme: bool): (cmd: BlockCmd)
    ensures cmd.cell == CellRect(l, x, y)
    ensures cmd.Plain? <==> !theme
    ensures cmd.Plain? ==> cmd.outline == Outline(cmd.cell) && cmd.color == (if paused then GRAY else c)
  {
    var r := CellRect(l, x, y);
    if theme then GuardSprite(r) else Plain(r, Outline(r), if paused then GRAY else c)
  }

  /** Commands for the first `n` cells of row `y`, left to right. */
  function RowCmds(row: seq<Cell>, n: nat, y: int, l: Layout, paused: bool, theme: bool): seq<BlockCmd>
    requires n <= |row|
    decreases n
  {
    if n == 0 then []
    else
      RowCmds(row, n - 1, y, l, paused, theme) +
      (match row[n - 1]
       case Empty => []
       case Filled(c) => [CmdAt(l, n - 1, y, c, paused, theme)])
  }

  /** Commands for rows `0 .. k-1`, bottom row first. */
  function GridCmds(grid: Grid, k: nat, l: Layout, paused: bool, theme: bool): seq<BlockCmd>
    requires k <= |grid|
    decreases k
  {
    if k == 0 then []
    else GridCmds(grid, k - 1, l, paused, theme) + RowCmds(grid[k - 1], |grid[k - 1]|, k - 1, l, paused, theme)
  }

  /** Number of rows drawn: `size - REMOVED_LINES`, none for a shorter grid. */
  function VisibleRows(grid: Grid): (n: nat)
    ensures n <= |grid|
    ensures |grid| >= HIDDEN_ROWS ==> n + HIDDEN_ROWS == |grid|
    ensures |grid| <= HIDDEN_ROWS ==> n == 0
  {
    if |grid| > HIDDEN_ROWS then |grid| - HIDDEN_ROWS else 0
  }

  function BoardCmds(grid: Grid, l: Layout, paused: bool, theme: bool): seq<BlockCmd>
  {
    GridCmds(grid, VisibleRows(grid), l, paused, theme)
  }

  /** Every occupied cell among the first `n` of a row is drawn. */
  lemma {:induction false} RowCmdsComplete(row: seq<Cell>, n: nat, y: int, l: Layout, paused: bool, theme: bool, x: int)
    requires n <= |row| && 0 <= x < n && row[x].Filled?
    ensures CmdAt(l, x, y, row[x].color, paused, theme) in RowCmds(row, n, y, l, paused, theme)
    decreases n
  {
    if x < n - 1 {
      RowCmdsComplete(row, n - 1, y, l, paused, theme, x);
    }
  }

  /** Every command of a row prefix draws an occupied cell of it. */
  lemma {:induction false} RowCmdsSound(row: seq<Cell>, n: nat, y: int, l: Layout, paused: bool, theme: bool, cmd: BlockCmd)
    requires n <= |row| && cmd in RowCmds(row, n, y, l, paused, theme)
    ensures exists x :: 0 <= x < n && row[x].Filled? && cmd == CmdAt(l, x, y, row[x].color, paused, theme)
    decreases n
  {
    var prev := RowCmds(row, n - 1, y, l, paused, theme);
    if cmd in prev {
      RowCmdsSound(row, n - 1, y, l, paused, theme, cmd);
    } else {
      assert row[n - 1].Filled? && cmd == CmdAt(l, n - 1, y, row[n - 1].color, paused, theme);
    }
  }

  lemma {:induction false} GridCmdsComplete(grid: Grid, k: nat, l: Layout, paused: bool, theme: bool, x: int, y: int)
    requires k <= |grid| && 0 <= y < k && 0 <= x < |grid[y]| && grid[y][x].Filled?
    ensures CmdAt(l, x, y, grid[y][x].color, paused, theme) in GridCmds(grid, k, l, paused, theme)
    decreases k
  {
    if y < k - 1 {
      GridCmdsComplete(grid, k - 1, l, paused, theme, x, y);
    } else {
      RowCmdsComplete(grid[y], |grid[y]|, y, l, paused, theme, x);
    }
  }

  lemma {:induction false} GridCmdsSound(grid: Grid, k: nat, l: Layout, paused: bool, theme: bool, cmd: BlockCmd)
    requires k <= |grid| && cmd in GridCmds(grid, k, l, paused, theme)
    ensures exists y, x :: 0 <= y < k && 0 <= x < |grid[y]| && grid[y][x].Filled? &&
                           cmd == CmdAt(l, x, y, grid[y][x].color, paused, theme)
    decreases k
  {
    var prev := GridCmds(grid, k - 1, l, paused, theme);
    var row := grid[k - 1];
    assert GridCmds(grid, k, l, paused, theme) == prev + RowCmds(row, |row|, k - 1, l, paused, theme);
    if cmd in prev {
      GridCmdsSound(grid, k - 1, l, paused, theme, cmd);
      var y, x :| 0 <= y < k - 1 && 0 <= x < |grid[y]| && grid[y][x].Filled? &&
                  cmd == CmdAt(l, x, y, grid[y][x].color, paused, theme);
      assert 0 <= y < k;
    } else {
      RowCmdsSound(row, |row|, k - 1, l, paused, theme, cmd);
      var x :| 0 <= x < |row| && row[x].Filled? && cmd == CmdAt(l, x, k - 1, row[x].color, paused, theme);
      assert 0 <= k - 1 < k && grid[k - 1][x].Filled? &&
             cmd == CmdAt(l, x, k - 1, grid[k - 1][x].color, paused, theme);
    }
  }

  /**
   * The board drawing holds exactly the occupied cells of the visible rows:
   * each such cell is drawn, each command draws such a cell, and with a
   * positive block size no command lands on a cell of the hidden top rows.
   */
  lemma BoardCmdsExact(grid: Grid, l: Layout, paused: bool, theme: bool)
    ensures forall y, x :: 0 <= y < VisibleRows(grid) && 0 <= x < |grid[y]| && grid[y][x].Filled? ==>
      CmdAt(l, x, y, grid[y][x].color, paused, theme) in BoardCmds(grid, l, paused, theme)
    ensures forall cmd :: cmd in BoardCmds(grid, l, paused, theme) ==>
      exists y, x :: 0 <= y < VisibleRows(grid) && 0 <= x < |grid[y]| && grid[y][x].Filled? &&
                     cmd == CmdAt(l, x, y, grid[y][x].color, paused, theme)
    ensures l.blockSize > 0 ==> forall cmd, y, x :: cmd in BoardCmds(grid, l, paused, theme) && VisibleRows(grid) <= y ==>
                                  cmd.cell != CellRect(l, x, y)
  {
    var k := VisibleRows(grid);
    forall y, x | 0 <= y < k && 0 <= x < |grid[y]| && grid[y][x].Filled?
      ensures CmdAt(l, x, y, grid[y][x].color, paused, theme) in BoardCmds(grid, l, paused, theme)
    {
      GridCmdsComplete(grid, k, l, paused, theme, x, y);
    }
    forall cmd | cmd in BoardCmds(grid, l, paused, theme)
      ensures exists y, x :: 0 <= y < k && 0 <= x < |grid[y]| && grid[y][x].Filled? &&
                             cmd == CmdAt(l, x, y, grid[y][x].color, paused, theme)
    {
      GridCmdsSound(grid, k, l, paused, theme, cmd);
    }
    if l.blockSize > 0 {
      forall cmd, y, x | cmd in BoardCmds(grid, l, paused, theme) && k <= y
        ensures cmd.cell != CellRect(l, x, y)
      {
        GridCmdsSound(grid, k, l, paused, theme, cmd);
        var y', x' :| 0 <= y' < k && 0 <= x' < |grid[y']| && grid[y'][x'].Filled? &&
                      cmd == CmdAt(l, x', y', grid[y'][x'].color, paused, theme);
        if cmd.cell == CellRect(l, x, y) {
          CellRectInjective(l, x, y, x', y');
        }
      }
    }
  }

  /**
   * `paintComponent`'s board loop: rows `0 .. size - REMOVED_LINES - 1`,
   * one `DrawRow` each.
   */
  method DrawBoard(grid: Grid, l: Layout, paused: bool, theme: bool) returns (cmds: seq<BlockCmd>)
    ensures cmds == BoardCmds(grid, l, paused, theme)
  {
    cmds := [];
    var y := 0;
    while y < |grid| - HIDDEN_ROWS
      invariant 0 <= y <= VisibleRows(grid)
      invariant cmds == GridCmds(grid, y, l, paused, theme)
    {
      var rowCmds := DrawRow(grid[y], y, l, paused, theme);
      cmds := cmds + rowCmds;
      y := y + 1;
    }
  }

  /** The inner loop over one row, left to right: one `drawBlock` per occupied cell. */
  method DrawRow(row: seq<Cell>, y: int, l: Layout, paused: bool, theme: bool) returns (cmds: seq<BlockCmd>)
    ensures cmds == RowCmds(row, |row|, y, l, paused, theme)
  {
    cmds := [];
    var x := 0;
    while x < |row|
      invariant 0 <= x <= |row|
      invariant cmds == RowCmds(row, x, y, l, paused, theme)
    {
      if row[x].Filled? {
        cmds := cmds + [CmdAt(l, x, y, row[x].color, paused, theme)];
      }
      x := x + 1;
    }
  }

  // ---- skeletons ----

  /** Cells `hi, hi-1, .., lo` of row `row`, in that order. */
  function SkeletonRun(l: Layout, row: int, hi: int, lo: int): seq<Rect>
    decreases hi + 1 - lo
  {
    if lo > hi then [] else SkeletonRun(l, row, hi, lo + 1) + [CellRect(l, lo, row)]
  }

  /** Skeletons over the first `k` completed rows, columns `width-1` down to `dead`. */
  function Skeletons(l: Layout, rows: seq<int>, k: nat, width: int, dead: int): seq<Rect>
    requires k <= |rows|
    decreases k
  {
    if k == 0 then [] else Skeletons(l, rows, k - 1, width, dead) + SkeletonRun(l, rows[k - 1], width - 1, dead)
  }

  lemma {:induction false} SkeletonRunLength(l: Layout, row: int, hi: int, lo: int)
    ensures |SkeletonRun(l, row, hi, lo)| == if lo > hi then 0 else hi + 1 - lo
    decreases hi + 1 - lo
  {
    if lo <= hi {
      SkeletonRunLength(l, row, hi, lo + 1);
    }
  }

  /** A run covers exactly the cells of its row in columns `lo .. hi`. */
  lemma {:induction false} SkeletonRunCells(l: Layout, row: int, hi: int, lo: int)
    ensures forall r :: r in SkeletonRun(l, row, hi, lo) <==> exists c :: lo <= c <= hi && r == CellRect(l, c, row)
    decreases hi + 1 - lo
  {
    if lo <= hi {
      SkeletonRunCells(l, row, hi, lo + 1);
      assert SkeletonRun(l, row, hi, lo) == SkeletonRun(l, row, hi, lo + 1) + [CellRect(l, lo, row)];
    }
  }

  /**
   * Where the skeletons stand: a rectangle is drawn exactly when it is the
   * cell of one of the first `k` completed rows in a column of `[dead, width)`.
   */
  lemma {:induction false} SkeletonsCells(l: Layout, rows: seq<int>, k: nat, width: int, dead: int)
    requires k <= |rows|
    ensures forall r :: r in Skeletons(l, rows, k, width, dead) <==>
      exists i, c :: 0 <= i < k && dead <= c < width && r == CellRect(l, c, rows[i])
    decreases k
  {
    if k > 0 {
      var prev := Skeletons(l, rows, k - 1, width, dead);
      var run := SkeletonRun(l, rows[k - 1], width - 1, dead);
      SkeletonsCells(l, rows, k - 1, width, dead);
      SkeletonRunCells(l, rows[k - 1], width - 1, dead);
      assert Skeletons(l, rows, k, width, dead) == prev + run;
      forall r | r in prev + run
        ensures exists i, c :: 0 <= i < k && dead <= c < width && r == CellRect(l, c, rows[i])
      {
        if r in prev {
          var i, c :| 0 <= i < k - 1 && dead <= c < width && r == CellRect(l, c, rows[i]);
          assert 0 <= i < k;
        } else {
          var c :| dead <= c <= width - 1 && r == CellRect(l, c, rows[k - 1]);
          assert 0 <= k - 1 < k && dead <= c < width;
        }
      }
      forall r, i, c | 0 <= i < k && dead <= c < width && r == CellRect(l, c, rows[i])
        ensures r in prev + run
      {
        if i < k - 1 {
          assert r in prev;
        } else {
          assert r in run;
        }
      }
    }
  }

  /**
   * One skeleton per completed row and per dead guard's column: with
   * `0 <= dead <= width` there are `|rows| * (width - dead)` of them.
   */
  lemma {:induction false} SkeletonsCount(l: Layout, rows: seq<int>, k: nat, width: int, dead: int)
    requires k <= |rows|
    ensures 0 <= dead <= width ==> |Skeletons(l, rows, k, width, dead)| == k * (width - dead)
    decreases k
  {
    if k > 0 && 0 <= dead <= width {
      SkeletonsCount(l, rows, k - 1, width, dead);
      SkeletonRunLength(l, rows[k - 1], width - 1, dead);
      assert k * (width - dead) == (k - 1) * (width - dead) + (width - dead);
    }
  }

  /** `drawSkellies`: for each completed row, columns `width-1` down to `dead`. */
  method DrawSkeletons(l: Layout, rows: seq<int>, width: int, dead: int) returns (rects: seq<Rect>)
    ensures rects == Skeletons(l, rows, |rows|, width, dead)
  {
    rects := [];
    var i := 0;
    while i < |rows|
      invariant 0 <= i <= |rows|
      invariant rects == Skeletons(l, rows, i, width, dead)
    {
      var row := rows[i];
      var rowStart := rects;
      var col := width - 1;
      while col >= dead
        invariant col <= width - 1
        invariant dead - 1 <= col || col == width - 1
        invariant rects == rowStart + SkeletonRun(l, row, width - 1, col + 1)
        decreases col + 1 - dead
      {
        rects := rects + [CellRect(l, col, row)];
        col := col - 1;
      }
      i := i + 1;
    }
  }

  // ---- the whole picture ----

  datatype PaintError =
    | NoBoardData       // no snapshot has arrived yet: `myGameData` is null
    | NoCompletedLine   // animating with an empty completed-lines list: `get(0)` fails

  datatype Scene = Scene(
    backdrop: Rect,
    blocks: seq<BlockCmd>,
    skeletons: seq<Rect>,
    link: Option<Rect>,
    pauseBanner: bool,
    gameOverBanner: bool)

  /** Board origin: the scaled board centred in the panel. */
  function BoardOrigin(panelW: nat, panelH: nat, width: nat, height: nat, bs: nat): Point
  {
    Point(CenterOffset(panelW, width * bs), CenterOffset(panelH, height * bs))
  }

  /** The layout `paintComponent` computes for a panel of the given size. */
  function BoardLayout(panelW: nat, panelH: nat, width: nat, height: nat): Layout
    requires width > 0 && height > 0
  {
    var bs := BlockSize(panelW, panelH, width, height);
    Layout(bs, BoardOrigin(panelW, panelH, width, height, bs), height)
  }

  /**
   * The board is drawn at the largest block size that fits, centred in the
   * panel: both margins are non-negative and differ by at most one pixel.
   */
  lemma BoardLayoutCentred(panelW: nat, panelH: nat, width: nat, height: nat)
    requires width > 0 && height > 0
    ensures var l := BoardLayout(panelW, panelH, width, height);
      l.blockSize == BlockSize(panelW, panelH, width, height) && l.rows == height &&
      0 <= l.origin.x && l.origin.x + width * l.blockSize <= panelW &&
      0 <= l.origin.y && l.origin.y + height * l.blockSize <= panelH &&
      -1 <= (panelW - l.origin.x - width * l.blockSize) - l.origin.x <= 1 &&
      -1 <= (panelH - l.origin.y - height * l.blockSize) - l.origin.y <= 1
  {
    var bs := BlockSize(panelW, panelH, width, height);
    BlockSizeIsLargestFit(panelW, panelH, width, height);
    MulLeq(0, bs, width);
    MulLeq(0, bs, height);
  }

  /** The sword sprite: three blocks square, on the first completed row. */
  function LinkRect(l: Layout, width: nat, firstRow: int): (r: Rect)
    ensures r.y == CellRect(l, 0, firstRow).y && r.w == 3 * l.blockSize && r.h == r.w
  {
    Rect(Half(width * l.blockSize + l.origin.x) - l.blockSize,
         (l.rows - firstRow - 1) * l.blockSize + l.origin.y,
         l.blockSize * 3, l.blockSize * 3)
  }

  /**
   * One repaint of the board panel. It fails exactly when no snapshot has
   * arrived, or when an animation runs with no completed line to stand on.
   * Between animations nothing is overlaid; during one, the skeletons fill
   * the dead guards' columns of every completed row.
   */
  function SceneOf(s: Display.PanelState, panelW: nat, panelH: nat): (r: Result<Scene, PaintError>)
    requires s.width > 0 && s.height > 0
    ensures r.Err? <==> s.gameData.None? || (s.animated && s.lines == [])
    ensures r.Ok? ==> r.value.pauseBanner == s.paused && r.value.gameOverBanner == s.over
    ensures r.Ok? && !s.animated ==> r.value.skeletons == [] && r.value.link.None?
    ensures r.Ok? && s.animated && 0 <= s.deadGuards <= s.width ==>
      r.value.link.Some? && |r.value.skeletons| == |s.lines| * (s.width - s.deadGuards)
  {
    var l := BoardLayout(panelW, panelH, s.width, s.height);
    var backdrop := Rect(l.origin.x, l.origin.y, s.width * l.blockSize / 2 * 2, s.height * l.blockSize / 2 * 2);
    if s.gameData.None? then Err(NoBoardData)
    else if s.animated && s.lines == [] then Err(NoCompletedLine)
    else
      var blocks := BoardCmds(s.gameData.value, l, s.paused, s.theme);
      if s.animated then
        var skeletons := Skeletons(l, s.lines, |s.lines|, s.width, s.deadGuards);
        SkeletonsCount(l, s.lines, |s.lines|, s.width, s.deadGuards);
        Ok(Scene(backdrop, blocks, skeletons, Some(LinkRect(l, s.width, s.lines[0])), s.paused, s.over))
      else
        Ok(Scene(backdrop, blocks, [], None, s.paused, s.over))
  }
}
