/**
 * The next-piece preview panel: the piece it shows, replaced on update,
 * and the pixel geometry of one repaint (block size, centring origin, one
 * filled and one outlined rectangle per cell, the decorative border and
 * label).
 */
module NextPiece {
  import opened BoardTypes
  import opened Geometry

  /** Stand-in for `model.TetrisPiece`: its cells, bounding size and colour. */
  datatype Piece = Piece(points: seq<Point>, width: nat, height: nat, color: Color)

  /** What the preview's `update` may receive. */
  datatype Observed = NewPiece(piece: Piece) | OtherArg

  /** Inset of the border from every panel edge (`BORDER_PADDING`). */
  const BORDER_PADDING: int := 9
  /** Half the width of the label box (`BLACK_BOX_LENGTH`). */
  const BLACK_BOX_LENGTH: int := 50
  /** Horizontal shift of the label text (`FONT_SHIFT`). */
  const FONT_SHIFT: int := 9

  datatype PreviewCmd =
    | Background(r: Rect)           // the black fill of the whole panel
    | Fill(r: Rect)                 // a cell in the piece's colour
    | Stroke(r: Rect)               // the cell's translucent outline
    | Border(r: Rect, arc: int)     // the red rounded border
    | LabelBox(r: Rect)             // the black box behind the label
    | Label(at: Point)              // the "Next Piece" text

  datatype PreviewError = DivisionByZero   // `paintComponent` divides the panel width by a piece width of 0

  /**
   * Block size: `(int) (panelW / pieceW * 0.5)`. For the non-negative
   * quotient this is integer halving.
   */
  function PreviewBlockSize(panelW: nat, pieceW: nat): nat
    requires pieceW > 0
  {
    panelW / pieceW / 2
  }

  /**
   * The piece spans at most half the panel width, and one block more per
   * column would make it span more.
   */
  lemma PreviewBlockSizeHalfFits(panelW: nat, pieceW: nat)
    requires pieceW > 0
    ensures var bs := PreviewBlockSize(panelW, pieceW);
      2 * bs * pieceW <= panelW < (2 * bs + 2) * pieceW
  {
    var q := panelW / pieceW;
    DivBounds(panelW, pieceW);
    MulLeq(2 * (q / 2), q, pieceW);
    MulLeq(q + 1, 2 * (q / 2) + 2, pieceW);
  }

  /** Block size and origin of a repaint. */
  function PreviewLayout(panelW: nat, panelH: nat, piece: Piece): Layout
    requires piece.width > 0
  {
    var bs := PreviewBlockSize(panelW, piece.width);
    Layout(bs, Point(CenterOffset(panelW, piece.width * bs), CenterOffset(panelH, piece.height * bs)),
           piece.height)
  }

  /**
   * The piece's bounding box is centred in the panel, with margins that
   * differ by at most one pixel; horizontally the box always fits.
   */
  lemma PreviewLayoutCentred(panelW: nat, panelH: nat, piece: Piece)
    requires piece.width > 0
    ensures var l := PreviewLayout(panelW, panelH, piece);
      l.blockSize >= 0 && l.rows == piece.height &&
      0 <= l.origin.x && l.origin.x + piece.width * l.blockSize <= panelW &&
      -1 <= (panelW - l.origin.x - piece.width * l.blockSize) - l.origin.x <= 1 &&
      -1 <= (panelH - l.origin.y - piece.height * l.blockSize) - l.origin.y <= 1
  {
    var bs := PreviewBlockSize(panelW, piece.width);
    PreviewBlockSizeHalfFits(panelW, piece.width);
    MulLeq(0, bs, piece.width);
    MulLeq(0, bs, piece.height);
    assert 2 * bs * piece.width == 2 * (piece.width * bs);
  }

  /**
   * The filled rectangle of a piece cell: `(p.y)` is flipped against the
   * piece height without the `- 1` the board uses.
   */
  function PreviewCell(l: Layout, p: Point): Rect
  {
    Rect(p.x * l.blockSize + l.origin.x, (l.rows - p.y) * l.blockSize + l.origin.y,
         l.blockSize, l.blockSize)
  }

  /**
   * Every preview cell sits exactly one block lower than the board's rule
   * `CellRect` would put it, at the same column and size.
   */
  lemma PreviewCellOneBlockLower(l: Layout, p: Point)
    ensures var r, c := PreviewCell(l, p), CellRect(l, p.x, p.y);
      r.x == c.x && r.y == c.y + l.blockSize && r.w == c.w && r.h == c.h
  {
    assert (l.rows - p.y) * l.blockSize == (l.rows - p.y - 1) * l.blockSize + l.blockSize;
  }

  /** One `drawBlock` pass over the first `k` points: a fill and an outline each. */
  function BlockPass(points: seq<Point>, k: nat, l: Layout): seq<PreviewCmd>
    requires k <= |points|
    decreases k
  {
    if k == 0 then []
    else
      var r := PreviewCell(l, points[k - 1]);
      BlockPass(points, k - 1, l) + [Fill(r), Stroke(Outline(r))]
  }

  function Repeat(s: seq<PreviewCmd>, k: nat): seq<PreviewCmd>
    decreases k
  {
    if k == 0 then [] else Repeat(s, k - 1) + s
  }

  /**
   * `drawBorderGraphic`: a rounded border inset by `BORDER_PADDING` on every
   * side, and a label box `2 * BLACK_BOX_LENGTH` wide centred on the panel.
   */
  function BorderCmds(panelW: nat, panelH: nat): (cmds: seq<PreviewCmd>)
    ensures |cmds| == 3 && cmds[0].Border? && cmds[1].LabelBox?
    ensures cmds[0].r.x == BORDER_PADDING && cmds[0].r.y == BORDER_PADDING
    ensures cmds[0].r.x + cmds[0].r.w + BORDER_PADDING == panelW
    ensures cmds[0].r.y + cmds[0].r.h + BORDER_PADDING == panelH
    ensures 0 <= panelW - 2 * cmds[1].r.x - cmds[1].r.w <= 1 && cmds[1].r.w == 100
  {
    [Border(Rect(BORDER_PADDING, BORDER_PADDING,
                 panelW - BORDER_PADDING * 2, panelH - BORDER_PADDING * 2), BORDER_PADDING),
     LabelBox(Rect(panelW / 2 - BLACK_BOX_LENGTH, BORDER_PADDING / 2,
                   BLACK_BOX_LENGTH * 2, BORDER_PADDING * 2)),
     Label(Point(panelW / 2 - BLACK_BOX_LENGTH + FONT_SHIFT, BORDER_PADDING * 2))]
  }

  /**
   * One repaint: the background, then `drawBlock` once per point of the
   * piece (each pass drawing every cell), then the border graphic.
   */
  function PreviewScene(panelW: nat, panelH: nat, piece: Piece): seq<PreviewCmd>
    requires piece.width > 0
  {
    var l := PreviewLayout(panelW, panelH, piece);
    [Background(Rect(0, 0, panelW, panelH))] +
    Repeat(BlockPass(piece.points, |piece.points|, l), |piece.points|) +
    BorderCmds(panelW, panelH)
  }

  lemma {:induction false} BlockPassShape(points: seq<Point>, k: nat, l: Layout, i: nat)
    requires k <= |points| && i < k
    ensures |BlockPass(points, k, l)| == 2 * k
    ensures BlockPass(points, k, l)[2 * i] == Fill(PreviewCell(l, points[i]))
    ensures BlockPass(points, k, l)[2 * i + 1] == Stroke(Outline(PreviewCell(l, points[i])))
    decreases k
  {
    if i < k - 1 {
      BlockPassShape(points, k - 1, l, i);
    } else if k > 1 {
      BlockPassShape(points, k - 1, l, 0);
    }
  }

  lemma {:induction false} RepeatLength(s: seq<PreviewCmd>, k: nat)
    ensures |Repeat(s, k)| == k * |s|
    decreases k
  {
    if k > 0 {
      RepeatLength(s, k - 1);
      assert k * |s| == (k - 1) * |s| + |s|;
    }
  }

  /** Element `m` of pass `j` of a repetition is element `m` of the repeated sequence. */
  lemma {:induction false} RepeatIndex(s: seq<PreviewCmd>, k: nat, j: nat, m: nat)
    requires j < k && m < |s|
    ensures |s| * j + m < |Repeat(s, k)| && Repeat(s, k)[|s| * j + m] == s[m]
    decreases k
  {
    var prev := Repeat(s, k - 1);
    RepeatLength(s, k - 1);
    if j < k - 1 {
      RepeatIndex(s, k - 1, j, m);
    } else {
      assert |prev| == |s| * j;
    }
  }

  /**
   * A repaint draws each of the `n` cells `n` times over: `2 * n * n`
   * block commands between the background and the three border commands,
   * and in every pass `j` cell `i` is filled then outlined at its own
   * rectangle.
   */
  lemma PreviewSceneShape(panelW: nat, panelH: nat, piece: Piece, j: nat, i: nat)
    requires piece.width > 0 && j < |piece.points| && i < |piece.points|
    ensures var n := |piece.points|;
      |PreviewScene(panelW, panelH, piece)| == 2 * n * n + 4
    ensures var n, l := |piece.points|, PreviewLayout(panelW, panelH, piece);
      var scene, cell := PreviewScene(panelW, panelH, piece), PreviewCell(l, piece.points[i]);
      2 + 2 * (n * j + i) < |scene| &&
      scene[1 + 2 * (n * j + i)] == Fill(cell) && scene[2 + 2 * (n * j + i)] == Stroke(Outline(cell))
  {
    var n := |piece.points|;
    var l := PreviewLayout(panelW, panelH, piece);
    var pass := BlockPass(piece.points, n, l);
    BlockPassShape(piece.points, n, l, i);
    PassesShape(Background(Rect(0, 0, panelW, panelH)), pass, BorderCmds(panelW, panelH), n, j, i);
  }

  /**
   * Between a leading command and a three-command tail, `n` repetitions of
   * a `2 * n`-command pass put commands `2 * i` and `2 * i + 1` of pass `j`
   * at `1 + 2 * (n * j + i)` onward.
   */
  lemma PassesShape(first: PreviewCmd, pass: seq<PreviewCmd>, tail: seq<PreviewCmd>, n: nat, j: nat, i: nat)
    requires |pass| == 2 * n && |tail| == 3 && j < n && i < n
    ensures var scene := [first] + Repeat(pass, n) + tail;
      |scene| == 2 * n * n + 4 && 2 + 2 * (n * j + i) < |scene| &&
      scene[1 + 2 * (n * j + i)] == pass[2 * i] && scene[2 + 2 * (n * j + i)] == pass[2 * i + 1]
  {
    RepeatLength(pass, n);
    assert n * |pass| == 2 * n * n;
    assert |pass| * j == 2 * (n * j);
    RepeatIndex(pass, n, j, 2 * i);
    RepeatIndex(pass, n, j, 2 * i + 1);
  }

  class NextPiecePanel {
    var nextPiece: Piece   // myNextPiece
    var blockSize: int     // myBlockSize
    var origin: Point      // myOrigin

    /** `NextPiecePanel(theTetrisPiece)`. */
    constructor (piece: Piece)
      ensures nextPiece == piece
    {
      nextPiece := piece;
      blockSize := 0;
      origin := Point(0, 0);
    }

    /** `setNextPiece`: always replaces the piece shown. */
    method SetNextPiece(piece: Piece)
      modifies this`nextPiece
      ensures nextPiece == piece
    {
      nextPiece := piece;
    }

    /** `update`: replaces the piece only when given a piece. */
    method Update(arg: Observed)
      modifies this`nextPiece
      ensures arg.NewPiece? ==> nextPiece == arg.piece
      ensures arg.OtherArg? ==> nextPiece == old(nextPiece)
    {
      if arg.NewPiece? {
        nextPiece := arg.piece;
      }
    }

    /** `drawBlock`: one fill and one outline per point, in order. */
    method DrawBlock() returns (pass: seq<PreviewCmd>)
      ensures pass == BlockPass(nextPiece.points, |nextPiece.points|, Layout(blockSize, origin, nextPiece.height))
    {
      var l := Layout(blockSize, origin, nextPiece.height);
      var points := nextPiece.points;
      pass := [];
      var j := 0;
      while j < |points|
        invariant 0 <= j <= |points|
        invariant pass == BlockPass(points, j, l)
      {
        var p := points[j];
        pass := pass + [Fill(Rect(p.x * blockSize + origin.x,
                                  (nextPiece.height - p.y) * blockSize + origin.y,
                                  blockSize, blockSize)),
                        Stroke(Rect(p.x * blockSize + origin.x + STROKE / 2,
                                    (nextPiece.height - p.y) * blockSize + origin.y + STROKE / 2,
                                    blockSize - STROKE, blockSize - STROKE))];
        j := j + 1;
      }
    }

    /** The block size and origin `paintComponent` stores before drawing. */
    method SetLayout(panelW: nat, panelH: nat)
      requires nextPiece.width > 0
      modifies this`blockSize, this`origin
      ensures Layout(blockSize, origin, nextPiece.height) == PreviewLayout(panelW, panelH, nextPiece)
    {
      blockSize := panelW / nextPiece.width / 2;
      MulLeq(0, nextPiece.width, blockSize);
      MulLeq(0, nextPiece.height, blockSize);
      var center := Point(nextPiece.width * blockSize / 2, nextPiece.height * blockSize / 2);
      assert center == Point(Half(nextPiece.width * blockSize), Half(nextPiece.height * blockSize));
      var panelCenter := Point(panelW / 2, panelH / 2);
      origin := Point(panelCenter.x - center.x, panelCenter.y - center.y);
    }

    /** `paintComponent` on a panel `panelW` by `panelH` pixels. */
    method Paint(panelW: nat, panelH: nat) returns (r: Result<seq<PreviewCmd>, PreviewError>)
      modifies this`blockSize, this`origin
      ensures nextPiece.width == 0 ==> r == Err(DivisionByZero)
      ensures nextPiece.width > 0 ==>
        r == Ok(PreviewScene(panelW, panelH, nextPiece)) &&
        Layout(blockSize, origin, nextPiece.height) == PreviewLayout(panelW, panelH, nextPiece)
    {
      if nextPiece.width == 0 {
        r := Err(DivisionByZero);
        return;
      }
      SetLayout(panelW, panelH);
      var pass := DrawBlock();
      var n := |nextPiece.points|;
      assert pass == BlockPass(nextPiece.points, n, PreviewLayout(panelW, panelH, nextPiece));
      var background := [Background(Rect(0, 0, panelW, panelH))];
      var cmds := background;
      var i := 0;
      while i < n
        modifies {}
        invariant 0 <= i <= n
        invariant cmds == background + Repeat(pass, i)
      {
        var again := DrawBlock();
        cmds := cmds + again;
        assert cmds == background + (Repeat(pass, i) + pass);
        i := i + 1;
      }
      assert cmds + BorderCmds(panelW, panelH) == PreviewScene(panelW, panelH, nextPiece);
      r := Ok(cmds + BorderCmds(panelW, panelH));
    }
  }

  /**
   * A client of the preview: showing the same piece again and repainting
   * draws exactly what the first repaint drew.
   */
  method RepaintIsIdempotent(panel: NextPiecePanel, piece: Piece, panelW: nat, panelH: nat)
    returns (first: Result<seq<PreviewCmd>, PreviewError>, second: Result<seq<PreviewCmd>, PreviewError>)
    modifies panel
    ensures first == second
  {
    panel.SetNextPiece(piece);
    first := panel.Paint(panelW, panelH);
    panel.Update(NewPiece(piece));
    second := panel.Paint(panelW, panelH);
  }
}
