/**
 * The sword-swing animation of the themed board: six frames `LINK_1` ..
 * `LINK_6` visited in order and wrapping back to the first, and the
 * dead-guard table (`setKills`) that turns the current frame into the
 * column from which skeletons are drawn.
 */
module LinkFrames {

  datatype Frame = Link1 | Link2 | Link3 | Link4 | Link5 | Link6

  const FRAME_COUNT: nat := 6

  /** Position of a frame in the cycle, `Link1` first. */
  function Index(f: Frame): (i: nat)
    ensures i < FRAME_COUNT
  {
    match f
    case Link1 => 0
    case Link2 => 1
    case Link3 => 2
    case Link4 => 3
    case Link5 => 4
    case Link6 => 5
  }

  /** `Link.advance()`: the next frame, wrapping from the last to the first. */
  function Advance(f: Frame): (g: Frame)
    ensures g == Link1 <==> f == Link6
  {
    match f
    case Link1 => Link2
    case Link2 => Link3
    case Link3 => Link4
    case Link4 => Link5
    case Link5 => Link6
    case Link6 => Link1
  }

  /** Advancing moves one place round the cycle. */
  lemma AdvanceIndex(f: Frame)
    ensures Index(Advance(f)) == (Index(f) + 1) % FRAME_COUNT
  {}

  /** `n` successive advances. */
  function AdvanceBy(f: Frame, n: nat): Frame
    decreases n
  {
    if n == 0 then f else Advance(AdvanceBy(f, n - 1))
  }

  /** After `n` advances the frame index has moved `n` places round the cycle. */
  lemma {:induction false} AdvanceByIndex(f: Frame, n: nat)
    ensures Index(AdvanceBy(f, n)) == (Index(f) + n) % FRAME_COUNT
  {
    if n > 0 {
      AdvanceByIndex(f, n - 1);
      AdvanceIndex(AdvanceBy(f, n - 1));
    }
  }

  lemma IndexInjective(f: Frame, g: Frame)
    requires Index(f) == Index(g)
    ensures f == g
  {}

  /**
   * The cycle has length exactly six: six advances return to the start
   * frame, and from `Link1` no shorter positive run of advances does.
   */
  lemma {:induction false} SwingCycle(f: Frame, n: nat)
    ensures AdvanceBy(f, FRAME_COUNT) == f
    ensures 0 < n < FRAME_COUNT ==> AdvanceBy(Link1, n) != Link1
  {
    AdvanceByIndex(f, FRAME_COUNT);
    IndexInjective(AdvanceBy(f, FRAME_COUNT), f);
    AdvanceByIndex(Link1, n);
  }

  /** Fifths of the board width that are still alive in each frame. */
  function Fifths(f: Frame): nat
  {
    match f
    case Link1 => 4
    case Link2 => 3
    case Link3 => 2
    case Link4 => 1
    case Link5 => 0
    case Link6 => 5
  }

  /**
   * `setKills`: the dead-guard count for a frame on a board `width` wide,
   * `width * fifths / 5` in integer division. It never leaves `[0, width]`.
   */
  function Kills(f: Frame, width: nat): (k: nat)
    ensures k <= width
  {
    match f
    case Link1 => width * 4 / 5
    case Link2 => width * 3 / 5
    case Link3 => width * 2 / 5
    case Link4 => width * 1 / 5
    case Link5 => width * 0 / 5
    case Link6 => width * 5 / 5
  }

  /** The count is the floor of `width * fifths / 5`, for any width. */
  lemma KillsIsFloorOfFifths(f: Frame, width: nat)
    ensures 5 * Kills(f, width) <= width * Fifths(f) < 5 * Kills(f, width) + 5
  {
    var k := Kills(f, width);
    assert k == width * Fifths(f) / 5;
  }

  /** On the standard ten-wide board the table reads 8, 6, 4, 2, 0, 10. */
  lemma KillsOnTenWideBoard()
    ensures Kills(Link1, 10) == 8 && Kills(Link2, 10) == 6 && Kills(Link3, 10) == 4
    ensures Kills(Link4, 10) == 2 && Kills(Link5, 10) == 0 && Kills(Link6, 10) == 10
  {}

  /**
   * Skeletons are drawn in the columns `[kills, width)`. Over frames
   * `Link1` .. `Link5` the dead-guard count never grows (the skeleton row
   * never shrinks); it reaches 0 on `Link5`, and the frame that precedes the
   * wrap, `Link6`, puts it back to the full width: no skeleton remains.
   */
  lemma SkeletonsAdvanceWithSwing(f: Frame, width: nat)
    ensures Index(f) < 4 ==> Kills(Advance(f), width) <= Kills(f, width)
    ensures Kills(Link5, width) == 0
    ensures Advance(f) == Link1 ==> Kills(f, width) == width
  {
    if Index(f) < 4 {
      var k, k' := Kills(f, width), Kills(Advance(f), width);
      assert Fifths(Advance(f)) + 1 == Fifths(f);
      assert width * Fifths(Advance(f)) + width == width * Fifths(f);
      KillsIsFloorOfFifths(f, width);
      KillsIsFloorOfFifths(Advance(f), width);
      assert 5 * k' <= width * Fifths(f) < 5 * k + 5;
    }
  }
}
