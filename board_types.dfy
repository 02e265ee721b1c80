/**
 * Stand-ins for the types the panels receive from the game model
 * (`model.Board`, `model.TetrisPiece`), which are not part of this model.
 */
module BoardTypes {

  /** An AWT colour, reduced to its packed RGB value. */
  datatype Color = Color(rgb: int)

  /** `Color.GRAY`, the paint every block gets while the game is paused. */
  const GRAY: Color := Color(0x808080)

  /** One entry of a board row: `null` (empty) or a block colour. */
  datatype Cell = Empty | Filled(color: Color)

  /** A board snapshot: row 0 is the bottom row; rows may differ in length. */
  type Grid = seq<seq<Cell>>

  /** Generic result for the places where the source would throw. */
  datatype Result<T, E> = Ok(value: T) | Err(error: E)

  datatype Option<T> = None | Some(value: T)
}
