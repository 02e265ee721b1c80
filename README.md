# Tetris display panels — a Dafny model

This project models the display-state machine of a Swing Tetris front end:
the board panel (`GamePanel`) and the next-piece preview (`NextPiecePanel`).
The board panel holds the live board snapshot and a buffered one. It runs a
six-frame themed sword animation ("Link") when lines are completed. A table
(`setKills`) turns each frame into a dead-guard count, and skeletons are drawn
in the columns of the completed rows from that count up to the board width.
The panel also switches the game between paused, over and new, and enables
all key actions, none, or only the pause action to match. The board and
preview geometry is integer pixel arithmetic: block size, a centring origin,
and a rectangle per cell.

Modules, in dependency order:

- `BoardTypes` (`board_types.dfy`): stand-ins for the model's types. A colour,
  a board cell (empty or filled), a board snapshot as rows of cells, and
  `Result`/`Option`.
- `Geometry` (`geometry.dfy`): rectangles, Java's truncating halving,
  centring, the block size, cell rectangles with the inverted row axis, and the
  block outline.
- `LinkFrames` (`link_frames.dfy`): the frames `LINK_1..LINK_6`, how they
  advance and wrap, and the `setKills` table.
- `Keys` (`keys.dfy`): the seven registered actions and their default key codes.
- `Display` (`display.dfy`): the board panel's state as a value
  (`PanelState`), one transition function per operation or callback, the
  panel invariant, and runs of events with the properties proved about them.
- `BoardRender` (`board_render.dfy`): what one repaint of the board panel
  draws (`SceneOf`). It also holds the drawing loops as methods:
  `DrawBoard` with its per-row `DrawRow`, and `DrawSkeletons`.
- `GamePanelClass` (`game_panel.dfy`): the board panel as a class. Its fields
  are updated in place, and each method's new state is the matching
  `Display` transition.
- `NextPiece` (`next_piece.dfy`): the preview panel as a class, with its
  geometry as functions.

Timers are booleans ("running"). The animation timer's callback is the
method `Tick`, which may be called only while that timer runs. Key bindings
are a map from action to key code plus the set of enabled actions. The board
width and height are positive constants. Panel sizes are parameters of the
paint methods.

Three behaviours of the code differ from what its structure suggests; the
model follows the code:

- **Main timer and animation.** The animation stops the main game timer when
  it starts and restarts it when it ends, which suggests the two timers never
  run together. They can: `unpause` (and so
  `newGame`) starts the main timer even while the animation runs. The tick
  that ends the animation also starts it even while the game is paused.
  `Display.UnpauseDuringAnimationRunsBothTimers` and
  `Display.PauseDuringAnimationResumesTimer` show both.
- **Progress at completion.** `setKills` computes a count from the frame, and
  one might expect it to fall back to 0 when the sequence completes. What it
  computes is the dead-guard count, and that returns to the full width, so
  the skeleton count (width minus dead guards) is what returns to 0.
  `LinkFrames.SkeletonsAdvanceWithSwing` states this.
- **Committed snapshot.** When the animation ends, the code commits whatever
  the buffer holds. If no snapshot arrived during the animation, that is an
  older buffered snapshot, or none at all. `Display.AnimationCommitsOnWrap`
  states what is committed.

## Model

| member | source | states |
|---|---|---|
| `Geometry.CenterOffset` | src/gui/GamePanel.java:435-438 | the origin offset `panel/2 - extent/2` leaves margins that differ by at most one pixel; an extent that fits leaves both margins non-negative |
| `Geometry.BlockSizeIsLargestFit` | src/gui/GamePanel.java:277-286 | the block size (min of the two per-axis quotients) is the largest square size at which the whole board fits the panel |
| `Geometry.CellRectInjective` | src/gui/GamePanel.java:615-617 | with a positive block size, distinct cells get distinct rectangles |
| `Geometry.CellRectInsideBoard` | src/gui/GamePanel.java:615-617 | every cell of the board lies inside the board's pixel area, and the row above a cell is exactly one block higher |
| `Geometry.Outline` | src/gui/GamePanel.java:618-625 | the outline is inset by `PADDING + THICKNESS/2`, so the 3-pixel stroke starts on the block's first pixel and ends one pixel short of its far edge |
| `LinkFrames.Advance` | src/gui/GamePanel.java:210-211 | the frame wraps to `LINK_1` exactly from `LINK_6` |
| `LinkFrames.AdvanceIndex` | src/gui/GamePanel.java:210-211 | each advance moves the frame index one step round the six-frame cycle |
| `LinkFrames.AdvanceByIndex` | src/gui/GamePanel.java:210-211 | after `n` advances the frame index has moved `n` places modulo 6 |
| `LinkFrames.SwingCycle` | src/gui/GamePanel.java:210-211 | six advances return to the start frame, and no shorter positive run from `LINK_1` does |
| `LinkFrames.Kills` | src/gui/GamePanel.java:228-251 | the dead-guard count always lies in `[0, width]` |
| `LinkFrames.KillsIsFloorOfFifths` | src/gui/GamePanel.java:228-251 | the dead-guard count is the floor of `width * fifths / 5`, for fifths 4, 3, 2, 1, 0, 5 over `LINK_1..LINK_6` |
| `LinkFrames.KillsOnTenWideBoard` | src/gui/GamePanel.java:228-251 | on a 10-wide board the table gives 8, 6, 4, 2, 0, 10 |
| `LinkFrames.SkeletonsAdvanceWithSwing` | src/gui/GamePanel.java:228-251 | over `LINK_1..LINK_5` the dead-guard count never increases and reaches 0; the frame before the wrap restores it to the full width |
| `Keys.Defaults` | src/gui/GamePanel.java:677-742 | the registered table binds every one of the seven actions, the pause action included, and no two actions share a key code |
| `Keys.DefaultsHaveSevenActions` | src/gui/GamePanel.java:677-742 | the registered table has exactly seven entries |
| `Display.Initial` | src/gui/GamePanel.java:183-195 | the constructed panel satisfies the panel invariant, with every key enabled and nothing animating, paused or over |
| `Display.SetKills` | src/gui/GamePanel.java:228-251 | only the dead-guard count changes; it becomes the table value of the current frame, within `[0, width]` |
| `Display.Tick` | src/gui/GamePanel.java:205-217 | kills come from the current frame, then the frame advances; on the wrap to `LINK_1` the animation ends, the link timer stops, the main timer starts and the buffered snapshot goes live; otherwise nothing else changes |
| `Display.Update` | src/gui/GamePanel.java:657-667 | completed lines are always recorded and start the animation only under the theme; a snapshot goes live when nothing animates and is buffered otherwise, leaving the live one unchanged; other arguments change nothing |
| `Display.Pause` | src/gui/GamePanel.java:369-377 | ignored once over; otherwise only the pause key stays enabled, the main timer stops and the game is paused; animation and board untouched |
| `Display.Unpause` | src/gui/GamePanel.java:385-392 | always unpauses; re-enables all keys and starts the main timer only when the game is not over |
| `Display.GameOver` | src/gui/GamePanel.java:332-337 | the game is over and not paused, and no key is enabled |
| `Display.NewGame` | src/gui/GamePanel.java:343-350 | the game is neither over nor paused, every key of the table is enabled and the main timer runs |
| `Display.SetKeyBindings` | src/gui/GamePanel.java:410-418 | installs the new table; only the pause key is enabled when over or paused, every key of the new table otherwise |
| `Display.TickKeepsInv` | src/gui/GamePanel.java:205-217 | a tick of the running link timer keeps the panel invariant |
| `Display.StepKeepsInv` | src/gui/GamePanel.java:205-217 | every operation and callback keeps the panel invariant: link timer running exactly while animating, frame `LINK_1` and the dead-guard count equal to the width (so no skeleton is drawn) between animations, dead guards within `[0, width]`, enabled keys matching the game state |
| `Display.RunKeepsInv` | src/gui/GamePanel.java:657-667 | every sequence of events keeps the panel invariant |
| `Display.MidAnimationBoardFrozen` | src/gui/GamePanel.java:663-667 | before the frame wraps, whatever happens, the live snapshot is unchanged, every arriving snapshot is buffered, and the frame has moved one place per tick |
| `Display.AnimationCommitsOnWrap` | src/gui/GamePanel.java:211-216 | the tick that completes the animation commits the last snapshot that arrived during it (or the older buffer), ends the animation and restores the dead-guard count to the width |
| `Display.ThemeOffAppliesImmediately` | src/gui/GamePanel.java:658-664 | with the theme off and never switched on, nothing animates, every snapshot goes live at once and the buffer is never written |
| `Display.KeysInertWhenOver` | src/gui/GamePanel.java:356-377 | once the game is over, no key press changes the panel |
| `Display.PauseOnlyKeys` | src/gui/GamePanel.java:369-377 | after pausing exactly one action (pause) is enabled, and replacing the key table while paused keeps it so |
| `Display.PauseDuringAnimationResumesTimer` | src/gui/GamePanel.java:211-215 | pausing during the animation does not hold the game: the final tick starts the main timer while the panel stays paused |
| `Display.UnpauseDuringAnimationRunsBothTimers` | src/gui/GamePanel.java:385-392 | pausing then unpausing during the animation leaves the main and link timers running together |
| `BoardRender.CmdAt` | src/gui/GamePanel.java:584-629 | an occupied cell is drawn at its cell rectangle: as a guard sprite under the theme, else filled (grey while paused) with its outline |
| `BoardRender.VisibleRows` | src/gui/GamePanel.java:444 | all rows but the top 4 are drawn; a grid with at most 4 rows draws none |
| `BoardRender.BoardCmdsExact` | src/gui/GamePanel.java:444-448 | the board drawing holds exactly the occupied cells of the visible rows, and none lands on a cell of the 4 hidden rows |
| `BoardRender.DrawBoard` | src/gui/GamePanel.java:444-448 | the loop over the visible rows produces exactly the board drawing specified by `BoardCmds` |
| `BoardRender.DrawRow` | src/gui/GamePanel.java:445-447 | the loop over one row's columns draws exactly that row's occupied cells, left to right |
| `BoardRender.SkeletonsCount` | src/gui/GamePanel.java:563-572 | with `0 <= dead <= width`, the number of skeletons is the number of completed rows times `width - dead` |
| `BoardRender.SkeletonRunCells` | src/gui/GamePanel.java:565-570 | the inner loop over one completed row draws a skeleton exactly on the cells of columns `[dead, width)` of that row |
| `BoardRender.SkeletonsCells` | src/gui/GamePanel.java:563-572 | a skeleton is drawn at a rectangle exactly when it is the cell of some completed row in some column of `[dead, width)` |
| `BoardRender.DrawSkeletons` | src/gui/GamePanel.java:563-572 | the loop over completed rows, each walking columns `width-1` down to the dead-guard count, produces exactly the specified skeletons |
| `BoardRender.BoardLayoutCentred` | src/gui/GamePanel.java:432-438 | the board is drawn at the largest block size that fits, centred in the panel to within one pixel |
| `BoardRender.LinkRect` | src/gui/GamePanel.java:455-462 | the sword sprite is three blocks square and stands on the first completed row |
| `BoardRender.SceneOf` | src/gui/GamePanel.java:427-470 | a repaint fails exactly when no snapshot has arrived or an animation runs with no completed line; between animations nothing is overlaid; during one the skeletons number `lines * (width - dead)`; banners follow the flags |
| `GamePanelClass.GamePanel.constructor` | src/gui/GamePanel.java:168-195 | the new panel is in the initial state and satisfies the invariant, with block size 0 |
| `Keys.PutDefaults` | src/gui/GamePanel.java:677-742 | putting the seven bindings one after another over any table yields that table overridden by the default table |
| `GamePanelClass.GamePanel.RegisterKeyActions` | src/gui/GamePanel.java:677-742 | puts the seven default bindings into the key map |
| `GamePanelClass.GamePanel.DisableAllKeys` | src/gui/GamePanel.java:333 | no key is enabled |
| `GamePanelClass.GamePanel.EnableAllKeys` | src/gui/GamePanel.java:312 | every key of the current table is enabled |
| `GamePanelClass.GamePanel.EnableKey` | src/gui/GamePanel.java:372 | the given key is enabled in addition |
| `GamePanelClass.GamePanel.SetKills` | src/gui/GamePanel.java:228-251 | the new state is `Display.SetKills` of the old |
| `GamePanelClass.GamePanel.Tick` | src/gui/GamePanel.java:205-217 | the new state is `Display.Tick` of the old; the invariant is kept |
| `GamePanelClass.GamePanel.RunLinkAnimation` | src/gui/GamePanel.java:292-296 | animating, main timer stopped, link timer started |
| `GamePanelClass.GamePanel.Update` | src/gui/GamePanel.java:657-670 | the new state is `Display.Update` of the old; the invariant is kept |
| `GamePanelClass.GamePanel.UpdateTheme` | src/gui/GamePanel.java:322-325 | only the theme flag changes |
| `GamePanelClass.GamePanel.Pause` | src/gui/GamePanel.java:369-377 | the new state is `Display.Pause` of the old |
| `GamePanelClass.GamePanel.Unpause` | src/gui/GamePanel.java:385-392 | the new state is `Display.Unpause` of the old |
| `GamePanelClass.GamePanel.TogglePause` | src/gui/GamePanel.java:356-362 | unpauses when paused, pauses otherwise |
| `GamePanelClass.GamePanel.GameOver` | src/gui/GamePanel.java:332-337 | the new state is `Display.GameOver` of the old |
| `GamePanelClass.GamePanel.NewGame` | src/gui/GamePanel.java:343-350 | the new state is `Display.NewGame` of the old |
| `GamePanelClass.GamePanel.GetKeyBindings` | src/gui/GamePanel.java:400-402 | returns the current table |
| `GamePanelClass.GamePanel.SetKeyBindings` | src/gui/GamePanel.java:410-418 | the new state is `Display.SetKeyBindings` of the old |
| `GamePanelClass.GamePanel.SetBlockSize` | src/gui/GamePanel.java:277-286 | stores the largest block size at which the board fits |
| `GamePanelClass.GamePanel.Paint` | src/gui/GamePanel.java:427-470 | stores the block size and the centring origin, and yields exactly `SceneOf` of the current state |
| `NextPiece.PreviewBlockSizeHalfFits` | src/gui/NextPiecePanel.java:97 | the preview block size is half the per-column quotient: the piece spans at most half the panel width, and a block one larger would exceed it |
| `NextPiece.PreviewLayoutCentred` | src/gui/NextPiecePanel.java:97-103 | the piece's bounding box is centred to within one pixel on both axes and always fits horizontally |
| `NextPiece.PreviewCellOneBlockLower` | src/gui/NextPiecePanel.java:124-127 | a preview cell sits exactly one block below where the board's row rule (with its `- 1`) would put it |
| `NextPiece.BorderCmds` | src/gui/NextPiecePanel.java:150-167 | the border is inset by 9 on every side; the label box is 100 wide and centred on the panel to within one pixel |
| `NextPiece.BlockPassShape` | src/gui/NextPiecePanel.java:122-141 | one `drawBlock` pass draws each point as a fill then its outline, two commands per point, in point order |
| `NextPiece.PreviewSceneShape` | src/gui/NextPiecePanel.java:110-112 | because `drawBlock` runs once per point, a repaint draws every cell `n` times over: `2n²` block commands between the background and the border, and in every pass `j` cell `i` is filled then outlined at its own rectangle, at positions `1 + 2(nj + i)` and `2 + 2(nj + i)` |
| `NextPiece.RepeatIndex` | src/gui/NextPiecePanel.java:110-112 | in the repeated passes, element `m` of pass `j` is element `m` of the single pass |
| `NextPiece.PassesShape` | src/gui/NextPiecePanel.java:110-112 | in the repaint's layout (one leading command, `n` passes of `2n` commands, three border commands), pass `j`'s fill and outline of cell `i` sit at `1 + 2(nj + i)` and `2 + 2(nj + i)` |
| `NextPiece.NextPiecePanel.constructor` | src/gui/NextPiecePanel.java:62-66 | the panel shows the given piece |
| `NextPiece.NextPiecePanel.SetNextPiece` | src/gui/NextPiecePanel.java:83-86 | always replaces the piece shown |
| `NextPiece.NextPiecePanel.Update` | src/gui/NextPiecePanel.java:176-182 | replaces the piece only when the argument is a piece; any other argument leaves it unchanged |
| `NextPiece.NextPiecePanel.DrawBlock` | src/gui/NextPiecePanel.java:122-142 | the per-point loop produces exactly one `BlockPass` |
| `NextPiece.NextPiecePanel.SetLayout` | src/gui/NextPiecePanel.java:97-103 | stores the preview block size and the centring origin |
| `NextPiece.NextPiecePanel.Paint` | src/gui/NextPiecePanel.java:90-114 | a zero-width piece fails (division by zero); otherwise stores the layout and yields exactly `PreviewScene` |
| `NextPiece.RepaintIsIdempotent` | src/gui/NextPiecePanel.java:176-182 | showing the same piece again and repainting draws exactly what the first repaint drew |

## Left out

- Swing rendering: fonts, strokes, colours other than the pause grey,
  antialiasing, `AlphaComposite` and image drawing. Only the integer
  coordinates handed to them are kept.
- `BoardRender.CmdAt`: does not model the half-transparent guard sprite that
  `drawGuards` uses when the paint's alpha is below 250. Colours carry no
  alpha here.
- Image loading through `getResource`/`ImageIcon`, and sound playback on the
  drop action: both are external.
- The ambient guard/skeleton timer (`createGuardTimer`) and the `Guard` and
  `Skelly` frames. They are purely cosmetic, so skeletons are drawn without a
  frame.
- The pixel layout of the pause and game-over banners (`drawPause`,
  `drawGameOver`). The scene records only whether each is shown.
- The commented-out oval rendering in `drawBlock`, which is dead code.
- `model.Board` (including `clear()` in `newGame` and what the movement
  actions do), `KeyBindings`, `Link`, `Guard` and `Skelly` are not part of this
  model. `Link` is the six-frame cycle in `LinkFrames`. The `KeyBindings` calls
  are set operations on the enabled actions; "enable all" means every action
  of the current table.
- `Display.KeyPressed` (no contract of its own): only the pause action acts
  on the panel. The other six actions act on the board, which is not modelled.
- Real timer scheduling, the event-dispatch thread and `repaint()`. A repaint
  is the explicit `Paint` call; the timers' 120 ms and 250 ms periods are not
  modelled.
- A paint that throws is modelled as an `Err` result. The partial drawing made
  before the exception is not modelled.
- `myCompletedLines` is `null` until the first completed-lines event. Here it
  starts as the empty list, which is only read while animating, and animating
  requires such an event.
- Java's 32-bit `int` overflow: panel and board sizes are far below `2^31`,
  so the arithmetic is unbounded here.
- The `0.5` `double` factor of the preview block size is integer halving.
  For the non-negative quotient `(int)(q * 0.5)` equals `q / 2`.
