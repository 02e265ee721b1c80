/**
 * The board panel as the object it is: the fields it updates in place and
 * one method per operation or callback. Each method's new state is the
 * matching transition of `Display`, whose properties are proved there;
 * `Paint` yields the geometry `BoardRender.SceneOf` describes.
 */
module GamePanelClass {
  import opened BoardTypes
  import opened Geometry
  import opened LinkFrames
  import Keys
  import Display
  import BoardRender

  class GamePanel {
    const width: nat                 // myTetris.getWidth()
    const height: nat                // myTetris.getHeight()
    var gameData: Option<Grid>       // myGameData
    var tempData: Option<Grid>       // myTempData
    var lines: seq<int>              // myCompletedLines
    var frame: Frame                 // myLink
    var deadGuards: int              // myDeadGuards
    var animated: bool               // myLinkIsAnimated
    var theme: bool                  // myZeldaTheme
    var over: bool                   // myGameIsOver
    var paused: bool                 // myGameIsPaused
    var mainTimer: bool              // myTimer is running
    var linkTimer: bool              // myLinkTimer is running
    var bindings: map<Keys.Action, int>  // myKeys, as held by myKeyBindings
    var enabled: set<Keys.Action>    // keys myKeyBindings has enabled
    var blockSize: int               // myBlockSize
    var origin: Point                // myOrigin

    function State(): Display.PanelState
      reads this
    {
      Display.PanelState(width, height, gameData, tempData, lines, frame, deadGuards,
                         animated, theme, over, paused, mainTimer, linkTimer, bindings, enabled)
    }

    predicate Valid()
      reads this
    {
      Display.Inv(State())
    }

    /**
     * `GamePanel(theTetris, theTimer, thePlayer)`: the fields `initialize`
     * sets (first frame, timers stopped, flags cleared, no guard dead, an
     * empty key map), the block size `setBlockSize` computes for a panel not
     * yet laid out (0 by 0, so 0), then `startGameGUI`.
     */
    constructor (boardWidth: nat, boardHeight: nat, mainTimerRunning: bool)
      requires boardWidth > 0 && boardHeight > 0
      ensures State() == Display.Initial(boardWidth, boardHeight, mainTimerRunning)
      ensures Valid()
      ensures blockSize == 0
    {
      width, height := boardWidth, boardHeight;
      mainTimer := mainTimerRunning;
      gameData, tempData, lines := None, None, [];
      origin := Point(0, 0);
      frame := Link1;
      linkTimer := false;
      animated := false;
      theme := false;
      over := false;
      paused := false;
      bindings := map[];
      deadGuards := boardWidth;
      blockSize := 0;
      new;
      RegisterKeyActions();
      Keys.PutDefaultsOverEmpty();
      EnableAllKeys();
    }

    /** `registerKeyActions`: the seven actions put with their default codes. */
    method RegisterKeyActions()
      modifies this`bindings
      ensures bindings == old(bindings) + Keys.Defaults()
    {
      Keys.PutDefaults(bindings);
      bindings := bindings[Keys.Left := Keys.VK_A];
      bindings := bindings[Keys.Right := Keys.VK_D];
      bindings := bindings[Keys.Down := Keys.VK_S];
      bindings := bindings[Keys.Clockwise := Keys.VK_E];
      bindings := bindings[Keys.Counterclockwise := Keys.VK_Q];
      bindings := bindings[Keys.Drop := Keys.VK_W];
      bindings := bindings[Keys.Pause := Keys.VK_P];
    }

    // ---- the key-binding set operations ----

    method DisableAllKeys()
      modifies this`enabled
      ensures State() == Display.DisableAllKeys(old(State()))
    {
      enabled := {};
    }

    method EnableAllKeys()
      modifies this`enabled
      ensures State() == Display.EnableAllKeys(old(State()))
    {
      enabled := bindings.Keys;
    }

    method EnableKey(a: Keys.Action)
      modifies this`enabled
      ensures State() == Display.EnableKey(old(State()), a)
    {
      enabled := enabled + {a};
    }

    // ---- animation ----

    /** `setKills`. */
    method SetKills()
      modifies this`deadGuards
      ensures State() == Display.SetKills(old(State()))
    {
      match frame
      case Link1 => deadGuards := width * 4 / 5;
      case Link2 => deadGuards := width * 3 / 5;
      case Link3 => deadGuards := width * 2 / 5;
      case Link4 => deadGuards := width * 1 / 5;
      case Link5 => deadGuards := width * 0 / 5;
      case Link6 => deadGuards := width * 5 / 5;
    }

    /** The link timer's callback; it only fires while that timer runs. */
    method Tick()
      requires Valid() && linkTimer
      modifies this`deadGuards, this`frame, this`animated, this`linkTimer, this`mainTimer, this`gameData
      ensures State() == Display.Tick(old(State()))
      ensures Valid()
    {
      ghost var s := State();
      SetKills();
      frame := Advance(frame);
      if frame == Link1 {
        animated := false;
        linkTimer := false;
        mainTimer := true;
        gameData := tempData;
      }
      Display.TickKeepsInv(s);
    }

    /** `runLinkAnimation`. */
    method RunLinkAnimation()
      modifies this`animated, this`mainTimer, this`linkTimer
      ensures State() == Display.RunLinkAnimation(old(State()))
    {
      animated := true;
      mainTimer := false;
      linkTimer := true;
    }

    /** `update`: the observer callback. */
    method Update(n: Display.Notification)
      requires Valid()
      modifies this`lines, this`animated, this`mainTimer, this`linkTimer, this`gameData, this`tempData
      ensures State() == Display.Update(old(State()), n)
      ensures Valid()
    {
      ghost var s := State();
      match n
      case CompletedLines(rows) =>
        lines := rows;
        if theme {
          RunLinkAnimation();
        }
      case BoardData(g) =>
        if !animated {
          gameData := Some(g);
        } else {
          tempData := Some(g);
        }
      case OtherArg =>
      Display.StepKeepsInv(s, Display.Observe(n));
    }

    /** `updateTheme`. */
    method UpdateTheme(on: bool)
      requires Valid()
      modifies this`theme
      ensures State() == Display.UpdateTheme(old(State()), on)
      ensures Valid()
    {
      theme := on;
    }

    // ---- pause, game over, new game ----

    /** `pause`. */
    method Pause()
      requires Valid()
      modifies this`enabled, this`mainTimer, this`paused
      ensures State() == Display.Pause(old(State()))
      ensures Valid()
    {
      if !over {
        DisableAllKeys();
        EnableKey(Keys.Pause);
        mainTimer := false;
        paused := true;
      }
    }

    /** `unpause`; also called part-way through `gameOver` and `newGame`. */
    method Unpause()
      modifies this`enabled, this`mainTimer, this`paused
      ensures State() == Display.Unpause(old(State()))
    {
      if !over {
        EnableAllKeys();
        mainTimer := true;
      }
      paused := false;
    }

    /** `togglePause`. */
    method TogglePause()
      requires Valid()
      modifies this`enabled, this`mainTimer, this`paused
      ensures State() == Display.TogglePause(old(State()))
      ensures Valid()
    {
      if paused {
        ghost var s := State();
        Unpause();
        Display.StepKeepsInv(s, Display.UnpauseCalled);
      } else {
        Pause();
      }
    }

    /** `gameOver`. */
    method GameOver()
      requires Valid()
      modifies this`enabled, this`over, this`mainTimer, this`paused
      ensures State() == Display.GameOver(old(State()))
      ensures Valid()
    {
      ghost var s := State();
      DisableAllKeys();
      over := true;
      Unpause();
      Display.StepKeepsInv(s, Display.GameOverCalled);
    }

    /** `newGame`; clearing the board itself is the model's business. */
    method NewGame()
      requires Valid()
      modifies this`enabled, this`over, this`mainTimer, this`paused
      ensures State() == Display.NewGame(old(State()))
      ensures Valid()
    {
      ghost var s := State();
      over := false;
      Unpause();
      DisableAllKeys();
      EnableAllKeys();
      Display.StepKeepsInv(s, Display.NewGameCalled);
    }

    // ---- key table ----

    /** `getKeyBindings`. */
    method GetKeyBindings() returns (keys: map<Keys.Action, int>)
      ensures keys == bindings
    {
      keys := bindings;
    }

    /** `setKeyBindings`. */
    method SetKeyBindings(keys: map<Keys.Action, int>)
      requires Valid()
      modifies this`enabled, this`bindings
      ensures State() == Display.SetKeyBindings(old(State()), keys)
      ensures Valid()
    {
      DisableAllKeys();
      bindings := keys;
      if over || paused {
        EnableKey(Keys.Pause);
      } else {
        EnableAllKeys();
      }
    }

    // ---- painting ----

    /** `setBlockSize` for a panel `panelW` by `panelH` pixels. */
    method SetBlockSize(panelW: nat, panelH: nat)
      requires width > 0 && height > 0
      modifies this`blockSize
      ensures blockSize == BlockSize(panelW, panelH, width, height)
    {
      var heightCheck := panelH / height;
      var widthCheck := panelW / width;
      if heightCheck < widthCheck {
        blockSize := heightCheck;
      } else {
        blockSize := widthCheck;
      }
    }

    /**
     * `paintComponent` on a panel `panelW` by `panelH` pixels: stores the
     * block size and origin, then draws the board, the skeletons and the
     * sword sprite while animating, and the banners.
     */
    method Paint(panelW: nat, panelH: nat) returns (r: Result<BoardRender.Scene, BoardRender.PaintError>)
      requires Valid()
      modifies this`blockSize, this`origin
      ensures r == BoardRender.SceneOf(State(), panelW, panelH)
      ensures Layout(blockSize, origin, height) == BoardRender.BoardLayout(panelW, panelH, width, height)
    {
      ghost var s := State();
      SetBlockSize(panelW, panelH);
      MulLeq(0, width, blockSize);
      MulLeq(0, height, blockSize);
      var center := Point(width * blockSize / 2, height * blockSize / 2);
      assert center == Point(Half(width * blockSize), Half(height * blockSize));
      var panelCenter := Point(panelW / 2, panelH / 2);
      origin := Point(panelCenter.x - center.x, panelCenter.y - center.y);
      var l := Layout(blockSize, origin, height);
      assert l == BoardRender.BoardLayout(panelW, panelH, width, height);
      assert State() == s;
      var backdrop := Rect(origin.x, origin.y, center.x * 2, center.y * 2);
      if gameData.None? {
        r := Err(BoardRender.NoBoardData);
        return;
      }
      var blocks := BoardRender.DrawBoard(gameData.value, l, paused, theme);
      var skeletons := [];
      if animated && lines != [] {
        skeletons := BoardRender.DrawSkeletons(l, lines, width, deadGuards);
      }
      var link := None;
      if animated {
        if lines == [] {
          r := Err(BoardRender.NoCompletedLine);
          return;
        }
        link := Some(BoardRender.LinkRect(l, width, lines[0]));
      }
      r := Ok(BoardRender.Scene(backdrop, blocks, skeletons, link, paused, over));
    }
  }
}
