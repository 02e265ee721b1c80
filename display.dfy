/**
 * The display-state machine of the board panel, as values: the fields the
 * panel updates in place (board snapshots, animation frame, dead-guard
 * count, flags, timers, key bindings) and one transition function per
 * public operation or callback. The class `GamePanelClass.GamePanel`
 * implements each transition in place and is specified by these functions.
 */
module Display {
  import opened BoardTypes
  import opened LinkFrames
  import Keys

  datatype PanelState = PanelState(
    width: nat,                        // myTetris.getWidth()
    height: nat,                       // myTetris.getHeight()
    gameData: Option<Grid>,            // myGameData (None before the first snapshot)
    tempData: Option<Grid>,            // myTempData, the buffered snapshot
    lines: seq<int>,                   // myCompletedLines
    frame: Frame,                      // myLink
    deadGuards: int,                   // myDeadGuards
    animated: bool,                    // myLinkIsAnimated
    theme: bool,                       // myZeldaTheme
    over: bool,                        // myGameIsOver
    paused: bool,                      // myGameIsPaused
    mainTimer: bool,                   // myTimer is running
    linkTimer: bool,                   // myLinkTimer is running
    bindings: map<Keys.Action, int>,   // the key table held by the key bindings
    enabled: set<Keys.Action>          // actions whose keys are enabled
  )

  /** What the observed board sends to `update`. */
  datatype Notification =
    | CompletedLines(rows: seq<int>)
    | BoardData(grid: Grid)
    | OtherArg

  /**
   * State after the constructor: `initialize` (frame `LINK_1`, every flag
   * false, dead guards = width) and `startGameGUI` (the default table
   * registered and every key enabled). The main timer is the caller's.
   */
  function Initial(width: nat, height: nat, mainTimerRunning: bool): (s: PanelState)
    requires width > 0 && height > 0
    ensures Inv(s)
    ensures s.enabled == Keys.AllActions() && !s.animated && !s.paused && !s.over
  {
    PanelState(width, height, None, None, [], Link1, width, false, false, false, false,
               mainTimerRunning, false, Keys.Defaults(), Keys.Defaults().Keys)
  }

  // ---- key bindings, as set operations ----

  function DisableAllKeys(s: PanelState): PanelState { s.(enabled := {}) }
  function EnableAllKeys(s: PanelState): PanelState { s.(enabled := s.bindings.Keys) }
  function EnableKey(s: PanelState, a: Keys.Action): PanelState { s.(enabled := s.enabled + {a}) }

  // ---- animation ----

  /** `setKills`: dead guards from the current frame. */
  function SetKills(s: PanelState): (r: PanelState)
    ensures r == s.(deadGuards := Kills(s.frame, s.width))
    ensures 0 <= r.deadGuards <= s.width
  {
    s.(deadGuards := Kills(s.frame, s.width))
  }

  /** `runLinkAnimation`. */
  function RunLinkAnimation(s: PanelState): PanelState
  {
    s.(animated := true, mainTimer := false, linkTimer := true)
  }

  /**
   * One firing of the link timer: kills from the current frame, then the
   * frame advances; when it wraps to `Link1` the animation ends, the main
   * timer restarts and the buffered snapshot becomes the live one.
   */
  function Tick(s: PanelState): (r: PanelState)
    ensures r.deadGuards == Kills(s.frame, s.width) && r.frame == Advance(s.frame)
    ensures r.frame == Link1 ==>
      !r.animated && !r.linkTimer && r.mainTimer && r.gameData == s.tempData &&
      r == s.(deadGuards := r.deadGuards, frame := Link1, animated := false,
              linkTimer := false, mainTimer := true, gameData := s.tempData)
    ensures r.frame != Link1 ==> r == s.(deadGuards := r.deadGuards, frame := r.frame)
  {
    var s1 := SetKills(s);
    var s2 := s1.(frame := Advance(s1.frame));
    if s2.frame == Link1 then
      s2.(animated := false, linkTimer := false, mainTimer := true, gameData := s2.tempData)
    else
      s2
  }

  // ---- observer ----

  /**
   * `update`: completed lines are always recorded and start the animation
   * only under the theme; a board snapshot goes live when nothing is
   * animating and is buffered otherwise; anything else changes nothing.
   */
  function Update(s: PanelState, n: Notification): (r: PanelState)
    ensures n.CompletedLines? && s.theme ==>
      r == s.(lines := n.rows, animated := true, mainTimer := false, linkTimer := true)
    ensures n.CompletedLines? && !s.theme ==> r == s.(lines := n.rows)
    ensures n.BoardData? && !s.animated ==> r == s.(gameData := Some(n.grid))
    ensures n.BoardData? && s.animated ==>
      r == s.(tempData := Some(n.grid)) && r.gameData == s.gameData
    ensures n.OtherArg? ==> r == s
  {
    match n
    case CompletedLines(rows) =>
      var s1 := s.(lines := rows);
      if s.theme then RunLinkAnimation(s1) else s1
    case BoardData(g) =>
      if !s.animated then s.(gameData := Some(g))
      else s.(tempData := Some(g))
    case OtherArg => s
  }

  /** `updateTheme`. */
  function UpdateTheme(s: PanelState, on: bool): PanelState
  {
    s.(theme := on)
  }

  // ---- pause, game over, new game, key table ----

  /** The fields the pause / game-over / key-table operations never touch. */
  predicate SameAnimationAndBoard(a: PanelState, b: PanelState)
  {
    a.width == b.width && a.height == b.height && a.gameData == b.gameData &&
    a.tempData == b.tempData && a.lines == b.lines && a.frame == b.frame &&
    a.deadGuards == b.deadGuards && a.animated == b.animated && a.theme == b.theme &&
    a.linkTimer == b.linkTimer
  }

  /**
   * `pause`: ignored once the game is over; otherwise only the pause key
   * stays enabled, the main timer stops and the game is paused.
   */
  function Pause(s: PanelState): (r: PanelState)
    ensures s.over ==> r == s
    ensures !s.over ==> r.paused && !r.mainTimer && r.enabled == {Keys.Pause}
    ensures SameAnimationAndBoard(s, r) && r.over == s.over && r.bindings == s.bindings
  {
    if !s.over then
      EnableKey(DisableAllKeys(s), Keys.Pause).(mainTimer := false, paused := true)
    else
      s
  }

  /**
   * `unpause`: always clears the pause flag; re-enables every key and starts
   * the main timer only when the game is not over.
   */
  function Unpause(s: PanelState): (r: PanelState)
    ensures !r.paused && r.over == s.over && r.bindings == s.bindings
    ensures !s.over ==> r.mainTimer && r.enabled == s.bindings.Keys
    ensures s.over ==> r.mainTimer == s.mainTimer && r.enabled == s.enabled
    ensures SameAnimationAndBoard(s, r)
  {
    var s1 := if !s.over then EnableAllKeys(s).(mainTimer := true) else s;
    s1.(paused := false)
  }

  /** `togglePause`. */
  function TogglePause(s: PanelState): PanelState
  {
    if s.paused then Unpause(s) else Pause(s)
  }

  /**
   * `gameOver`: every key disabled, the game over and not paused; the
   * `unpause` inside it re-enables nothing because the game is already over.
   */
  function GameOver(s: PanelState): (r: PanelState)
    ensures r.over && !r.paused && r.enabled == {}
    ensures r.mainTimer == s.mainTimer && r.bindings == s.bindings
    ensures SameAnimationAndBoard(s, r)
  {
    Unpause(DisableAllKeys(s).(over := true))
  }

  /**
   * `newGame`: not over, not paused, every key enabled and the main timer
   * running. Clearing the board belongs to the model and is not part of this.
   */
  function NewGame(s: PanelState): (r: PanelState)
    ensures !r.over && !r.paused && r.mainTimer
    ensures r.enabled == s.bindings.Keys && r.bindings == s.bindings
    ensures SameAnimationAndBoard(s, r)
  {
    EnableAllKeys(DisableAllKeys(Unpause(s.(over := false))))
  }

  /**
   * `setKeyBindings`: installs the new table; while over or paused only the
   * pause key is enabled, otherwise every key of the new table.
   */
  function SetKeyBindings(s: PanelState, keys: map<Keys.Action, int>): (r: PanelState)
    ensures r.bindings == keys
    ensures s.over || s.paused ==> r.enabled == {Keys.Pause}
    ensures !s.over && !s.paused ==> r.enabled == keys.Keys
    ensures SameAnimationAndBoard(s, r) && r.over == s.over && r.paused == s.paused
    ensures r.mainTimer == s.mainTimer
  {
    var s1 := DisableAllKeys(s).(bindings := keys);
    if s.over || s.paused then EnableKey(s1, Keys.Pause) else EnableAllKeys(s1)
  }

  /**
   * A key press: only enabled keys fire; of the registered actions only the
   * pause action acts on the panel (`togglePause`), the others move the
   * piece on the board, which is not part of this model.
   */
  function KeyPressed(s: PanelState, a: Keys.Action): PanelState
  {
    if a in s.enabled && a == Keys.Pause then TogglePause(s) else s
  }

  // ---- the panel invariant ----

  /**
   * What every reachable state satisfies: the link timer runs exactly while
   * the animation does; between animations the frame is `Link1` and no guard
   * is dead; the dead-guard count stays in `[0, width]`; and the enabled keys
   * follow the game state (all of them in play, only pause while paused,
   * at most pause once over).
   */
  predicate Inv(s: PanelState)
  {
    s.width > 0 && s.height > 0 && AnimationInv(s) && KeysInv(s)
  }

  predicate AnimationInv(s: PanelState)
  {
    s.linkTimer == s.animated &&
    (!s.animated ==> s.frame == Link1 && s.deadGuards == s.width) &&
    0 <= s.deadGuards <= s.width
  }

  predicate KeysInv(s: PanelState)
  {
    !(s.paused && s.over) &&
    (s.paused ==> s.enabled == {Keys.Pause}) &&
    (s.over ==> s.enabled <= {Keys.Pause}) &&
    (!s.paused && !s.over ==> s.enabled == s.bindings.Keys)
  }

  // ---- event runs ----

  /** Everything that can happen to the panel, in the order it happens. */
  datatype Event =
    | Observe(n: Notification)
    | LinkTimerFired
    | ThemeSet(on: bool)
    | KeyPress(a: Keys.Action)
    | PauseCalled
    | UnpauseCalled
    | TogglePauseCalled
    | GameOverCalled
    | NewGameCalled
    | KeysReplaced(keys: map<Keys.Action, int>)

  /** One event. A stopped link timer does not fire. */
  function Step(s: PanelState, e: Event): PanelState
  {
    match e
    case Observe(n) => Update(s, n)
    case LinkTimerFired => if s.linkTimer then Tick(s) else s
    case ThemeSet(on) => UpdateTheme(s, on)
    case KeyPress(a) => KeyPressed(s, a)
    case PauseCalled => Pause(s)
    case UnpauseCalled => Unpause(s)
    case TogglePauseCalled => TogglePause(s)
    case GameOverCalled => GameOver(s)
    case NewGameCalled => NewGame(s)
    case KeysReplaced(keys) => SetKeyBindings(s, keys)
  }

  function Run(s: PanelState, es: seq<Event>): PanelState
    decreases |es|
  {
    if es == [] then s else Step(Run(s, es[..|es| - 1]), es[|es| - 1])
  }

  /** Number of link-timer firings in a run. */
  function Ticks(es: seq<Event>): nat
    decreases |es|
  {
    if es == [] then 0
    else Ticks(es[..|es| - 1]) + (if es[|es| - 1].LinkTimerFired? then 1 else 0)
  }

  /** The last board snapshot sent in a run, or `d` if none was. */
  function LastBoard(es: seq<Event>, d: Option<Grid>): Option<Grid>
    decreases |es|
  {
    if es == [] then d
    else
      var e := es[|es| - 1];
      if e.Observe? && e.n.BoardData? then Some(e.n.grid) else LastBoard(es[..|es| - 1], d)
  }

  // ---- properties ----

  /** Every operation and callback keeps the panel invariant. */
  lemma TickKeepsInv(s: PanelState)
    requires Inv(s) && s.linkTimer
    ensures Inv(Tick(s))
  {
    assert Advance(s.frame) == Link1 ==> s.frame == Link6;
  }

  lemma StepKeepsInv(s: PanelState, e: Event)
    requires Inv(s)
    ensures Inv(Step(s, e))
  {
    match e
    case LinkTimerFired =>
      if s.linkTimer {
        TickKeepsInv(s);
      }
    case _ =>
  }

  lemma {:induction false} RunKeepsInv(s: PanelState, es: seq<Event>)
    requires Inv(s)
    ensures Inv(Run(s, es))
    decreases |es|
  {
    if es != [] {
      RunKeepsInv(s, es[..|es| - 1]);
      StepKeepsInv(Run(s, es[..|es| - 1]), es[|es| - 1]);
    }
  }

  lemma RunSnoc(s: PanelState, es: seq<Event>, e: Event)
    ensures Run(s, es + [e]) == Step(Run(s, es), e)
    ensures Ticks(es + [e]) == Ticks(es) + (if e.LinkTimerFired? then 1 else 0)
    ensures forall d :: LastBoard(es + [e], d) ==
                        (if e.Observe? && e.n.BoardData? then Some(e.n.grid) else LastBoard(es, d))
  {
    assert (es + [e])[..|es|] == es;
  }

  /** One event in the middle of an animation that is not about to wrap. */
  lemma StepMidAnimation(p: PanelState, e: Event)
    requires Inv(p) && p.animated
    requires Index(p.frame) + (if e.LinkTimerFired? then 1 else 0) < FRAME_COUNT
    ensures var q := Step(p, e);
      Inv(q) && q.animated && q.gameData == p.gameData && q.width == p.width &&
      q.tempData == (if e.Observe? && e.n.BoardData? then Some(e.n.grid) else p.tempData) &&
      Index(q.frame) == Index(p.frame) + (if e.LinkTimerFired? then 1 else 0)
  {
    StepKeepsInv(p, e);
  }

  /**
   * While an animation is in progress and its frame has not wrapped, the
   * live board never changes whatever happens, and every snapshot that
   * arrives lands in the buffer; the frame has moved one place per tick.
   */
  lemma {:induction false} MidAnimationBoardFrozen(s: PanelState, es: seq<Event>)
    requires Inv(s) && s.animated
    requires Index(s.frame) + Ticks(es) < FRAME_COUNT
    ensures var r := Run(s, es);
      Inv(r) && r.animated && r.gameData == s.gameData && r.width == s.width &&
      r.tempData == LastBoard(es, s.tempData) &&
      Index(r.frame) == Index(s.frame) + Ticks(es)
    decreases |es|
  {
    if es != [] {
      var init, e := es[..|es| - 1], es[|es| - 1];
      assert es == init + [e];
      RunSnoc(s, init, e);
      MidAnimationBoardFrozen(s, init);
      StepMidAnimation(Run(s, init), e);
    }
  }

  /**
   * The tick that completes the animation commits the last snapshot that
   * arrived during it (or the older buffer if none did), ends the animation,
   * sets the dead-guard count to the width (so no skeleton is drawn) and
   * hands control back to the main timer.
   */
  lemma AnimationCommitsOnWrap(s: PanelState, es: seq<Event>)
    requires Inv(s) && s.animated
    requires Index(s.frame) + Ticks(es) == FRAME_COUNT - 1
    ensures var r := Step(Run(s, es), LinkTimerFired);
      !r.animated && !r.linkTimer && r.mainTimer && r.frame == Link1 &&
      r.deadGuards == s.width && r.gameData == LastBoard(es, s.tempData)
  {
    MidAnimationBoardFrozen(s, es);
    var p := Run(s, es);
    assert p.frame == Link6;
  }

  /**
   * With the theme off and never switched on, nothing animates: every
   * snapshot goes live at once and the buffer is never written.
   */
  lemma {:induction false} ThemeOffAppliesImmediately(s: PanelState, es: seq<Event>)
    requires Inv(s) && !s.animated && !s.theme
    requires forall i :: 0 <= i < |es| ==> es[i] != ThemeSet(true)
    ensures var r := Run(s, es);
      Inv(r) && !r.animated && !r.theme && r.tempData == s.tempData &&
      r.gameData == LastBoard(es, s.gameData)
    decreases |es|
  {
    if es != [] {
      var init, e := es[..|es| - 1], es[|es| - 1];
      ThemeOffAppliesImmediately(s, init);
      StepKeepsInv(Run(s, init), e);
    }
  }

  /** Once the game is over no key press changes the panel. */
  lemma KeysInertWhenOver(s: PanelState, a: Keys.Action)
    requires Inv(s) && s.over
    ensures KeyPressed(s, a) == s
  {}

  /**
   * Disabling every key and enabling the pause key leaves exactly one action
   * live; replacing the table while paused keeps it that way.
   */
  lemma PauseOnlyKeys(s: PanelState, keys: map<Keys.Action, int>)
    requires Inv(s) && !s.over
    ensures Pause(s).enabled == {Keys.Pause} && |Pause(s).enabled| == 1
    ensures SetKeyBindings(Pause(s), keys).enabled == {Keys.Pause}
  {}

  /**
   * Pausing during the sword animation does not hold the game: the tick that
   * ends the animation starts the main timer although the panel is paused.
   */
  lemma PauseDuringAnimationResumesTimer(s: PanelState, rows: seq<int>)
    requires Inv(s) && s.theme && !s.over && !s.animated
    ensures var r := Run(s, [Observe(CompletedLines(rows)), PauseCalled,
                            LinkTimerFired, LinkTimerFired, LinkTimerFired,
                            LinkTimerFired, LinkTimerFired, LinkTimerFired]);
      r.paused && r.mainTimer && !r.animated
  {
    var tk := LinkTimerFired;
    var e0 := [Observe(CompletedLines(rows))];
    var e1 := e0 + [PauseCalled];
    var e2 := e1 + [tk];
    var e3 := e2 + [tk];
    var e4 := e3 + [tk];
    var e5 := e4 + [tk];
    var e6 := e5 + [tk];
    var e7 := e6 + [tk];
    RunSnoc(s, [], Observe(CompletedLines(rows)));
    assert [] + e0 == e0;
    RunSnoc(s, e0, PauseCalled);
    var p := Run(s, e1);
    assert p.paused && p.frame == Link1 && p.linkTimer && p.animated;
    RunSnoc(s, e1, tk);
    var q2 := Run(s, e2);
    assert q2.paused && q2.frame == Link2 && q2.linkTimer;
    RunSnoc(s, e2, tk);
    var q3 := Run(s, e3);
    assert q3.paused && q3.frame == Link3 && q3.linkTimer;
    RunSnoc(s, e3, tk);
    var q4 := Run(s, e4);
    assert q4.paused && q4.frame == Link4 && q4.linkTimer;
    RunSnoc(s, e4, tk);
    var q5 := Run(s, e5);
    assert q5.paused && q5.frame == Link5 && q5.linkTimer;
    RunSnoc(s, e5, tk);
    var q6 := Run(s, e6);
    assert q6.paused && q6.frame == Link6 && q6.linkTimer;
    RunSnoc(s, e6, tk);
    assert e7 == [Observe(CompletedLines(rows)), PauseCalled, tk, tk, tk, tk, tk, tk];
  }

  /**
   * Pausing and unpausing during the sword animation restarts the main
   * timer while the link timer is still running: both timers run at once.
   */
  lemma UnpauseDuringAnimationRunsBothTimers(s: PanelState, rows: seq<int>)
    requires Inv(s) && s.theme && !s.over
    ensures var r := Run(s, [Observe(CompletedLines(rows)), PauseCalled, UnpauseCalled]);
      r.animated && r.linkTimer && r.mainTimer
  {
    var e0 := [Observe(CompletedLines(rows))];
    var e1 := e0 + [PauseCalled];
    RunSnoc(s, [], Observe(CompletedLines(rows)));
    assert [] + e0 == e0;
    RunSnoc(s, e0, PauseCalled);
    RunSnoc(s, e1, UnpauseCalled);
    assert e1 + [UnpauseCalled] == [Observe(CompletedLines(rows)), PauseCalled, UnpauseCalled];
  }
}
