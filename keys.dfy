/**
 * The key-binding table registered by the board panel: seven logical
 * actions and their default `KeyEvent` codes.
 */
module Keys {

  /** The seven registered actions, named as their `KeyAction`s are. */
  datatype Action = Left | Right | Down | Clockwise | Counterclockwise | Drop | Pause

  /** `KeyEvent.VK_*` codes of the default bindings. */
  const VK_A: int := 65
  const VK_D: int := 68
  const VK_E: int := 69
  const VK_P: int := 80
  const VK_Q: int := 81
  const VK_S: int := 83
  const VK_W: int := 87

  function AllActions(): set<Action>
  {
    {Left, Right, Down, Clockwise, Counterclockwise, Drop, Pause}
  }

  /** Default code of each action. */
  function DefaultCode(a: Action): int
  {
    match a
    case Left => VK_A
    case Right => VK_D
    case Down => VK_S
    case Clockwise => VK_E
    case Counterclockwise => VK_Q
    case Drop => VK_W
    case Pause => VK_P
  }

  /**
   * The table `registerKeyActions` builds: every action bound, the pause
   * action among them, and no two actions sharing a key code.
   */
  function Defaults(): (m: map<Action, int>)
    ensures m.Keys == AllActions() && Pause in m
    ensures forall a, b :: a in m && b in m && a != b ==> m[a] != m[b]
  {
    map a | a in AllActions() :: DefaultCode(a)
  }

  /** Putting the seven defaults one by one over a table `b` yields `b + Defaults()`. */
  lemma PutDefaults(b: map<Action, int>)
    ensures b[Left := VK_A][Right := VK_D][Down := VK_S][Clockwise := VK_E]
             [Counterclockwise := VK_Q][Drop := VK_W][Pause := VK_P] == b + Defaults()
  {
    var m := b[Left := VK_A][Right := VK_D][Down := VK_S][Clockwise := VK_E]
             [Counterclockwise := VK_Q][Drop := VK_W][Pause := VK_P];
    assert m.Keys == b.Keys + AllActions();
    forall a | a in m
      ensures m[a] == (b + Defaults())[a]
    {
      if a in AllActions() {
        assert m[a] == DefaultCode(a);
      }
    }
  }

  /** Registering over an empty table gives exactly the defaults. */
  lemma PutDefaultsOverEmpty()
    ensures map[] + Defaults() == Defaults()
  {}

  /** The table has exactly seven entries. */
  lemma DefaultsHaveSevenActions()
    ensures |Defaults().Keys| == 7
  {
    var s := {Left};
    assert Right !in s;
    s := s + {Right};
    assert Down !in s;
    s := s + {Down};
    assert Clockwise !in s;
    s := s + {Clockwise};
    assert Counterclockwise !in s;
    s := s + {Counterclockwise};
    assert Drop !in s;
    s := s + {Drop};
    assert Pause !in s;
    s := s + {Pause};
    assert s == AllActions();
  }
}
