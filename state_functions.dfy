/** src/core/state/state_functions/state_functions.c: the table of game states,
    one entry per state, each holding the state's hook table. */
module StateFunctions {
  /** `enum GameState`; `Ord` is the C value. */
  datatype GameState = GsMenu | GsPlay | GsQuit | GsPause {
    function Ord(): (n: nat)
      ensures n < 4
    {
      match this
      case GsMenu => 0
      case GsPlay => 1
      case GsQuit => 2
      case GsPause => 3
    }
  }

  /** The hook functions a vtable slot can point at, or NULL. */
  datatype Hook =
    | NoHook
    | MenuStateEnter | MenuStateUpdate | MenuStateExit
    | PlayStateEnter | PlayStateUpdate | PlayStateExit
    | PauseStateEnter | PauseStateUpdate | PauseStateExit
    | QuitStateEnter

  /** `StateVTable`. */
  datatype VTable = VTable(enter: Hook, update: Hook, exit: Hook)

  const MENU_VTABLE := VTable(MenuStateEnter, MenuStateUpdate, MenuStateExit)
  const PLAY_VTABLE := VTable(PlayStateEnter, PlayStateUpdate, PlayStateExit)
  const PAUSE_VTABLE := VTable(PauseStateEnter, PauseStateUpdate, PauseStateExit)
  /** QUIT only has an enter hook. */
  const QUIT_VTABLE := VTable(QuitStateEnter, NoHook, NoHook)

  const NUM_STATES: nat := 4

  /** `GameStateObject`. */
  datatype StateObject = StateObject(vtable: VTable, kind: GameState)

  /** The table `init_game_states` builds, in its registration order. */
  const INITIAL_TABLE := [StateObject(MENU_VTABLE, GsMenu), StateObject(PLAY_VTABLE, GsPlay),
                          StateObject(QUIT_VTABLE, GsQuit), StateObject(PAUSE_VTABLE, GsPause)]

  /** The vtable each state is meant to have: an independent statement of the
      intent of `init_game_states`. */
  function VTableOf(s: GameState): VTable {
    match s
    case GsMenu => MENU_VTABLE
    case GsPlay => PLAY_VTABLE
    case GsQuit => QUIT_VTABLE
    case GsPause => PAUSE_VTABLE
  }

  /** `GameStates`: an array of entries and its declared count. */
  class GameStates {
    const states: array<StateObject>
    var numStates: int

    constructor (n: nat)
      ensures states.Length == n && numStates == n && fresh(states)
    {
      states := new StateObject[n](_ => StateObject(VTable(NoHook, NoHook, NoHook), GsMenu));
      numStates := n;
    }
  }

  /** `register_game_state`: overwrites exactly entry `index`. The C writes
      without a bounds check, so the index must be in range. */
  method RegisterGameState(states: GameStates, vtable: VTable, kind: GameState, index: int)
    requires 0 <= index < states.states.Length
    modifies states.states
    ensures states.states[..] == old(states.states[..])[index := StateObject(vtable, kind)]
  {
    states.states[index] := StateObject(vtable, kind);
  }

  /** `init_game_states`: four entries, MENU, PLAY, QUIT and PAUSE at indices
      0 to 3 with their vtables. */
  method InitGameStates() returns (g: GameStates)
    ensures fresh(g) && fresh(g.states)
    ensures g.numStates == NUM_STATES && g.states[..] == INITIAL_TABLE
  {
    g := new GameStates(NUM_STATES);
    RegisterGameState(g, MENU_VTABLE, GsMenu, 0);
    RegisterGameState(g, PLAY_VTABLE, GsPlay, 1);
    RegisterGameState(g, QUIT_VTABLE, GsQuit, 2);
    RegisterGameState(g, PAUSE_VTABLE, GsPause, 3);
  }

  /** `get_state_vtable`: the vtable stored at the state's index; unchecked in
      the C, so the index must exist. */
  function GetStateVTable(g: GameStates, s: GameState): (v: VTable)
    reads g.states
    requires s.Ord() < g.states.Length
    ensures v == g.states[s.Ord()].vtable
  {
    g.states[s.Ord()].vtable
  }

  /** `get_state_object`: asserts a table and `state < num_states`, then gives
      the entry at that index. */
  function GetStateObject(g: GameStates?, s: GameState): (o: StateObject)
    reads g, if g == null then {} else {g.states}
    requires g != null && s.Ord() < g.numStates && g.numStates <= g.states.Length
    ensures o == g.states[s.Ord()] && o.vtable == GetStateVTable(g, s)
  {
    g.states[s.Ord()]
  }

  /** In the initial table every state sits at its own index, with the vtable
      meant for it. */
  lemma {:induction false} InitialTableIndexedByState(s: GameState)
    ensures s.Ord() < |INITIAL_TABLE|
    ensures INITIAL_TABLE[s.Ord()].kind == s && INITIAL_TABLE[s.Ord()].vtable == VTableOf(s)
  {
    match s
    case GsMenu =>
    case GsPlay =>
    case GsQuit =>
    case GsPause =>
  }

  /** After `init_game_states`, looking a state up gives its own vtable; e.g.
      QUIT gives the QUIT table, whose update and exit slots are NULL. */
  lemma LookupAfterInit(g: GameStates, s: GameState)
    requires g.states[..] == INITIAL_TABLE && g.numStates == NUM_STATES
    ensures GetStateVTable(g, s) == VTableOf(s)
    ensures GetStateObject(g, s) == StateObject(VTableOf(s), s)
    ensures s == GsQuit ==>
      GetStateVTable(g, s) == QUIT_VTABLE && GetStateVTable(g, s).update == NoHook &&
      GetStateVTable(g, s).exit == NoHook
  {
    InitialTableIndexedByState(s);
    assert g.states[s.Ord()] == g.states[..][s.Ord()];
  }
}
