/** src/core/state/state_manager.c: the current revision of the state manager,
    which owns the menu and moves between MENU and PLAY. */
module CoreStateManager {
  import opened Handles
  import opened Input
  import opened MenuUi
  import opened StateFunctions
  import EB = EventBus

  // ---- `sm_update` as written ----------------------------------------------

  /** What `sm_update` does as written. `menu_pop_signal` returns a
      `MenuSignal`, but the result is stored in a `const char *` and compared
      with `strcmp`: NONE (0) becomes NULL and returns early, while every other
      signal becomes the address 1 to 5, which `strcmp` reads through.
      `None` stands for that invalid read. */
  function UpdateAsWritten(state: GameState, popped: int): (r: Option<GameState>)
    ensures r.None? <==> state == GsMenu && popped != MENU_SIGNAL_NONE
    ensures r.Some? ==> r.value == state
  {
    if state != GsMenu then Some(state)
    else if popped == MENU_SIGNAL_NONE then Some(state)
    else None
  }

  /** As written, no popped signal ever leads to PLAY: "New Game" and
      "Continue" end in the invalid read, and NONE leaves the menu as it is. */
  lemma AsWrittenNeverPlays(popped: int)
    ensures UpdateAsWritten(GsMenu, popped) != Some(GsPlay)
    ensures UpdateAsWritten(GsMenu, MENU_SIGNAL_GOTO_NEW_GAME) == None
    ensures UpdateAsWritten(GsMenu, MENU_SIGNAL_GOTO_CONTINUE) == None
  {
  }

  // ---- the intended transitions --------------------------------------------

  /** The state after `sm_update` as intended: in MENU, a popped NEW_GAME or
      CONTINUE signal starts PLAY; anything else changes nothing. */
  function StateAfterUpdate(state: GameState, popped: int): GameState {
    if state == GsMenu && (popped == MENU_SIGNAL_GOTO_NEW_GAME || popped == MENU_SIGNAL_GOTO_CONTINUE)
    then GsPlay else state
  }

  /** The state after `sm_handle_input`: CANCEL pressed in PLAY goes back to
      MENU; the menu itself never changes the state. */
  function StateAfterInput(state: GameState, cancel: bool): GameState {
    if state == GsPlay && cancel then GsMenu else state
  }

  /** `StateManager`. The services field the hooks read is not part of the
      header; the hooks take the render service directly. */
  class StateManager {
    var state: GameState
    var menu: Menu?

    /** `sm_create` (state part): starts in MENU with the given menu. */
    constructor (menu: Menu?)
      ensures state == GsMenu && this.menu == menu
    {
      state := GsMenu;
      this.menu := menu;
    }

    /** `sm_update`, with the popped signal compared as the enum it is. Only
        in MENU is a signal popped (and so reset to NONE). */
    method Update()
      requires menu != null
      modifies this, menu
      ensures menu == old(menu) && state == StateAfterUpdate(old(state), old(menu.lastSignal))
      ensures old(state) == GsMenu ==> menu.lastSignal == MENU_SIGNAL_NONE
      ensures old(state) != GsMenu ==> menu.lastSignal == old(menu.lastSignal)
      ensures menu.buttons == old(menu.buttons) && menu.eventBus == old(menu.eventBus)
      ensures menu.audioManager == old(menu.audioManager)
    {
      if state == GsMenu {
        var sig := menu.PopSignal();
        if sig == MENU_SIGNAL_NONE {
          return;
        }
        if sig == MENU_SIGNAL_GOTO_NEW_GAME || sig == MENU_SIGNAL_GOTO_CONTINUE {
          state := GsPlay;
        }
      }
    }

    /** `sm_handle_input`: in MENU the menu handles the frame's input (and the
        state stays MENU); in PLAY a pressed CANCEL returns to MENU. Returns
        the listener calls of the menu's emission. */
    method HandleInput(im: InputManager) returns (calls: seq<EB.Invocation>)
      requires menu != null && (menu.eventBus != null ==> menu.eventBus.Valid())
      modifies this, menu
      ensures menu == old(menu) && state == StateAfterInput(old(state), im.Pressed(ACTION_CANCEL) == 1)
      ensures old(state) == GsMenu ==>
        var c := Clicked(old(menu.buttons), im.mouseX, im.mouseY, im.Pressed(ACTION_CONFIRM) == 1);
        menu.buttons == menu.AfterInput(old(menu.buttons), im.mouseX, im.mouseY, im.Pressed(ACTION_CONFIRM) == 1) &&
        menu.lastSignal == (if c.Some? then c.value else old(menu.lastSignal)) &&
        calls == (if c.None? || menu.eventBus == null then []
                  else EB.Invocations(menu.eventBus.ListenersOf(MENU_CHANNEL),
                                      EB.Event(EB.EVENT_TYPE_SIGNAL, EB.SignalCell(c.value))))
      ensures old(state) != GsMenu ==>
        calls == [] && menu.buttons == old(menu.buttons) &&
        menu.lastSignal == old(menu.lastSignal)
      ensures menu.eventBus == old(menu.eventBus) && menu.audioManager == old(menu.audioManager)
    {
      calls := [];
      if state == GsMenu {
        calls := menu.HandleInput(im);
      }
      if state == GsPlay && im.Pressed(ACTION_CANCEL) == 1 {
        state := GsMenu;
      }
    }
  }

  /** `sm_set_audio_manager`: gives the menu the audio manager; without a
      state manager or a menu it does nothing. */
  method SetAudioManager(sm: StateManager?, am: object?)
    modifies if sm == null || sm.menu == null then {} else {sm.menu}
    ensures sm != null && sm.menu != null ==>
      sm.menu.audioManager == am &&
      sm.menu.buttons == old(sm.menu.buttons) && sm.menu.lastSignal == old(sm.menu.lastSignal) &&
      sm.menu.eventBus == old(sm.menu.eventBus)
  {
    if sm == null || sm.menu == null {
      return;
    }
    sm.menu.audioManager := am;
  }

  /** Only MENU and PLAY are ever reached: from either of them, updates and
      input lead to MENU or PLAY again, never QUIT or PAUSE. */
  lemma NeverQuitOrPause(state: GameState, popped: int, cancel: bool)
    requires state == GsMenu || state == GsPlay
    ensures StateAfterUpdate(state, popped) in {GsMenu, GsPlay}
    ensures StateAfterInput(state, cancel) in {GsMenu, GsPlay}
  {
  }

  /** The transitions in full: PLAY is left only by CANCEL, and entered only
      from MENU by a NEW_GAME or CONTINUE signal. */
  lemma Transitions(state: GameState, popped: int, cancel: bool)
    ensures StateAfterUpdate(state, popped) == GsPlay && state != GsPlay <==>
      state == GsMenu && (popped == MENU_SIGNAL_GOTO_NEW_GAME || popped == MENU_SIGNAL_GOTO_CONTINUE)
    ensures StateAfterInput(state, cancel) != state <==> state == GsPlay && cancel
    ensures state != GsMenu ==> StateAfterUpdate(state, popped) == state
  {
  }
}
