/** src/state/state_manager.c: the older state manager, driven by raw SDL
    events, whose menu reports signals as strings. That menu
    (`menu_handle_event`, a string-returning `menu_pop_signal`) is not part of
    this model: the popped string is a parameter. */
module LegacyStateManager {
  import opened Handles
  import opened Input

  /** This revision's `enum GameState`. */
  datatype GameState = GsMenu | GsPlay | GsQuit

  /** Whether `e` is a key press of ESCAPE (the key symbol, repeats included). */
  predicate IsEscapeDown(e: SdlEvent) {
    e.KeyDown? && e.sym == KeyEscape
  }

  /** The state after `sm_handle_event`. */
  function AfterEvent(state: GameState, e: SdlEvent): GameState {
    if state == GsPlay && IsEscapeDown(e) then GsMenu else state
  }

  /** The state after `sm_update` given what the menu pops (`None` for NULL). */
  function AfterUpdate(state: GameState, popped: Option<string>): GameState {
    if state == GsMenu && popped.Some? && (popped.value == "goto_newgame" || popped.value == "goto_continue")
    then GsPlay else state
  }

  class StateManager {
    var state: GameState
    var menu: object?

    /** `sm_create` (state part). */
    constructor (menu: object?)
      ensures state == GsMenu && this.menu == menu
    {
      state := GsMenu;
      this.menu := menu;
    }

    /** `sm_handle_event`: in MENU the event goes to the menu (not modelled)
        and the state stays; in PLAY a key press of ESCAPE returns to MENU. */
    method HandleEvent(e: SdlEvent)
      modifies this
      ensures state == AfterEvent(old(state), e) && menu == old(menu)
    {
      if state == GsMenu {
        // the legacy menu handles the event here; it is not modelled
      } else if state == GsPlay {
        if e.KeyDown? && e.sym == KeyEscape {
          state := GsMenu;
        }
      }
    }

    /** `sm_update`: in MENU, "goto_newgame" or "goto_continue" starts PLAY;
        no signal, another signal or another state changes nothing. */
    method Update(popped: Option<string>)
      modifies this
      ensures state == AfterUpdate(old(state), popped) && menu == old(menu)
    {
      if state == GsMenu {
        if popped.None? {
          return;
        }
        var sig := popped.value;
        if sig == "goto_newgame" || sig == "goto_continue" {
          state := GsPlay;
        }
      }
    }
  }

  /** From MENU or PLAY, events and updates only ever lead to MENU or PLAY:
      QUIT is never entered. */
  lemma NeverQuit(state: GameState, e: SdlEvent, popped: Option<string>)
    requires state != GsQuit
    ensures AfterEvent(state, e) != GsQuit && AfterUpdate(state, popped) != GsQuit
  {
  }

  /** Each transition in both directions: PLAY is left exactly on ESCAPE, and
      entered exactly from MENU on one of the two signals. */
  lemma Transitions(state: GameState, e: SdlEvent, popped: Option<string>)
    ensures AfterEvent(state, e) != state <==> state == GsPlay && IsEscapeDown(e)
    ensures AfterUpdate(state, popped) != state <==>
      state == GsMenu && popped.Some? && (popped.value == "goto_newgame" || popped.value == "goto_continue")
  {
  }
}
