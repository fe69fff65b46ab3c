/** src/core/state/state_functions/play/play_state.c: the PLAY state's hooks.
    The render service is the one bound to RENDER_SERVICE (NULL when none). */
module PlayState {
  import opened Handles
  import opened Render

  /** The static `play_state_background` callback (it clears the screen to a
      fixed colour). */
  const PLAY_STATE_BACKGROUND: Ptr := Ref(2)

  /** The one layer the play state draws with; it carries no userdata. */
  function BackgroundLayer(): (l: RenderLayer)
    ensures l.fn == PLAY_STATE_BACKGROUND && l.userdata == null && l.name == "play_background"
  {
    RenderLayer(PLAY_STATE_BACKGROUND, null, Truncate("play_background", NAME_MAX))
  }

  /** `play_state_enter`: drops every layer, then adds the background layer,
      so the service ends with that one layer whatever it held before. */
  method Enter(R: RenderService?)
    requires R != null ==> R.Valid()
    modifies Footprint(R)
    ensures R != null ==> R.Valid() && R.renderer == old(R.renderer)
    ensures R != null ==> R.Contents() == [BackgroundLayer()]
    ensures R != null ==> R.Slots() == seq(MAX_RENDER_LAYERS, _ => EmptyLayer)[0 := BackgroundLayer()]
  {
    RemoveAllLayers(R);
    var _ := AddLayer(R, PLAY_STATE_BACKGROUND, null, "play_background");
    if R != null {
      assert R.Contents() == R.Slots()[..1];
    }
  }

  /** `play_state_update`: does nothing. */
  method Update() {
  }

  /** `play_state_exit`: does nothing. */
  method Exit() {
  }
}
