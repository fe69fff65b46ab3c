/** src/core/state/state_functions/quit/quit_state.c: the QUIT state's only
    hook. The render service is the one bound to RENDER_SERVICE. */
module QuitState {
  import opened Render

  /** `quit_state_enter`: drops every layer; only that service changes. */
  method Enter(R: RenderService?)
    requires R != null ==> R.Valid()
    modifies Footprint(R)
    ensures R != null ==> R.Valid() && R.renderer == old(R.renderer)
    ensures R != null ==> R.layerCount == 0 && R.Contents() == []
    ensures R != null ==> R.Slots() == seq(MAX_RENDER_LAYERS, _ => EmptyLayer)
  {
    RemoveAllLayers(R);
  }
}
