/** src/core/state/state_functions/menu/menu_state.c: the MENU state's hooks.
    The render service is the one the state manager's registry binds to
    RENDER_SERVICE (NULL when none); the menu is the state manager's menu. */
module MenuState {
  import opened Handles
  import opened Render

  /** The static `menu_render_layer` callback. */
  const MENU_RENDER_LAYER: Ptr := Ref(1)

  /** The one layer the menu state draws with. */
  function MenuLayer(menu: object?): (l: RenderLayer)
    ensures l.fn == MENU_RENDER_LAYER && l.userdata == menu && l.name == "menu"
  {
    RenderLayer(MENU_RENDER_LAYER, menu, Truncate("menu", NAME_MAX))
  }

  /** `menu_state_enter`: drops every layer, then adds the menu layer, so the
      service ends with that one layer whatever it held before (entering twice
      gives the same stack). */
  method Enter(R: RenderService?, menu: object?)
    requires R != null ==> R.Valid()
    modifies Footprint(R)
    ensures R != null ==> R.Valid() && R.renderer == old(R.renderer)
    ensures R != null ==> R.Contents() == [MenuLayer(menu)]
    ensures R != null ==> R.Slots() == seq(MAX_RENDER_LAYERS, _ => EmptyLayer)[0 := MenuLayer(menu)]
  {
    RemoveAllLayers(R);
    var _ := AddLayer(R, MENU_RENDER_LAYER, menu, "menu");
    if R != null {
      assert R.Contents() == R.Slots()[..1];
    }
  }

  /** `menu_state_update`: does nothing. */
  method Update() {
  }

  /** `menu_state_exit`: does nothing. */
  method Exit() {
  }
}
