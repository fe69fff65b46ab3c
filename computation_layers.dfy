/** src/core/compute/computation_layers.c: the four standard per-frame layers
    and their registration. Each layer looks its services up in the game's
    registry; here the objects the registry binds to INPUT_SERVICE,
    STATE_MANAGER_SERVICE and RENDER_SERVICE are parameters. */
module ComputationLayers {
  import opened Handles
  import opened ComputationStack
  import opened Render
  import opened Input
  import opened StateFunctions
  import SM = CoreStateManager
  import MU = MenuUi
  import EB = EventBus

  /** The layer functions, as the callbacks the stack calls. */
  const LAYER_CLOCK_UPDATE: Ptr := Ref(10)
  const LAYER_STATE_INPUT: Ptr := Ref(11)
  const LAYER_STATE_RENDER: Ptr := Ref(12)
  const LAYER_PRESENT: Ptr := Ref(13)

  /** The `LAYER_PRIORITY_*` constants, which are defined outside this code. */
  datatype Priorities = Priorities(clock: int, input: int, render: int, present: int)

  /** The four layers `register_standard_layers` pushes, in push order. */
  function StandardLayers(p: Priorities): (r: seq<LayerInfo>)
    ensures |r| == 4
    ensures r[0].name == "clock" && r[1].name == "input" && r[2].name == "render" && r[3].name == "present"
    ensures r[0].fn == LAYER_CLOCK_UPDATE && r[1].fn == LAYER_STATE_INPUT
    ensures r[2].fn == LAYER_STATE_RENDER && r[3].fn == LAYER_PRESENT
  {
    [LayerInfo("clock", p.clock, LAYER_CLOCK_UPDATE), LayerInfo("input", p.input, LAYER_STATE_INPUT),
     LayerInfo("render", p.render, LAYER_STATE_RENDER), LayerInfo("present", p.present, LAYER_PRESENT)]
  }

  /** `register_standard_layers`: pushes the clock, input, render and present
      layers, in that order, with their priorities. */
  method RegisterStandardLayers(stack: ComputationStack, p: Priorities)
    requires stack.Valid()
    modifies stack, stack.Repr
    ensures stack.Valid()
    ensures var l := StandardLayers(p);
      stack.Contents() == Insert(Insert(Insert(Insert(old(stack.Contents()), l[0]), l[1]), l[2]), l[3])
  {
    ghost var l := StandardLayers(p);
    ghost var c0 := stack.Contents();
    var clock := PushLayer(stack, "clock", LAYER_CLOCK_UPDATE, p.clock);
    ghost var c1 := stack.Contents();
    assert c1 == Insert(c0, l[0]);
    var input := PushLayer(stack, "input", LAYER_STATE_INPUT, p.input);
    ghost var c2 := stack.Contents();
    assert c2 == Insert(c1, l[1]);
    var render := PushLayer(stack, "render", LAYER_STATE_RENDER, p.render);
    ghost var c3 := stack.Contents();
    assert c3 == Insert(c2, l[2]);
    var present := PushLayer(stack, "present", LAYER_PRESENT, p.present);
    assert stack.Contents() == Insert(c3, l[3]);
  }

  /** A layer whose priority is at most every present one goes last. */
  lemma {:induction false} InsertLowest(s: seq<LayerInfo>, x: LayerInfo)
    requires forall i :: 0 <= i < |s| ==> s[i].priority >= x.priority
    ensures Insert(s, x) == s + [x]
  {
    if s != [] {
      InsertLowest(s[1..], x);
      assert [s[0]] + (s[1..] + [x]) == s + [x];
    }
  }

  /** On an empty stack, with priorities in the "highest first" order of the
      pushes, the stack then runs clock, input, render and present in that
      order. */
  lemma StandardOrder(p: Priorities)
    requires p.clock >= p.input >= p.render >= p.present
    ensures var l := StandardLayers(p);
      Insert(Insert(Insert(Insert([], l[0]), l[1]), l[2]), l[3]) == l
    ensures Fns(StandardLayers(p)) == [LAYER_CLOCK_UPDATE, LAYER_STATE_INPUT, LAYER_STATE_RENDER, LAYER_PRESENT]
  {
    var l := StandardLayers(p);
    InsertLowest([], l[0]);
    InsertLowest([l[0]], l[1]);
    InsertLowest([l[0], l[1]], l[2]);
    InsertLowest([l[0], l[1], l[2]], l[3]);
    assert [l[0], l[1], l[2], l[3]] == l;
  }

  /** `layer_state_input`: the state manager handles the input service's
      frame; both must exist, as the C dereferences them. */
  method LayerStateInput(sm: SM.StateManager, im: InputManager) returns (calls: seq<EB.Invocation>)
    requires sm.menu != null && (sm.menu.eventBus != null ==> sm.menu.eventBus.Valid())
    modifies sm, sm.menu
    ensures sm.menu == old(sm.menu)
    ensures sm.state == SM.StateAfterInput(old(sm.state), im.Pressed(ACTION_CANCEL) == 1)
    ensures old(sm.state) == GsMenu ==>
      var confirm := im.Pressed(ACTION_CONFIRM) == 1;
      var c := MU.Clicked(old(sm.menu.buttons), im.mouseX, im.mouseY, confirm);
      sm.menu.buttons == sm.menu.AfterInput(old(sm.menu.buttons), im.mouseX, im.mouseY, confirm) &&
      sm.menu.lastSignal == (if c.Some? then c.value else old(sm.menu.lastSignal)) &&
      calls == (if c.None? || sm.menu.eventBus == null then []
                else EB.Invocations(sm.menu.eventBus.ListenersOf(MU.MENU_CHANNEL),
                                    EB.Event(EB.EVENT_TYPE_SIGNAL, EB.SignalCell(c.value))))
    ensures old(sm.state) != GsMenu ==>
      calls == [] && sm.menu.buttons == old(sm.menu.buttons) && sm.menu.lastSignal == old(sm.menu.lastSignal)
    ensures sm.menu.eventBus == old(sm.menu.eventBus) && sm.menu.audioManager == old(sm.menu.audioManager)
  {
    calls := sm.HandleInput(im);
  }

  /** `layer_present`: draws the render layers, then clears the per-frame
      input flags. Besides the draws, returns the input state the draws ran
      under, which still has this frame's pressed and released flags. */
  method LayerPresent(R: RenderService?, im: InputManager) returns (calls: seq<Draw>, seen: InputState)
    requires R != null ==> R.Valid()
    modifies im
    ensures R == null || R.renderer == Null ==> calls == []
    ensures R != null && R.renderer != Null ==> calls == Drawn(R.Contents())
    ensures seen == old(im.State())
    ensures im.State() == seen.(pressed := 0, released := 0)
  {
    calls := Present(R);
    seen := im.State();
    im.Update();
  }

  /** `layer_state_render`: begins a frame (clears the screen) only when a
      render service is registered and it has a renderer. */
  method LayerStateRender(R: RenderService?) returns (cleared: bool)
    ensures cleared <==> R != null && R.renderer != Null
  {
    cleared := false;
    if R != null {
      cleared := BeginFrame(R);
    }
  }
}
