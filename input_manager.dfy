/** src/input/input_manager.c: three 32-bit masks with one bit per action
    (held, pressed this frame, released this frame) plus the cursor position,
    fed by SDL events and cleared once per frame. */
module Input {

  /** `InputAction` (input_actions.h), held as the shift amount the bit
      helpers use. */
  type InputAction = a: bv8 | a <= 8
  const ACTION_NONE: InputAction := 0
  const ACTION_MOVE_UP: InputAction := 1
  const ACTION_MOVE_DOWN: InputAction := 2
  const ACTION_MOVE_LEFT: InputAction := 3
  const ACTION_MOVE_RIGHT: InputAction := 4
  const ACTION_CONFIRM: InputAction := 5
  const ACTION_CANCEL: InputAction := 6
  const ACTION_QUIT: InputAction := 7
  const ACTION_COUNT: InputAction := 8

  /** The SDL scancodes the key map names; every other scancode is `ScOther`. */
  datatype Scancode =
    | ScW | ScUp | ScS | ScDown | ScA | ScLeft | ScD | ScRight
    | ScReturn | ScSpace | ScEscape | ScOther(code: int)

  /** SDL key symbols, as far as any state manager compares them. */
  datatype Keycode = KeyEscape | KeyOther(code: int)

  const SDL_BUTTON_LEFT: int := 1

  /** The fields of `SDL_Event` the game reads. */
  datatype SdlEvent =
    | KeyDown(scancode: Scancode, sym: Keycode, repeat: bool)
    | KeyUp(scancode: Scancode, sym: Keycode)
    | MouseButtonDown(button: int)
    | MouseButtonUp(button: int)
    | MouseMotion(x: int, y: int)
    | QuitEvent
    | OtherEvent

  /** `key_to_action`. */
  function KeyToAction(sc: Scancode): (a: InputAction)
    ensures a == ACTION_NONE <==> sc.ScOther?
    ensures a <= ACTION_CANCEL
  {
    match sc
    case ScW | ScUp => ACTION_MOVE_UP
    case ScS | ScDown => ACTION_MOVE_DOWN
    case ScA | ScLeft => ACTION_MOVE_LEFT
    case ScD | ScRight => ACTION_MOVE_RIGHT
    case ScReturn | ScSpace => ACTION_CONFIRM
    case ScEscape => ACTION_CANCEL
    case ScOther(_) => ACTION_NONE
  }

  // ---- bit helpers ------------------------------------------------------------

  /** `set_bit`: `mask | (1u << a)`. */
  function SetBit(mask: bv32, a: InputAction): bv32 {
    mask | ((1 as bv32) << a)
  }

  /** `clr_bit`: `mask & ~(1u << a)`. */
  function ClrBit(mask: bv32, a: InputAction): bv32 {
    mask & !((1 as bv32) << a)
  }

  /** `get_bit`: `(mask >> a) & 1u`, which is 0 or 1. */
  function GetBit(mask: bv32, a: InputAction): (r: int)
    ensures r == 0 || r == 1
    ensures r == 1 <==> Has(mask, a)
  {
    if (mask >> a) & 1 == 1 then 1 else 0
  }

  ghost predicate Has(mask: bv32, a: InputAction) {
    (mask >> a) & 1 == 1
  }

  /** Every value of `InputAction`. */
  const ALL_ACTIONS: set<InputAction> := {0, 1, 2, 3, 4, 5, 6, 7, 8}

  /** The actions whose bit is set in `mask`. */
  ghost function Actions(mask: bv32): set<InputAction> {
    set a: InputAction | a in ALL_ACTIONS && Has(mask, a)
  }

  lemma SetHas(mask: bv32, a: InputAction, b: InputAction)
    ensures Has(SetBit(mask, a), b) <==> Has(mask, b) || a == b
  {
  }

  lemma ClrHas(mask: bv32, a: InputAction, b: InputAction)
    ensures Has(ClrBit(mask, a), b) <==> Has(mask, b) && a != b
  {
  }

  /** Setting a bit adds exactly that action. */
  lemma SetBitActions(mask: bv32, a: InputAction)
    ensures Actions(SetBit(mask, a)) == Actions(mask) + {a}
  {
    forall b: InputAction { SetHas(mask, a, b); }
  }

  /** Clearing a bit removes exactly that action. */
  lemma ClrBitActions(mask: bv32, a: InputAction)
    ensures Actions(ClrBit(mask, a)) == Actions(mask) - {a}
  {
    forall b: InputAction { ClrHas(mask, a, b); }
  }

  lemma ZeroActions()
    ensures Actions(0) == {}
  {
    forall b: InputAction ensures !Has(0, b) { }
  }

  // ---- the manager ----------------------------------------------------------

  /** A snapshot of every field of `InputManager`. */
  datatype InputState = InputState(down: bv32, pressed: bv32, released: bv32, mouseX: int, mouseY: int)

  /** What `input_handle_event` does to the fields for one event. */
  function Step(s: InputState, e: SdlEvent): InputState {
    match e
    case KeyDown(sc, _, repeat) =>
      var a := KeyToAction(sc);
      if !repeat && a != ACTION_NONE && GetBit(s.down, a) == 0
      then s.(down := SetBit(s.down, a), pressed := SetBit(s.pressed, a))
      else s
    case KeyUp(sc, _) =>
      var a := KeyToAction(sc);
      if a != ACTION_NONE then s.(down := ClrBit(s.down, a), released := SetBit(s.released, a)) else s
    case MouseButtonDown(b) =>
      if b == SDL_BUTTON_LEFT
      then s.(pressed := SetBit(s.pressed, ACTION_CONFIRM), down := SetBit(s.down, ACTION_CONFIRM))
      else s
    case MouseButtonUp(b) =>
      if b == SDL_BUTTON_LEFT
      then s.(down := ClrBit(s.down, ACTION_CONFIRM), released := SetBit(s.released, ACTION_CONFIRM))
      else s
    case MouseMotion(x, y) => s.(mouseX := x, mouseY := y)
    case QuitEvent => s.(pressed := SetBit(s.pressed, ACTION_QUIT))
    case OtherEvent => s
  }

  class InputManager {
    var down: bv32
    var pressed: bv32
    var released: bv32
    var mouseX: int
    var mouseY: int

    function State(): InputState
      reads this
    {
      InputState(down, pressed, released, mouseX, mouseY)
    }

    /** `input_create`: `calloc`, so every mask and coordinate is zero. */
    constructor ()
      ensures State() == InputState(0, 0, 0, 0, 0)
    {
      down, pressed, released, mouseX, mouseY := 0, 0, 0, 0, 0;
    }

    /** `input_handle_event`. */
    method HandleEvent(e: SdlEvent)
      modifies this
      ensures State() == Step(old(State()), e)
    {
      if e.KeyDown? && !e.repeat {
        var a := KeyToAction(e.scancode);
        if a != ACTION_NONE && GetBit(down, a) == 0 {
          down := SetBit(down, a);
          pressed := SetBit(pressed, a);
        }
      }
      if e.KeyUp? {
        var a := KeyToAction(e.scancode);
        if a != ACTION_NONE {
          down := ClrBit(down, a);
          released := SetBit(released, a);
        }
      }
      if e.MouseButtonDown? && e.button == SDL_BUTTON_LEFT {
        pressed := SetBit(pressed, ACTION_CONFIRM);
        down := SetBit(down, ACTION_CONFIRM);
      }
      if e.MouseButtonUp? && e.button == SDL_BUTTON_LEFT {
        down := ClrBit(down, ACTION_CONFIRM);
        released := SetBit(released, ACTION_CONFIRM);
      }
      if e.MouseMotion? {
        mouseX := e.x;
        mouseY := e.y;
      }
      if e.QuitEvent? {
        pressed := SetBit(pressed, ACTION_QUIT);
      }
    }

    /** `input_update`: the per-frame flags are cleared; held keys and the
        cursor survive. */
    method Update()
      modifies this
      ensures State() == old(State()).(pressed := 0, released := 0)
      ensures Actions(pressed) == {} && Actions(released) == {}
    {
      pressed := 0;
      released := 0;
      ZeroActions();
    }

    /** `input_pressed`. */
    function Pressed(a: InputAction): (r: int)
      reads this
      ensures r == (if a in Actions(pressed) then 1 else 0)
    {
      GetBit(pressed, a)
    }

    /** `input_released`. */
    function Released(a: InputAction): (r: int)
      reads this
      ensures r == (if a in Actions(released) then 1 else 0)
    {
      GetBit(released, a)
    }

    /** `input_held`. */
    function Held(a: InputAction): (r: int)
      reads this
      ensures r == (if a in Actions(down) then 1 else 0)
    {
      GetBit(down, a)
    }

    /** `input_mouse_pos`: both coordinates (the C code skips a NULL out-pointer). */
    function MousePos(): (p: (int, int))
      reads this
      ensures p.0 == State().mouseX && p.1 == State().mouseY
    {
      (mouseX, mouseY)
    }
  }

  // ---- what one event does, in terms of sets of actions -----------------------

  /** A fresh press of a mapped key adds its action to held and pressed; a key
      that is already held, or an auto-repeat, changes nothing. */
  lemma KeyDownEffect(s: InputState, sc: Scancode, sym: Keycode, repeat: bool)
    requires KeyToAction(sc) != ACTION_NONE
    ensures var a, t := KeyToAction(sc), Step(s, KeyDown(sc, sym, repeat));
      if !repeat && a !in Actions(s.down) then
        Actions(t.down) == Actions(s.down) + {a} && Actions(t.pressed) == Actions(s.pressed) + {a} &&
        t.released == s.released && t.mouseX == s.mouseX && t.mouseY == s.mouseY
      else t == s
  {
    var a := KeyToAction(sc);
    SetBitActions(s.down, a);
    SetBitActions(s.pressed, a);
  }

  /** Releasing a mapped key drops it from held and adds it to released. */
  lemma KeyUpEffect(s: InputState, sc: Scancode, sym: Keycode)
    requires KeyToAction(sc) != ACTION_NONE
    ensures var a, t := KeyToAction(sc), Step(s, KeyUp(sc, sym));
      Actions(t.down) == Actions(s.down) - {a} && Actions(t.released) == Actions(s.released) + {a} &&
      t.pressed == s.pressed && t.mouseX == s.mouseX && t.mouseY == s.mouseY
  {
    var a := KeyToAction(sc);
    ClrBitActions(s.down, a);
    SetBitActions(s.released, a);
  }

  /** Keys outside the map change no bit. */
  lemma UnmappedKeyIgnored(s: InputState, code: int, sym: Keycode, repeat: bool)
    ensures Step(s, KeyDown(ScOther(code), sym, repeat)) == s
    ensures Step(s, KeyUp(ScOther(code), sym)) == s
  {
  }

  /** The left button acts as CONFIRM: down sets pressed and held even when
      CONFIRM is already held, up clears held and sets released. */
  lemma LeftMouseEffect(s: InputState)
    ensures var t := Step(s, MouseButtonDown(SDL_BUTTON_LEFT));
      Actions(t.down) == Actions(s.down) + {ACTION_CONFIRM} &&
      Actions(t.pressed) == Actions(s.pressed) + {ACTION_CONFIRM} && t.released == s.released
    ensures var t := Step(s, MouseButtonUp(SDL_BUTTON_LEFT));
      Actions(t.down) == Actions(s.down) - {ACTION_CONFIRM} &&
      Actions(t.released) == Actions(s.released) + {ACTION_CONFIRM} && t.pressed == s.pressed
  {
    SetBitActions(s.down, ACTION_CONFIRM);
    SetBitActions(s.pressed, ACTION_CONFIRM);
    ClrBitActions(s.down, ACTION_CONFIRM);
    SetBitActions(s.released, ACTION_CONFIRM);
  }

  /** Closing the window only sets QUIT as pressed; it is never held. */
  lemma QuitEffect(s: InputState)
    ensures var t := Step(s, QuitEvent);
      Actions(t.pressed) == Actions(s.pressed) + {ACTION_QUIT} &&
      t.down == s.down && t.released == s.released && t.mouseX == s.mouseX && t.mouseY == s.mouseY
  {
    SetBitActions(s.pressed, ACTION_QUIT);
  }

  /** Mouse motion changes only the cursor. */
  lemma MotionEffect(s: InputState, x: int, y: int)
    ensures Step(s, MouseMotion(x, y)) == InputState(s.down, s.pressed, s.released, x, y)
  {
  }

  /** QUIT is never held: no key maps to it and the window-close event only
      sets it as pressed, so a manager that starts with QUIT not held keeps it so. */
  lemma {:induction false} QuitNeverHeld(s: InputState, e: SdlEvent)
    requires ACTION_QUIT !in Actions(s.down)
    ensures ACTION_QUIT !in Actions(Step(s, e).down)
  {
    match e
    case KeyDown(sc, sym, repeat) =>
      if KeyToAction(sc) != ACTION_NONE {
        KeyDownEffect(s, sc, sym, repeat);
      }
    case KeyUp(sc, sym) =>
      if KeyToAction(sc) != ACTION_NONE {
        KeyUpEffect(s, sc, sym);
      }
    case MouseButtonDown(bt) =>
      if bt == SDL_BUTTON_LEFT {
        LeftMouseEffect(s);
      }
    case MouseButtonUp(bt) =>
      if bt == SDL_BUTTON_LEFT {
        LeftMouseEffect(s);
      }
    case MouseMotion(_, _) =>
    case QuitEvent =>
    case OtherEvent =>
  }
}
