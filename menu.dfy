/** src/gui/menu/menu.c and src/gui/menu/menu_items.c: the title menu, a list
    of buttons rebuilt per screen, the last clicked signal, and an optional event
    bus that hears every click. The two files call each other, so they share
    one module. */
module MenuUi {
  import opened Handles
  import opened MathUtils
  import opened Widgets
  import opened Input
  import EB = EventBus

  /** `MenuSignal` (event_signals.h). */
  const MENU_SIGNAL_NONE: int := 0
  const MENU_SIGNAL_GOTO_CONTINUE: int := 1
  const MENU_SIGNAL_GOTO_NEW_GAME: int := 2
  const MENU_SIGNAL_GOTO_OPTIONS: int := 3
  const MENU_SIGNAL_GOTO_QUIT: int := 4
  const MENU_SIGNAL_GOTO_MAIN: int := 5

  /** Base colour of every menu button. */
  const GREY := Color(100, 100, 100, 255)

  /** Channel the menu announces clicks on. */
  const MENU_CHANNEL := "menu_signals"

  /** The text renderer behind `button_make`: the texture each label renders
      to with the menu's font, or none when rendering fails. */
  type LabelRenderer = string -> Option<Texture>

  /** The placeholder label, cut to the 63 characters `txt[64]` holds
      (one byte per character; `Utf8Size` below counts the real bytes). */
  function PlaceholderLabel(title: string): (r: string)
    ensures |r| <= 63 && |r| <= |"< " + title + " – [Back] >"| && r == ("< " + title + " – [Back] >")[..|r|]
    ensures |title| <= 50 ==> r == "< " + title + " – [Back] >"
  {
    Truncate("< " + title + " – [Back] >", 63)
  }

  /** The number of bytes `s` takes in UTF-8, the encoding of the source's
      string literals. */
  function Utf8Size(s: string): (n: nat)
    ensures n >= |s|
  {
    if s == [] then 0
    else
      var c := s[0] as int;
      (if c < 0x80 then 1 else if c < 0x800 then 2 else if c < 0x10000 then 3 else 4) + Utf8Size(s[1..])
  }

  lemma {:induction false} Utf8SizeAppend(a: string, b: string)
    ensures Utf8Size(a + b) == Utf8Size(a) + Utf8Size(b)
  {
    if a == [] {
      assert a + b == b;
    } else {
      assert (a + b)[0] == a[0] && (a + b)[1..] == a[1..] + b;
      Utf8SizeAppend(a[1..], b);
    }
  }

  /** The fixed parts of the placeholder label: 2 bytes before the title,
      13 after it, of which the en dash takes 3. */
  lemma HeadSize()
    ensures Utf8Size("< ") == 2
  {
  }

  lemma LabelTailSize()
    ensures Utf8Size(" – [Back] >") == 13
  {
    assert " – [Back] >" == " –" + " [Back] >";
    Utf8SizeAppend(" –", " [Back] >");
    DashSize();
    TailSize();
  }

  lemma DashSize()
    ensures Utf8Size(" –") == 4
  {
  }

  lemma TailSize()
    ensures Utf8Size(" [Back] >") == 9
  {
    AsciiSize(" [Back] >");
  }

  /** A title of at most 48 bytes gives a label of at most 63 bytes: the
      fixed text takes 15, the en dash 3 of them. So `snprintf` through
      `txt[64]` cuts nothing, and the label is the whole text. */
  lemma PlaceholderFits(title: string)
    requires Utf8Size(title) <= 48
    ensures PlaceholderLabel(title) == "< " + title + " – [Back] >"
    ensures Utf8Size(PlaceholderLabel(title)) == Utf8Size(title) + 15 <= 63
  {
    HeadSize();
    LabelTailSize();
    Utf8SizeAppend("< ", title);
    Utf8SizeAppend("< " + title, " – [Back] >");
  }

  /** ASCII text takes one byte per character. */
  lemma {:induction false} AsciiSize(s: string)
    requires forall i :: 0 <= i < |s| ==> s[i] as int < 0x80
    ensures Utf8Size(s) == |s|
  {
    if s != [] {
      AsciiSize(s[1..]);
    }
  }

  /** The three placeholder titles of `menu_build_from_signal` all fit. */
  lemma PlaceholderTitlesFit(title: string)
    requires title == "Continue Game" || title == "New Game" || title == "Options"
    ensures Utf8Size(title) <= 48
  {
    AsciiSize(title);
  }

  /** The hovering pass of `menu_handle_input` over all buttons. */
  function HoverAll(bs: seq<Button>, mx: int, my: int): (r: seq<Button>)
    ensures |r| == |bs| && forall i :: 0 <= i < |bs| ==> r[i] == Hover(bs[i], mx, my).1
  {
    seq(|bs|, i requires 0 <= i < |bs| => Hover(bs[i], mx, my).1)
  }

  /** Index of the first button that `button_hover` reports under the cursor,
      or `|bs|`. */
  function FirstHit(bs: seq<Button>, mx: int, my: int): (k: nat)
    ensures k <= |bs|
    ensures forall j :: 0 <= j < k ==> !Hover(bs[j], mx, my).0
    ensures k < |bs| ==> Hover(bs[k], mx, my).0
  {
    FirstIndex(bs, (b: Button) => Hover(b, mx, my).0)
  }

  /** The signal a frame clicks: with CONFIRM pressed, that of the
      lowest-index button under the cursor; none without CONFIRM or without a
      button there. A click never carries NONE, since such a button never
      hovers. */
  function Clicked(bs: seq<Button>, mx: int, my: int, confirm: bool): (r: Option<int>)
    ensures r.Some? <==> confirm && FirstHit(bs, mx, my) < |bs|
    ensures r.Some? ==> r.value == bs[FirstHit(bs, mx, my)].signal && r.value != MENU_SIGNAL_NONE
  {
    var k := FirstHit(bs, mx, my);
    if confirm && k < |bs| then Some(bs[k].signal) else None
  }

  /** `Menu`. Size, offsets and renderer are fixed at creation. */
  class Menu {
    const winW: int
    const winH: int
    const offX: int
    const offY: int
    const render: LabelRenderer
    var buttons: seq<Button>
    var lastSignal: int
    var eventBus: EB.Bus?
    var audioManager: object?

    /** The button `menu_add_button(m, label, signal, y)` appends: centred on
        the window and placed at `y + off_y` clamped into [0, win_h - 90]. */
    function NewButton(text: string, signal: int, y: int): Button {
      MakeButton(render(text), signal, CDiv(winW, 2), Clamp(y + offY, 0, winH - 90), GREY)
    }

    /** `menu_build_main`'s screen. */
    function MainScreen(): seq<Button> {
      [NewButton("Continue", MENU_SIGNAL_GOTO_CONTINUE, 200),
       NewButton("New Game", MENU_SIGNAL_GOTO_NEW_GAME, 260),
       NewButton("Options", MENU_SIGNAL_GOTO_OPTIONS, 320),
       NewButton("Quit", MENU_SIGNAL_GOTO_QUIT, 380)]
    }

    /** `menu_build_placeholder`'s screen: one "back" button near the bottom. */
    function PlaceholderScreen(title: string): seq<Button> {
      [NewButton(PlaceholderLabel(title), MENU_SIGNAL_GOTO_MAIN, winH - 100)]
    }

    /** `menu_build_continue`'s screen; `(int)(win_h * 0.2)` equals the
        truncating `win_h / 5` for every 32-bit `win_h`. */
    function ContinueScreen(): seq<Button> {
      var baseY := CDiv(winH, 5);
      [NewButton("Save 1 (DEMO)", MENU_SIGNAL_NONE, baseY),
       NewButton("Back", MENU_SIGNAL_GOTO_MAIN, baseY + 70)]
    }

    /** The buttons after `menu_build_from_signal(m, signal)` from `current`. */
    function ScreenFor(signal: int, current: seq<Button>): seq<Button> {
      if signal == MENU_SIGNAL_GOTO_CONTINUE then PlaceholderScreen("Continue Game")
      else if signal == MENU_SIGNAL_GOTO_NEW_GAME then PlaceholderScreen("New Game")
      else if signal == MENU_SIGNAL_GOTO_OPTIONS then PlaceholderScreen("Options")
      else if signal == MENU_SIGNAL_GOTO_MAIN then MainScreen()
      else current
    }

    /** The field set-up of `menu_create`: no offset across, a title offset of
        a fifth of the height, no signal, no bus (`calloc`), the main screen.
        Fonts, title and background textures are not modelled. */
    constructor (w: int, h: int, render: LabelRenderer, audioManager: object?)
      ensures winW == w && winH == h && offX == 0 && offY == CDiv(h, 5) && this.render == render
      ensures lastSignal == MENU_SIGNAL_NONE && eventBus == null && this.audioManager == audioManager
      ensures buttons == MainScreen()
    {
      winW, winH, offX, offY := w, h, 0, CDiv(h, 5);
      this.render := render;
      this.audioManager := audioManager;
      lastSignal := MENU_SIGNAL_NONE;
      eventBus := null;
      new;
      BuildMain();
    }

    /** `menu_clear_buttons`. */
    method ClearButtons()
      modifies this
      ensures buttons == [] && lastSignal == old(lastSignal)
      ensures eventBus == old(eventBus) && audioManager == old(audioManager)
    {
      buttons := [];
    }

    /** `menu_add_button`: exactly one more button, at the end. */
    method AddButton(text: string, signal: int, y: int)
      modifies this
      ensures buttons == old(buttons) + [NewButton(text, signal, y)]
      ensures lastSignal == old(lastSignal) && eventBus == old(eventBus) && audioManager == old(audioManager)
    {
      var realY := Clamp(y + offY, 0, winH - 90);
      buttons := buttons + [MakeButton(render(text), signal, CDiv(winW, 2), realY, GREY)];
    }

    /** `menu_build_placeholder`. */
    method BuildPlaceholder(title: string)
      modifies this
      ensures buttons == PlaceholderScreen(title)
      ensures lastSignal == old(lastSignal) && eventBus == old(eventBus) && audioManager == old(audioManager)
    {
      ClearButtons();
      AddButton(PlaceholderLabel(title), MENU_SIGNAL_GOTO_MAIN, winH - 100);
    }

    /** `menu_build_main`. */
    method BuildMain()
      modifies this
      ensures buttons == MainScreen()
      ensures lastSignal == old(lastSignal) && eventBus == old(eventBus) && audioManager == old(audioManager)
    {
      ClearButtons();
      AddButton("Continue", MENU_SIGNAL_GOTO_CONTINUE, 200);
      AddButton("New Game", MENU_SIGNAL_GOTO_NEW_GAME, 260);
      AddButton("Options", MENU_SIGNAL_GOTO_OPTIONS, 320);
      AddButton("Quit", MENU_SIGNAL_GOTO_QUIT, 380);
    }

    /** `menu_build_continue`. */
    method BuildContinue()
      modifies this
      ensures buttons == ContinueScreen()
      ensures lastSignal == old(lastSignal) && eventBus == old(eventBus) && audioManager == old(audioManager)
    {
      ClearButtons();
      var baseY := CDiv(winH, 5);
      var spacing := 70;
      AddButton("Save 1 (DEMO)", MENU_SIGNAL_NONE, baseY);
      AddButton("Back", MENU_SIGNAL_GOTO_MAIN, baseY + spacing);
    }

    /** `menu_build_from_signal`. */
    method BuildFromSignal(signal: int)
      modifies this
      ensures buttons == ScreenFor(signal, old(buttons))
      ensures lastSignal == old(lastSignal) && eventBus == old(eventBus) && audioManager == old(audioManager)
    {
      if signal == MENU_SIGNAL_GOTO_CONTINUE {
        BuildPlaceholder("Continue Game");
      } else if signal == MENU_SIGNAL_GOTO_NEW_GAME {
        BuildPlaceholder("New Game");
      } else if signal == MENU_SIGNAL_GOTO_OPTIONS {
        BuildPlaceholder("Options");
      } else if signal == MENU_SIGNAL_GOTO_MAIN {
        BuildMain();
      }
    }

    /** `menu_set_event_bus`. */
    method SetEventBus(bus: EB.Bus?)
      modifies this
      ensures eventBus == bus && buttons == old(buttons) && lastSignal == old(lastSignal)
      ensures audioManager == old(audioManager)
    {
      eventBus := bus;
    }

    /** `menu_get_last_signal`: reads without resetting. */
    function GetLastSignal(): (s: int)
      reads this
      ensures s == lastSignal
    {
      lastSignal
    }

    /** `menu_pop_signal`: returns the last signal and resets it to NONE, so a
        second pop returns NONE. */
    method PopSignal() returns (s: int)
      modifies this
      ensures s == old(lastSignal) && lastSignal == MENU_SIGNAL_NONE
      ensures buttons == old(buttons) && eventBus == old(eventBus) && audioManager == old(audioManager)
    {
      s := lastSignal;
      lastSignal := MENU_SIGNAL_NONE;
    }

    /** The buttons after one `menu_handle_input` from `bs`: every button is
        hovered at the cursor, and a click rebuilds the screen from its signal. */
    function AfterInput(bs: seq<Button>, mx: int, my: int, confirm: bool): seq<Button> {
      var hb := HoverAll(bs, mx, my);
      match Clicked(bs, mx, my, confirm)
      case Some(sig) => ScreenFor(sig, hb)
      case None => hb
    }

    /** `menu_handle_input`: every button is hovered at the cursor; a click
        (see `Clicked`) becomes the last signal, sends one SIGNAL event carrying
        it to "menu_signals" when a bus is set, and rebuilds the screen.
        Without a click only the hover colours change. Returns the listener
        calls of that emission. */
    method HandleInput(im: InputManager) returns (calls: seq<EB.Invocation>)
      requires eventBus != null ==> eventBus.Valid()
      modifies this
      ensures eventBus == old(eventBus) && audioManager == old(audioManager)
      ensures var c := Clicked(old(buttons), im.mouseX, im.mouseY, im.Pressed(ACTION_CONFIRM) == 1);
        buttons == AfterInput(old(buttons), im.mouseX, im.mouseY, im.Pressed(ACTION_CONFIRM) == 1) &&
        lastSignal == (if c.Some? then c.value else old(lastSignal)) &&
        calls == (if c.None? || eventBus == null then []
                  else EB.Invocations(eventBus.ListenersOf(MENU_CHANNEL),
                                      EB.Event(EB.EVENT_TYPE_SIGNAL, EB.SignalCell(c.value))))
    {
      var (mx, my) := im.MousePos();
      ghost var bs := buttons;
      HoverButtons(mx, my);
      calls := [];
      var confirm := im.Pressed(ACTION_CONFIRM) == 1;
      if confirm {
        var k := FindHit(bs, mx, my);
        if k < |buttons| {
          var signal := buttons[k].signal;
          assert Clicked(bs, mx, my, confirm) == Some(signal);
          calls := Click(signal);
        }
      }
    }

    /** The click branch of `menu_handle_input`: records the signal, sends it
        when a bus is set and rebuilds the screen from it. */
    method Click(signal: int) returns (calls: seq<EB.Invocation>)
      requires eventBus != null ==> eventBus.Valid()
      modifies this
      ensures eventBus == old(eventBus) && audioManager == old(audioManager)
      ensures lastSignal == signal && buttons == ScreenFor(signal, old(buttons))
      ensures calls == (if eventBus == null then []
                        else EB.Invocations(eventBus.ListenersOf(MENU_CHANNEL),
                                            EB.Event(EB.EVENT_TYPE_SIGNAL, EB.SignalCell(signal))))
    {
      lastSignal := signal;
      calls := [];
      if eventBus != null {
        calls := eventBus.Emit(MENU_CHANNEL, EB.Event(EB.EVENT_TYPE_SIGNAL, EB.SignalCell(signal)));
      }
      BuildFromSignal(signal);
    }

    /** The hovering loop of `menu_handle_input`. */
    method HoverButtons(mx: int, my: int)
      modifies this
      ensures buttons == HoverAll(old(buttons), mx, my)
      ensures eventBus == old(eventBus) && audioManager == old(audioManager) && lastSignal == old(lastSignal)
    {
      ghost var bs := buttons;
      var i := 0;
      while i < |buttons|
        invariant i <= |buttons| == |bs|
        invariant forall j :: 0 <= j < i ==> buttons[j] == Hover(bs[j], mx, my).1
        invariant forall j :: i <= j < |bs| ==> buttons[j] == bs[j]
        invariant eventBus == old(eventBus) && audioManager == old(audioManager) && lastSignal == old(lastSignal)
      {
        var (_, b) := Hover(buttons[i], mx, my);
        buttons := buttons[i := b];
        i := i + 1;
      }
    }

    /** The clicking loop of `menu_handle_input`: hovers the buttons again in
        order up to the first one under the cursor and returns its index, or
        the count when there is none. Hovering is idempotent, so the buttons
        stay as the first loop left them. */
    method FindHit(ghost bs: seq<Button>, mx: int, my: int) returns (k: nat)
      requires buttons == HoverAll(bs, mx, my)
      modifies this
      ensures k == FirstHit(bs, mx, my) && buttons == old(buttons)
      ensures eventBus == old(eventBus) && audioManager == old(audioManager) && lastSignal == old(lastSignal)
    {
      k := 0;
      while k < |buttons|
        invariant k <= |buttons| == |bs| && buttons == old(buttons)
        invariant forall j :: 0 <= j < k ==> !Hover(bs[j], mx, my).0
        invariant eventBus == old(eventBus) && audioManager == old(audioManager) && lastSignal == old(lastSignal)
      {
        HoverIdempotent(bs[k], mx, my);
        var (hit, b) := Hover(buttons[k], mx, my);
        buttons := buttons[k := b];
        if hit {
          return;
        }
        k := k + 1;
      }
    }
  }

  // ---- what the screens contain -------------------------------------------

  /** Every rendered menu button sits at its requested height plus the title
      offset, clamped into [0, win_h - 90], and is centred on the window. */
  lemma NewButtonPlacement(m: Menu, text: string, signal: int, y: int)
    requires m.render(text).Some? && m.winH >= 90
    ensures var b := m.NewButton(text, signal, y);
      b.box.y == Clamp(y + m.offY, 0, m.winH - 90) && 0 <= b.box.y <= m.winH - 90 &&
      b.box.x == CDiv(m.winW, 2) - CDiv(b.box.w, 2) && b.signal == signal && b.base == GREY
  {
    ClampInRange(y + m.offY, 0, m.winH - 90);
  }

  /** The main screen: four buttons; when their labels render, they signal
      CONTINUE, NEW_GAME, OPTIONS and QUIT from the requested heights 200, 260,
      320 and 380. */
  lemma MainScreenShape(m: Menu)
    ensures |m.MainScreen()| == 4
    ensures (forall l :: l in ["Continue", "New Game", "Options", "Quit"] ==> m.render(l).Some?) ==>
      var s := m.MainScreen();
      s[0].signal == MENU_SIGNAL_GOTO_CONTINUE && s[1].signal == MENU_SIGNAL_GOTO_NEW_GAME &&
      s[2].signal == MENU_SIGNAL_GOTO_OPTIONS && s[3].signal == MENU_SIGNAL_GOTO_QUIT &&
      s[0].box.y == Clamp(200 + m.offY, 0, m.winH - 90) && s[1].box.y == Clamp(260 + m.offY, 0, m.winH - 90) &&
      s[2].box.y == Clamp(320 + m.offY, 0, m.winH - 90) && s[3].box.y == Clamp(380 + m.offY, 0, m.winH - 90)
  {
    var ls := ["Continue", "New Game", "Options", "Quit"];
    assert ls[0] in ls && ls[1] in ls && ls[2] in ls && ls[3] in ls;
  }

  /** The placeholder screen: one button back to the main screen, requested at
      `win_h - 100`. */
  lemma PlaceholderShape(m: Menu, title: string)
    ensures |m.PlaceholderScreen(title)| == 1
    ensures m.render(PlaceholderLabel(title)).Some? ==>
      m.PlaceholderScreen(title)[0].signal == MENU_SIGNAL_GOTO_MAIN &&
      m.PlaceholderScreen(title)[0].box.y == Clamp(m.winH - 100 + m.offY, 0, m.winH - 90)
  {
  }

  /** The continue screen: a NONE button (which never hovers, so it can never
      be clicked) and a GOTO_MAIN button requested 70 pixels lower. */
  lemma ContinueShape(m: Menu, mx: int, my: int)
    ensures |m.ContinueScreen()| == 2
    ensures m.ContinueScreen()[0].signal == MENU_SIGNAL_NONE
    ensures !Hover(m.ContinueScreen()[0], mx, my).0
    ensures m.render("Back").Some? ==>
      m.ContinueScreen()[1].signal == MENU_SIGNAL_GOTO_MAIN &&
      m.ContinueScreen()[1].box.y == Clamp(CDiv(m.winH, 5) + 70 + m.offY, 0, m.winH - 90)
  {
  }

  /** CONTINUE, NEW_GAME and OPTIONS lead to a placeholder, GOTO_MAIN to the
      main screen; QUIT, NONE and anything else keep the current buttons. */
  lemma ScreenForMapping(m: Menu, current: seq<Button>, signal: int)
    ensures signal == MENU_SIGNAL_GOTO_CONTINUE ==> m.ScreenFor(signal, current) == m.PlaceholderScreen("Continue Game")
    ensures signal == MENU_SIGNAL_GOTO_NEW_GAME ==> m.ScreenFor(signal, current) == m.PlaceholderScreen("New Game")
    ensures signal == MENU_SIGNAL_GOTO_OPTIONS ==> m.ScreenFor(signal, current) == m.PlaceholderScreen("Options")
    ensures signal == MENU_SIGNAL_GOTO_MAIN ==> m.ScreenFor(signal, current) == m.MainScreen()
    ensures !(MENU_SIGNAL_GOTO_CONTINUE <= signal <= MENU_SIGNAL_GOTO_OPTIONS) && signal != MENU_SIGNAL_GOTO_MAIN ==>
      m.ScreenFor(signal, current) == current
  {
  }
}
