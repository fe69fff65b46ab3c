/** src/gui/widgets/button.c: a clickable box with a rendered label. The box
    comes from the label's pixel size; hovering lightens the background. */
module Widgets {
  import opened Handles
  import opened MathUtils

  datatype Rect = Rect(x: int, y: int, w: int, h: int)

  /** `SDL_Color`, channels 0..255. */
  datatype Color = Color(r: int, g: int, b: int, a: int)

  ghost predicate ColorOk(c: Color) {
    0 <= c.r <= 255 && 0 <= c.g <= 255 && 0 <= c.b <= 255 && 0 <= c.a <= 255
  }

  /** A rendered label: the texture handle and its pixel size (`SDL_QueryTexture`). */
  datatype Texture = Texture(handle: Ptr, w: int, h: int)

  /** `Button`. `signal` is the value stored in the `const char *signal`
      field; the menu stores a `MenuSignal` there, so `MENU_SIGNAL_NONE` (0)
      reads as a NULL signal. */
  datatype Button = Button(box: Rect, labelTex: Ptr, signal: int, base: Color, current: Color)

  /** `(Button){0}`. */
  const ZeroButton := Button(Rect(0, 0, 0, 0), Null, 0, Color(0, 0, 0, 0), Color(0, 0, 0, 0))

  /** `button_make`. `rendered` is the outcome of rendering the text and
      creating its texture: without one, the all-zero button. */
  function MakeButton(rendered: Option<Texture>, signal: int, centerX: int, y: int, base: Color): (b: Button)
    ensures rendered.None? ==> b == ZeroButton
    ensures rendered.Some? ==> b.labelTex == rendered.value.handle && b.signal == signal
    ensures rendered.Some? ==> b.base == base && b.current == base
    ensures rendered.Some? ==> var t := rendered.value;
      b.box.w == t.w + 20 && b.box.h == t.h + 20 && b.box.y == y &&
      b.box.x == centerX - CDiv(t.w + 20, 2)
  {
    match rendered
    case None => ZeroButton
    case Some(t) => Button(Rect(centerX - CDiv(t.w + 20, 2), y, t.w + 20, t.h + 20), t.handle, signal, base, base)
  }

  /** The hit test of `button_hover`: inclusive on all four edges. */
  predicate Inside(box: Rect, mx: int, my: int) {
    box.x <= mx <= box.x + box.w && box.y <= my <= box.y + box.h
  }

  /** One channel of the hover colour. */
  function Lighten(c: int): (r: int)
    ensures 0 <= c <= 255 ==> r == if c + 50 <= 255 then c + 50 else 255
  {
    Clamp(c + 50, 0, 255)
  }

  /** `button_hover`: a button without label or signal reports no hover and is
      left as it is; otherwise the result is the inclusive hit test and the
      current RGB becomes the lightened base when hovered and the base when
      not. Alpha is never written. */
  function Hover(b: Button, mx: int, my: int): (r: (bool, Button))
    ensures b.labelTex == Null || b.signal == 0 ==> r == (false, b)
    ensures b.labelTex != Null && b.signal != 0 ==> r.0 == Inside(b.box, mx, my)
    ensures r.1.box == b.box && r.1.labelTex == b.labelTex && r.1.signal == b.signal && r.1.base == b.base
    ensures r.1.current.a == b.current.a
    ensures b.labelTex != Null && b.signal != 0 && r.0 ==>
      r.1.current == Color(Lighten(b.base.r), Lighten(b.base.g), Lighten(b.base.b), b.current.a)
    ensures b.labelTex != Null && b.signal != 0 && !r.0 ==>
      r.1.current == Color(b.base.r, b.base.g, b.base.b, b.current.a)
  {
    if b.labelTex == Null then (false, b)
    else if b.signal == 0 then (false, b)
    else
      var isHover := Inside(b.box, mx, my);
      if isHover then
        (true, b.(current := b.current.(r := Lighten(b.base.r), g := Lighten(b.base.g), b := Lighten(b.base.b))))
      else
        (false, b.(current := b.current.(r := b.base.r, g := b.base.g, b := b.base.b)))
  }

  /** Hovering twice at the same cursor gives the same answer and the same button. */
  lemma HoverIdempotent(b: Button, mx: int, my: int)
    ensures Hover(Hover(b, mx, my).1, mx, my) == Hover(b, mx, my)
  {
  }

  /** Hover keeps every colour channel in range. */
  lemma HoverKeepsColorRange(b: Button, mx: int, my: int)
    requires ColorOk(b.base) && ColorOk(b.current)
    ensures ColorOk(Hover(b, mx, my).1.current)
  {
  }

  /** The box edges themselves count as inside: both corners of a live
      button hit, one pixel past the right edge does not. */
  lemma CornersHit(b: Button)
    requires b.labelTex != Null && b.signal != 0 && b.box.w >= 0 && b.box.h >= 0
    ensures Hover(b, b.box.x, b.box.y).0
    ensures Hover(b, b.box.x + b.box.w, b.box.y + b.box.h).0
    ensures !Hover(b, b.box.x + b.box.w + 1, b.box.y).0
  {
  }
}
