// Buttons: ButtonPrimitive (a text box whose background follows hover and
// press), and the two pointers that drive it each frame, UIButtonPrimitive
// (hit test against its UITransform box, y measured from the bottom) and
// WorldButtonPrimitive (hit test against the screen box of its projected
// corners). The per-frame transitions are the same for both and are
// specified once, by StepFrame.
//
// The callback is a handler identity: triggerClick reports which handler
// it would invoke. Mouse and window state are parameters.

module Buttons {
  import opened Common
  import opened Fonts
  import opened Factories
  import opened Primitives
  import opened TextLayout
  import opened TextPrimitives
  import opened TextBoxes
  import opened Transforms
  import opened Input

  /** darken: r, g and b scaled by f; alpha kept. */
  function Darken(c: Color, f: real): (d: Color)
    ensures d.a == c.a
  {
    Color(c.r * f, c.g * f, c.b * f, c.a)
  }

  /** A channel in [0, 1] stays in [0, 1] and does not grow when darkened by a factor in [0, 1]. */
  predicate UnitChannel(v: real)
  {
    0.0 <= v <= 1.0
  }

  predicate UnitColor(c: Color)
  {
    UnitChannel(c.r) && UnitChannel(c.g) && UnitChannel(c.b) && UnitChannel(c.a)
  }

  lemma ScaleBelow(v: real, f: real)
    requires UnitChannel(v) && 0.0 <= f <= 1.0
    ensures 0.0 <= v * f <= v
  {
  }

  /** Hover and pressed colours of a colour in [0, 1]: still colours, each no brighter than the last. */
  lemma DarkenOrder(c: Color)
    requires UnitColor(c)
    ensures UnitColor(Darken(c, 0.9)) && UnitColor(Darken(c, 0.75))
    ensures Darken(c, 0.75).r <= Darken(c, 0.9).r <= c.r
    ensures Darken(c, 0.75).g <= Darken(c, 0.9).g <= c.g
    ensures Darken(c, 0.75).b <= Darken(c, 0.9).b <= c.b
  {
    ScaleBelow(c.r, 0.9);
    ScaleBelow(c.g, 0.9);
    ScaleBelow(c.b, 0.9);
  }

  /** The hover colour of a base colour. */
  function HoverOf(c: Color): Color
  {
    Darken(c, 0.9)
  }

  /** The pressed colour of a base colour. */
  function PressedOf(c: Color): Color
  {
    Darken(c, 0.75)
  }

  // ------------------------------------------------------------ per frame

  /** isHover and isPressed. */
  datatype Pointer = Pointer(hover: bool, pressed: bool)

  const AtRest: Pointer := Pointer(false, false)

  /**
   * What one draw does: the new state, whether the click fires, and the
   * hover and pressed visual calls made (None for no call), in that order.
   */
  datatype Frame = Frame(next: Pointer, clicked: bool, hoverVisual: Option<bool>, pressedVisual: Option<bool>)

  /**
   * The transitions of one draw: the hover follows `inside`, announced on
   * a change only; a press inside is announced on its first frame; any
   * other frame ends a press, firing the click when the cursor is inside.
   */
  function StepFrame(s: Pointer, inside: bool, leftDown: bool): (f: Frame)
    ensures f.next.hover == inside
    ensures f.hoverVisual.Some? <==> s.hover != inside
    ensures f.hoverVisual.Some? ==> f.hoverVisual.value == inside
    ensures f.next.pressed <==> leftDown && inside
    ensures f.clicked <==> s.pressed && inside && !leftDown
    ensures f.pressedVisual.Some? <==> s.pressed != f.next.pressed
    ensures f.pressedVisual.Some? ==> f.pressedVisual.value == f.next.pressed
  {
    var hv := if inside && !s.hover then Some(true) else if !inside && s.hover then Some(false) else None;
    if leftDown && inside then
      if !s.pressed then Frame(Pointer(inside, true), false, hv, Some(true))
      else Frame(Pointer(inside, true), false, hv, None)
    else if s.pressed then Frame(Pointer(inside, false), inside, hv, Some(false))
    else Frame(Pointer(inside, false), false, hv, None)
  }

  /**
   * The background after a frame's visual calls: each call sets it, the
   * later one winning; with no call it stays.
   */
  function BackgroundAfter(current: Color, base: Color, f: Frame): Color
  {
    if f.pressedVisual.Some? then (if f.pressedVisual.value then PressedOf(base) else base)
    else if f.hoverVisual.Some? then (if f.hoverVisual.value then HoverOf(base) else base)
    else current
  }

  /** Held and dragged out: no click, and the press is over. */
  lemma DragOutCancels(s: Pointer)
    requires s.pressed
    ensures var f := StepFrame(s, false, true); !f.clicked && !f.next.pressed
  {
  }

  /**
   * A click released over the button leaves the base colour showing, not
   * the hover colour, although the cursor is still over it.
   */
  lemma ClickShowsBase(s: Pointer, current: Color, base: Color)
    requires s.pressed && s.hover
    ensures var f := StepFrame(s, true, false);
            f.clicked && f.next.hover && BackgroundAfter(current, base, f) == base
  {
  }

  /** A frame that presses shows the pressed colour. */
  lemma PressShowsPressed(s: Pointer, current: Color, base: Color)
    requires !s.pressed
    ensures BackgroundAfter(current, base, StepFrame(s, true, true)) == PressedOf(base)
  {
  }

  /** The mouse as one frame sees it. */
  datatype FrameInput = FrameInput(inside: bool, leftDown: bool)

  function FinalPointer(s: Pointer, frames: seq<FrameInput>): Pointer
    decreases |frames|
  {
    if frames == [] then s else FinalPointer(StepFrame(s, frames[0].inside, frames[0].leftDown).next, frames[1..])
  }

  /** The clicks fired over a run of frames. */
  function Clicks(s: Pointer, frames: seq<FrameInput>): nat
    decreases |frames|
  {
    if frames == [] then 0
    else
      var f := StepFrame(s, frames[0].inside, frames[0].leftDown);
      (if f.clicked then 1 else 0) + Clicks(f.next, frames[1..])
  }

  /** The frames of a run that start a press. */
  function Presses(s: Pointer, frames: seq<FrameInput>): nat
    decreases |frames|
  {
    if frames == [] then 0
    else
      var f := StepFrame(s, frames[0].inside, frames[0].leftDown);
      (if f.next.pressed && !s.pressed then 1 else 0) + Presses(f.next, frames[1..])
  }

  function Held(p: Pointer): nat
  {
    if p.pressed then 1 else 0
  }

  /** Every click ends a press: clicks plus a press still held never exceed presses plus the one held at the start. */
  lemma {:induction false} ClicksNeedPresses(s: Pointer, frames: seq<FrameInput>)
    ensures Clicks(s, frames) + Held(FinalPointer(s, frames)) <= Presses(s, frames) + Held(s)
    decreases |frames|
  {
    if frames != [] {
      var f := StepFrame(s, frames[0].inside, frames[0].leftDown);
      ClicksNeedPresses(f.next, frames[1..]);
    }
  }

  /** From rest, a run of frames clicks at most as often as it presses. */
  lemma ClicksAtMostPresses(frames: seq<FrameInput>)
    ensures Clicks(AtRest, frames) <= Presses(AtRest, frames)
  {
    ClicksNeedPresses(AtRest, frames);
  }

  /** Not pressed, and never pressed inside again: no click. */
  lemma {:induction false} NoPressNoClick(s: Pointer, frames: seq<FrameInput>)
    requires !s.pressed
    requires forall k :: 0 <= k < |frames| ==> !(frames[k].inside && frames[k].leftDown)
    ensures Clicks(s, frames) == 0
    decreases |frames|
  {
    if frames != [] {
      var f := StepFrame(s, frames[0].inside, frames[0].leftDown);
      assert forall k :: 0 <= k < |frames[1..]| ==> frames[1..][k] == frames[k + 1];
      NoPressNoClick(f.next, frames[1..]);
    }
  }

  /** Dragged out while held, then released anywhere without pressing inside again: no click. */
  lemma DragOutNeverClicks(s: Pointer, frames: seq<FrameInput>)
    requires s.pressed && |frames| >= 1 && frames[0] == FrameInput(false, true)
    requires forall k :: 0 <= k < |frames| ==> !(frames[k].inside && frames[k].leftDown)
    ensures Clicks(s, frames) == 0
  {
    var f := StepFrame(s, false, true);
    assert forall k :: 0 <= k < |frames[1..]| ==> frames[1..][k] == frames[k + 1];
    NoPressNoClick(f.next, frames[1..]);
  }

  // --------------------------------------------------------- ButtonPrimitive

  /** ButtonPrimitive: a text box, a callback and the three background colours. */
  class Button {
    const box: TextBox
    /** The handler setCallback stored, None for an empty std::function. */
    var callback: Option<nat>
    var baseBackground: Color
    var hoverBackground: Color
    var pressedBackground: Color

    /** The hover and pressed colours derive from the base, and the box shows one of the three. */
    ghost predicate Valid()
      reads this, box, box.base, box.background, box.background.base, box.text, box.text.base
    {
      box.Valid()
      && hoverBackground == HoverOf(baseBackground) && pressedBackground == PressedOf(baseBackground)
      && box.config.backgroundColor in {baseBackground, hoverBackground, pressedBackground}
    }

    /** The content-sized button: a content-sized text box at (0, 0). */
    constructor Content(fm: FontManager, src: FontSource, t: string, path: string, size: real, cfg: TextBoxConfig, tr: Trig)
      requires fm.Valid() && WellFormedSource(src)
      modifies fm
      ensures Valid() && fm.Valid() && callback == None
      ensures fresh(box) && fresh(box.base) && fresh(box.background) && fresh(box.background.base)
      ensures fresh(box.text) && fresh(box.text.base)
      ensures box.x == 0.0 && box.y == 0.0 && box.config == cfg.(autoSizeToContent := true) && box.text.text == t
      ensures baseBackground == cfg.backgroundColor && box.config.backgroundColor == baseBackground
    {
      box := new TextBox.Content(fm, src, t, 0.0, 0.0, path, size, cfg, tr);
      callback := None;
      baseBackground := cfg.backgroundColor;
      hoverBackground := HoverOf(cfg.backgroundColor);
      pressedBackground := PressedOf(cfg.backgroundColor);
    }

    /** The sized button: a fixed text box. */
    constructor Sized(fm: FontManager, src: FontSource, t: string, x: real, y: real, w: real, h: real,
                      path: string, size: real, cfg: TextBoxConfig, tr: Trig)
      requires fm.Valid() && WellFormedSource(src)
      modifies fm
      ensures Valid() && fm.Valid() && callback == None
      ensures fresh(box) && fresh(box.base) && fresh(box.background) && fresh(box.background.base)
      ensures fresh(box.text) && fresh(box.text.base)
      ensures box.x == x && box.y == y && box.width == w && box.height == h && box.config == cfg
      ensures box.text.text == t && box.fontSize == size
      ensures baseBackground == cfg.backgroundColor && box.config.backgroundColor == baseBackground
    {
      box := new TextBox.Fixed(fm, src, t, x, y, w, h, path, size, cfg, tr);
      callback := None;
      baseBackground := cfg.backgroundColor;
      hoverBackground := HoverOf(cfg.backgroundColor);
      pressedBackground := PressedOf(cfg.backgroundColor);
    }

    method Draw(projection: Mat4, view: Mat4) returns (calls: seq<Option<DrawCall>>)
      requires Valid()
      modifies box.background, box.background.base, box.text, box.text.base
      ensures Valid() && |calls| == 2
    {
      calls := box.Draw(projection, view);
    }

    method SetText(t: string)
      requires Valid()
      modifies box, box.background, box.text
      ensures Valid() && box.text.text == t && box.config == old(box.config)
      ensures box.x == old(box.x) && box.y == old(box.y)
    {
      box.SetText(t);
    }

    function GetText(): string
      reads this, box, box.text
    {
      box.text.text
    }

    /** setBackgroundColor: a new base, hover and pressed colour; the box shows the base. */
    method SetBackgroundColor(c: Color)
      requires Valid()
      modifies this, box, box.background.base
      ensures Valid() && callback == old(callback)
      ensures baseBackground == c && hoverBackground == HoverOf(c) && pressedBackground == PressedOf(c)
      ensures box.config.backgroundColor == c
    {
      baseBackground := c;
      hoverBackground := HoverOf(c);
      pressedBackground := PressedOf(c);
      box.SetBackgroundColor(c);
    }

    method SetTextColor(c: Color)
      requires Valid()
      modifies box, box.text, box.text.base
      ensures Valid() && box.config.textColor == c
    {
      box.SetTextColor(c);
    }

    method SetPadding(left: real, right: real, top: real, bottom: real)
      requires Valid()
      modifies box, box.background, box.text
      ensures Valid()
      ensures box.config == old(box.config).(paddingLeft := left, paddingRight := right, paddingTop := top, paddingBottom := bottom)
    {
      box.SetPadding(left, right, top, bottom);
    }

    /** setCallback: replaces the handler. */
    method SetCallback(cb: Option<nat>)
      modifies this
      ensures callback == cb
      ensures baseBackground == old(baseBackground) && hoverBackground == old(hoverBackground)
      ensures pressedBackground == old(pressedBackground)
    {
      callback := cb;
    }

    /** triggerClick: the handler invoked, if one is set. */
    method TriggerClick() returns (invoked: Option<nat>)
      ensures invoked == callback
    {
      invoked := callback;
    }

    /** getX, getY, getWidth and getHeight: the box's position and size. */
    method GetBounds() returns (x: real, y: real, w: real, h: real)
      requires Valid()
      ensures x == box.x && y == box.y && w == box.width && h == box.height
    {
      x, y, w, h := box.x, box.y, box.width, box.height;
    }

    method SetPosition(x: real, y: real)
      requires Valid()
      modifies box, box.background, box.text
      ensures Valid() && box.x == x && box.y == y && box.width == old(box.width) && box.height == old(box.height)
      ensures box.config == old(box.config)
    {
      box.SetPosition(x, y);
    }

    method SetSize(w: real, h: real)
      requires Valid()
      modifies box, box.background, box.text
      ensures Valid() && box.width == w && box.height == h && box.x == old(box.x) && box.y == old(box.y)
      ensures box.config == old(box.config)
    {
      box.SetSize(w, h);
    }

    method SetTransform(m: Mat4)
      requires Valid()
      modifies box.base, box.background.base, box.text.base
      ensures Valid()
      ensures box.base.transformOverride == m && box.background.base.transformOverride == m
      ensures box.text.base.transformOverride == m
    {
      box.SetTransform(m);
    }

    /** setHoverVisual: the hover colour when on, the base colour when off. */
    method SetHoverVisual(hover: bool)
      requires Valid()
      modifies box, box.background.base
      ensures Valid() && box.config.backgroundColor == (if hover then hoverBackground else baseBackground)
      ensures box.x == old(box.x) && box.y == old(box.y) && box.width == old(box.width) && box.height == old(box.height)
    {
      box.SetBackgroundColor(if hover then hoverBackground else baseBackground);
    }

    /** setPressedVisual: the pressed colour when on, the base colour when off. */
    method SetPressedVisual(pressed: bool)
      requires Valid()
      modifies box, box.background.base
      ensures Valid() && box.config.backgroundColor == (if pressed then pressedBackground else baseBackground)
      ensures box.x == old(box.x) && box.y == old(box.y) && box.width == old(box.width) && box.height == old(box.height)
    {
      box.SetBackgroundColor(if pressed then pressedBackground else baseBackground);
    }
  }

  /**
   * One draw's transitions applied to a button, in the source's order:
   * the hover visual, then the press, or the release with its click.
   * Reports the frame and the handler the click invoked.
   */
  method ApplyFrame(b: Button, s: Pointer, inside: bool, leftDown: bool) returns (f: Frame, fired: Option<nat>)
    requires b.Valid()
    modifies b.box, b.box.background.base
    ensures b.Valid() && f == StepFrame(s, inside, leftDown)
    ensures fired == (if f.clicked then b.callback else None)
    ensures b.box.config.backgroundColor == BackgroundAfter(old(b.box.config.backgroundColor), b.baseBackground, f)
    ensures b.box.x == old(b.box.x) && b.box.y == old(b.box.y)
    ensures b.box.width == old(b.box.width) && b.box.height == old(b.box.height)
  {
    var hover, pressed := s.hover, s.pressed;
    var hv: Option<bool> := None;
    var pv: Option<bool> := None;
    var clicked := false;
    fired := None;
    if inside && !hover {
      hover := true;
      b.SetHoverVisual(true);
      hv := Some(true);
    } else if !inside && hover {
      hover := false;
      b.SetHoverVisual(false);
      hv := Some(false);
    }
    if leftDown && inside {
      if !pressed {
        pressed := true;
        b.SetPressedVisual(true);
        pv := Some(true);
      }
    } else {
      if pressed {
        if inside {
          fired := b.TriggerClick();
          clicked := true;
        }
        pressed := false;
        b.SetPressedVisual(false);
        pv := Some(false);
      }
    }
    f := Frame(Pointer(hover, pressed), clicked, hv, pv);
  }

  // ------------------------------------------------------- UIButtonPrimitive

  /** A box contains a point, edges included. */
  predicate Contains(pos: Vec2, size: Vec2, p: Vec2)
  {
    pos.x <= p.x <= pos.x + size.x && pos.y <= p.y <= pos.y + size.y
  }

  /**
   * The UI hit test: the mouse's y is measured from the top of the window
   * and the box's from the bottom, so the mouse is flipped first.
   */
  predicate UIHit(pos: Vec2, size: Vec2, mouseX: real, mouseY: real, windowHeight: real)
  {
    Contains(pos, size, Vec2(mouseX, windowHeight - mouseY))
  }

  /** Edges count: a box of non-negative size is hit at its four corners. */
  lemma UIHitCorners(pos: Vec2, size: Vec2, windowHeight: real)
    requires size.x >= 0.0 && size.y >= 0.0
    ensures UIHit(pos, size, pos.x, windowHeight - pos.y, windowHeight)
    ensures UIHit(pos, size, pos.x + size.x, windowHeight - pos.y, windowHeight)
    ensures UIHit(pos, size, pos.x, windowHeight - (pos.y + size.y), windowHeight)
    ensures UIHit(pos, size, pos.x + size.x, windowHeight - (pos.y + size.y), windowHeight)
  {
  }

  /** A mouse just above the box in window terms (below it from the bottom) misses. */
  lemma UIHitFlipped(pos: Vec2, size: Vec2, mouseX: real, mouseY: real, windowHeight: real)
    requires mouseY > windowHeight - pos.y
    ensures !UIHit(pos, size, mouseX, mouseY, windowHeight)
  {
  }

  /** UIButtonPrimitive: a button driven by its UITransform box. */
  class UIButton {
    const transforms: TransformArena
    const id: nat
    const button: Button
    var isHover: bool
    var isPressed: bool

    ghost predicate Valid()
      reads this, transforms, button, button.box, button.box.base, button.box.background
      reads button.box.background.base, button.box.text, button.box.text.base
    {
      transforms.Valid() && id < |transforms.nodes| && button.Valid()
    }

    function TransformSize(): Vec2
      reads this, transforms
      requires transforms.Valid() && id < |transforms.nodes|
    {
      transforms.nodes[id].size
    }

    /** The content-sized button: the transform takes the box's content size, at (0, 0). */
    constructor Content(arena: TransformArena, fm: FontManager, src: FontSource, t: string, path: string, size: real,
                        cfg: TextBoxConfig, tr: Trig)
      requires arena.Valid() && fm.Valid() && WellFormedSource(src)
      modifies arena, fm
      ensures Valid() && transforms == arena && id == |old(arena.nodes)| && !isHover && !isPressed
      ensures TransformSize() == ContentSize(button.box.text.MeasuredSize(), button.box.config)
      ensures transforms.nodes[id].position == Vec2(0.0, 0.0)
    {
      var b := new Button.Content(fm, src, t, path, size, cfg, tr);
      var w, h := b.box.GetContentSize();
      var handle := arena.AddSized(w, h);
      transforms, id, button := arena, handle, b;
      isHover, isPressed := false, false;
    }

    /** The sized button: the transform takes the given size, at (0, 0). */
    constructor Sized(arena: TransformArena, fm: FontManager, src: FontSource, t: string, w: real, h: real,
                      path: string, size: real, cfg: TextBoxConfig, tr: Trig)
      requires arena.Valid() && fm.Valid() && WellFormedSource(src)
      modifies arena, fm
      ensures Valid() && transforms == arena && id == |old(arena.nodes)| && !isHover && !isPressed
      ensures TransformSize() == Vec2(w, h) && transforms.nodes[id].position == Vec2(0.0, 0.0)
      ensures button.box.width == w && button.box.height == h
    {
      var b := new Button.Sized(fm, src, t, 0.0, 0.0, w, h, path, size, cfg, tr);
      var handle := arena.AddSized(w, h);
      transforms, id, button := arena, handle, b;
      isHover, isPressed := false, false;
    }

    /**
     * draw: the button moves to the transform's absolute position, the
     * hit test decides `inside`, the frame's transitions run, and the
     * button is drawn.
     */
    method Draw(window: WindowState, mouse: MouseState, projection: Mat4, view: Mat4)
        returns (fired: Option<nat>, calls: seq<Option<DrawCall>>)
      requires Valid()
      modifies this, button.box, button.box.background, button.box.background.base, button.box.text, button.box.text.base
      ensures Valid()
      ensures var pos := transforms.Absolute(id, window.width, window.height);
              var inside := UIHit(pos, TransformSize(), mouse.x, mouse.y, window.height);
              var f := StepFrame(old(Pointer(isHover, isPressed)), inside, mouse.leftButton);
              Pointer(isHover, isPressed) == f.next
              && fired == (if f.clicked then button.callback else None)
              && button.box.x == pos.x && button.box.y == pos.y
    {
      var pos := transforms.Absolute(id, window.width, window.height);
      button.SetPosition(pos.x, pos.y);
      var inside := UIHit(pos, TransformSize(), mouse.x, mouse.y, window.height);
      var f;
      f, fired := ApplyFrame(button, Pointer(isHover, isPressed), inside, mouse.leftButton);
      isHover, isPressed := f.next.hover, f.next.pressed;
      calls := button.Draw(projection, view);
    }

    /** setText: the transform takes the box's new content size. */
    method SetText(t: string)
      requires Valid()
      modifies transforms, button.box, button.box.background, button.box.text
      ensures Valid() && button.box.text.text == t
      ensures TransformSize() == ContentSize(button.box.text.MeasuredSize(), button.box.config)
    {
      button.SetText(t);
      var w, h := button.box.GetContentSize();
      transforms.SetSize(id, w, h);
    }

    method SetCallback(cb: Option<nat>)
      requires Valid()
      modifies button
      ensures Valid() && button.callback == cb
    {
      button.SetCallback(cb);
    }

    /** getContentSize: the transform's size. */
    method GetContentSize() returns (w: real, h: real)
      requires Valid()
      ensures Vec2(w, h) == TransformSize()
    {
      w, h := transforms.nodes[id].size.x, transforms.nodes[id].size.y;
    }
  }

  // ---------------------------------------------------- WorldButtonPrimitive

  /** A corner after projection · view: clip-space coordinates. */
  datatype Clip = Clip(x: real, y: real, z: real, w: real)

  /** The screen x of a clip-space point: through NDC to [0, w]. */
  function ScreenX(c: Clip, w: int): real
    requires c.w != 0.0
  {
    ((c.x / c.w) * 0.5 + 0.5) * (w as real)
  }

  /** The screen y of a clip-space point: NDC y flipped, to [0, h]. */
  function ScreenY(c: Clip, h: int): real
    requires c.w != 0.0
  {
    (-(c.y / c.w) * 0.5 + 0.5) * (h as real)
  }

  /**
   * pointInProjectedRect, stated without min and max: every corner
   * projects (w != 0), and the mouse has a corner on or left of it, one on
   * or right of it, one on or above it and one on or below it.
   */
  predicate InProjectedRect(corners: seq<Clip>, mx: real, my: real, w: int, h: int)
    requires |corners| == 4
  {
    (forall i :: 0 <= i < 4 ==> corners[i].w != 0.0)
    && (exists i :: 0 <= i < 4 && corners[i].w != 0.0 && ScreenX(corners[i], w) <= mx)
    && (exists i :: 0 <= i < 4 && corners[i].w != 0.0 && ScreenX(corners[i], w) >= mx)
    && (exists i :: 0 <= i < 4 && corners[i].w != 0.0 && ScreenY(corners[i], h) <= my)
    && (exists i :: 0 <= i < 4 && corners[i].w != 0.0 && ScreenY(corners[i], h) >= my)
  }

  /** std::min_element and std::max_element over a non-empty range. */
  method MinMax(s: seq<real>) returns (lo: real, hi: real)
    requires |s| > 0
    ensures forall k :: 0 <= k < |s| ==> lo <= s[k] <= hi
    ensures exists k :: 0 <= k < |s| && s[k] == lo
    ensures exists k :: 0 <= k < |s| && s[k] == hi
  {
    lo, hi := s[0], s[0];
    var loAt, hiAt := 0, 0;
    for i := 1 to |s|
      invariant 0 <= loAt < i && 0 <= hiAt < i && s[loAt] == lo && s[hiAt] == hi
      invariant forall k :: 0 <= k < i ==> lo <= s[k] <= hi
    {
      if s[i] < lo {
        lo, loAt := s[i], i;
      }
      if s[i] > hi {
        hi, hiAt := s[i], i;
      }
    }
  }

  /** A value lies within the min and max of a range iff some element is on each side of it. */
  lemma WithinRange(s: seq<real>, lo: real, hi: real, v: real)
    requires forall k :: 0 <= k < |s| ==> lo <= s[k] <= hi
    requires (exists k :: 0 <= k < |s| && s[k] == lo) && (exists k :: 0 <= k < |s| && s[k] == hi)
    ensures (lo <= v) <==> exists k :: 0 <= k < |s| && s[k] <= v
    ensures (v <= hi) <==> exists k :: 0 <= k < |s| && s[k] >= v
  {
  }

  /**
   * pointInProjectedRect with the matrix product done by the caller: the
   * four corners in clip space. False as soon as a corner has w == 0;
   * otherwise the inclusive test against the min/max box of the screen
   * points.
   */
  method PointInProjectedRect(corners: seq<Clip>, mx: real, my: real, windowW: real, windowH: real) returns (inside: bool)
    requires |corners| == 4
    ensures inside == InProjectedRect(corners, mx, my, TruncToInt(windowW), TruncToInt(windowH))
  {
    var w, h := TruncToInt(windowW), TruncToInt(windowH);
    var sx: seq<real> := [];
    var sy: seq<real> := [];
    for i := 0 to 4
      invariant |sx| == i && |sy| == i
      invariant forall k :: 0 <= k < i ==> corners[k].w != 0.0
      invariant forall k :: 0 <= k < i ==> sx[k] == ScreenX(corners[k], w) && sy[k] == ScreenY(corners[k], h)
    {
      if corners[i].w == 0.0 {
        return false;
      }
      sx := sx + [ScreenX(corners[i], w)];
      sy := sy + [ScreenY(corners[i], h)];
    }
    var minX, maxX := MinMax(sx);
    var minY, maxY := MinMax(sy);
    WithinRange(sx, minX, maxX, mx);
    WithinRange(sy, minY, maxY, my);
    inside := mx >= minX && mx <= maxX && my >= minY && my <= maxY;
  }

  /** A corner at w == 0 makes the test fail wherever the mouse is. */
  lemma DegenerateCornerMisses(corners: seq<Clip>, mx: real, my: real, w: int, h: int, i: nat)
    requires |corners| == 4 && i < 4 && corners[i].w == 0.0
    ensures !InProjectedRect(corners, mx, my, w, h)
  {
  }

  /** WorldButtonPrimitive: a button in the world, hit-tested through its projected corners. */
  class WorldButton {
    const button: Button
    var position: Vec3
    var worldWidth: real
    var worldHeight: real
    var forward: Vec3
    var up: Vec3
    var isHover: bool
    var isPressed: bool

    ghost predicate Valid()
      reads this, button, button.box, button.box.base, button.box.background
      reads button.box.background.base, button.box.text, button.box.text.base
    {
      button.Valid()
    }

    /** The constructor: a fixed button of the world size at (0, 0), its font size 32; facing +z with +y up. */
    constructor(fm: FontManager, src: FontSource, t: string, x: real, y: real, z: real, w: real, h: real,
                path: string, cfg: TextBoxConfig, tr: Trig)
      requires fm.Valid() && WellFormedSource(src)
      modifies fm
      ensures Valid() && position == Vec3(x, y, z) && worldWidth == w && worldHeight == h
      ensures forward == Vec3(0.0, 0.0, 1.0) && up == Vec3(0.0, 1.0, 0.0) && !isHover && !isPressed
      ensures button.box.width == w && button.box.height == h && button.box.fontSize == 32.0
    {
      button := new Button.Sized(fm, src, t, 0.0, 0.0, w, h, path, 32.0, cfg, tr);
      position, worldWidth, worldHeight := Vec3(x, y, z), w, h;
      forward, up := Vec3(0.0, 0.0, 1.0), Vec3(0.0, 1.0, 0.0);
      isHover, isPressed := false, false;
    }

    /**
     * draw: the button takes the model matrix (`model`, built by
     * updateTransform), the projected corners decide `inside`, the
     * frame's transitions run, and the button is drawn.
     */
    method Draw(window: WindowState, mouse: MouseState, model: Mat4, corners: seq<Clip>, projection: Mat4, view: Mat4)
        returns (fired: Option<nat>, calls: seq<Option<DrawCall>>)
      requires Valid() && |corners| == 4
      modifies this, button.box, button.box.base, button.box.background, button.box.background.base
      modifies button.box.text, button.box.text.base
      ensures Valid() && button.box.base.transformOverride == model
      ensures var inside := InProjectedRect(corners, mouse.x, mouse.y, TruncToInt(window.width), TruncToInt(window.height));
              var f := StepFrame(old(Pointer(isHover, isPressed)), inside, mouse.leftButton);
              Pointer(isHover, isPressed) == f.next && fired == (if f.clicked then button.callback else None)
      ensures position == old(position) && worldWidth == old(worldWidth) && worldHeight == old(worldHeight)
    {
      button.SetTransform(model);
      var inside := PointInProjectedRect(corners, mouse.x, mouse.y, window.width, window.height);
      var f;
      f, fired := ApplyFrame(button, Pointer(isHover, isPressed), inside, mouse.leftButton);
      isHover, isPressed := f.next.hover, f.next.pressed;
      calls := button.Draw(projection, view);
    }

    method SetText(t: string)
      requires Valid()
      modifies button.box, button.box.background, button.box.text
      ensures Valid() && button.box.text.text == t
    {
      button.SetText(t);
    }

    method SetCallback(cb: Option<nat>)
      requires Valid()
      modifies button
      ensures Valid() && button.callback == cb
    {
      button.SetCallback(cb);
    }

    method SetPosition(x: real, y: real, z: real)
      modifies this
      ensures position == Vec3(x, y, z) && worldWidth == old(worldWidth) && worldHeight == old(worldHeight)
    {
      position := Vec3(x, y, z);
    }

    method SetWorldSize(w: real, h: real)
      modifies this
      ensures worldWidth == w && worldHeight == h && position == old(position)
    {
      worldWidth, worldHeight := w, h;
    }

    method SetOrientation(f: Vec3, u: Vec3)
      modifies this
      ensures forward == f && up == u && position == old(position)
    {
      forward, up := f, u;
    }

    /** getContentSize: the world size. */
    method GetContentSize() returns (w: real, h: real)
      ensures w == worldWidth && h == worldHeight
    {
      w, h := worldWidth, worldHeight;
    }
  }
}
