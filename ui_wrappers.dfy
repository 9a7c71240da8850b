// The UI wrappers: each pairs a UITransform (a node of the transform
// arena) with one primitive drawn at the transform's absolute position.
// The transform's size follows the content where the source keeps it in
// sync; getContentSize answers from the transform (the circle from its
// radius). The screen size the absolute position needs is the window's.

module UIWrappers {
  import opened Common
  import opened Fonts
  import opened Factories
  import opened Primitives
  import opened TextLayout
  import opened TextPrimitives
  import opened Shapes
  import opened TextBoxes
  import opened Transforms
  import opened Input

  /** Where a circle of radius r goes so that its bounding box starts at `pos`. */
  function CircleCenter(pos: Vec2, r: real): (c: Vec2)
    ensures c.x - r == pos.x && c.y - r == pos.y
  {
    Vec2(pos.x + r, pos.y + r)
  }

  /** The UI circle's content size. */
  function CircleContent(r: real): (s: Vec2)
    ensures s.x == s.y && s.x / 2.0 == r
  {
    Vec2(r * 2.0, r * 2.0)
  }

  /**
   * The circle centred by CircleCenter fills the box at `pos` with the
   * content size: its leftmost and topmost points are the box's corner,
   * its rightmost and bottommost the opposite one.
   */
  lemma CircleFillsBox(pos: Vec2, r: real)
    ensures var c := CircleCenter(pos, r);
            var s := CircleContent(r);
            c.x - r == pos.x && c.y - r == pos.y && c.x + r == pos.x + s.x && c.y + r == pos.y + s.y
  {
  }

  // ------------------------------------------------------------- UIText

  /** UITextPrimitive: a text primitive at the transform's position; the transform takes the measured size. */
  class UIText {
    const base: RenderablePrimitive
    const transforms: TransformArena
    const id: nat
    const text: TextPrimitive

    ghost predicate Valid()
      reads this, base, transforms, text, text.base
    {
      base.Valid() && transforms.Valid() && id < |transforms.nodes|
      && base != text.base && text.Valid() && text.Current()
    }

    function TransformSize(): Vec2
      reads this, transforms
      requires transforms.Valid() && id < |transforms.nodes|
    {
      transforms.nodes[id].size
    }

    /** The text at (0, 0); the transform at (0, 0) with the measured size. */
    constructor(arena: TransformArena, fm: FontManager, src: FontSource, t: string, path: string, size: real, col: Color)
      requires arena.Valid() && fm.Valid() && WellFormedSource(src)
      modifies arena, fm
      ensures Valid() && fm.Valid() && transforms == arena && id == |old(arena.nodes)|
      ensures fresh(base) && fresh(text) && fresh(text.base)
      ensures text.text == t && text.x == 0.0 && text.y == 0.0 && text.fontSize == size && text.base.color == col
      ensures TransformSize() == text.MeasuredSize() && transforms.nodes[id].position == Vec2(0.0, 0.0)
    {
      var tp := new TextPrimitive(fm, src, t, 0.0, 0.0, path, size, col);
      var w, h := tp.MeasureText();
      var handle := arena.AddSized(w, h);
      base := new RenderablePrimitive();
      transforms, id, text := arena, handle, tp;
    }

    /** draw: the text moves to the absolute position, then draws. */
    method Draw(window: WindowState, projection: Mat4, view: Mat4) returns (d: Option<DrawCall>)
      requires Valid()
      modifies text, text.base
      ensures Valid()
      ensures var pos := transforms.Absolute(id, window.width, window.height); text.x == pos.x && text.y == pos.y
      ensures text.text == old(text.text) && text.Config() == old(text.Config()).(frame := text.Frame())
      ensures text.font.None? ==> d == None
      ensures text.font.Some? ==> d == (if text.base.bound.Some? then IssueDraw(text.base.bound.value, projection, view) else None)
      ensures text.font.Some? && text.Quads() == [] ==> d.None? || d.value.count == 0
      ensures text.font.Some? && text.Quads() != [] ==>
                d.Some? && d.value.indexed && d.value.count == 6 * (|text.Quads()| / 4)
                && Displays(text.base.bound.value.mesh, text.Quads(), QuadIndices(|text.Quads()| / 4))
    {
      var pos := transforms.Absolute(id, window.width, window.height);
      text.SetPosition(pos.x, pos.y);
      d := text.Draw(projection, view);
    }

    method SetText(t: string)
      requires Valid()
      modifies transforms, text
      ensures Valid() && text.text == t && TransformSize() == text.MeasuredSize()
    {
      text.SetText(t);
      var w, h := text.MeasureText();
      transforms.SetSize(id, w, h);
    }

    method SetFontSize(fm: FontManager, src: FontSource, size: real)
      requires Valid() && fm.Valid() && WellFormedSource(src)
      modifies transforms, text, fm
      ensures Valid() && fm.Valid() && text.fontSize == size && TransformSize() == text.MeasuredSize()
    {
      text.SetFontSize(fm, src, size);
      var w, h := text.MeasureText();
      transforms.SetSize(id, w, h);
    }

    method SetFont(fm: FontManager, src: FontSource, path: string)
      requires Valid() && fm.Valid() && WellFormedSource(src)
      modifies transforms, text, fm
      ensures Valid() && fm.Valid() && text.fontPath == path && TransformSize() == text.MeasuredSize()
    {
      text.SetFont(fm, src, path);
      var w, h := text.MeasureText();
      transforms.SetSize(id, w, h);
    }

    /** setBoxSize: the transform takes the box itself, not the measure. */
    method SetBoxSize(w: real, h: real)
      requires Valid()
      modifies transforms, text
      ensures Valid() && text.hasBoxSize && text.boxWidth == w && text.boxHeight == h
      ensures TransformSize() == Vec2(w, h)
    {
      text.SetBoxSize(w, h);
      transforms.SetSize(id, w, h);
    }

    method ClearBoxSize()
      requires Valid()
      modifies transforms, text
      ensures Valid() && !text.hasBoxSize && TransformSize() == text.MeasuredSize()
    {
      text.ClearBoxSize();
      var w, h := text.MeasureText();
      transforms.SetSize(id, w, h);
    }

    method SetAlignment(a: TextAlign)
      requires Valid()
      modifies text
      ensures Valid() && text.alignment == a && text.text == old(text.text)
    {
      text.SetAlignment(a);
    }

    method SetJustification(j: TextJustify)
      requires Valid()
      modifies text
      ensures Valid() && text.justification == j && text.text == old(text.text)
    {
      text.SetJustification(j);
    }

    method SetWrap(enabled: bool)
      requires Valid()
      modifies text
      ensures Valid() && text.wrapEnabled == enabled && text.text == old(text.text)
    {
      text.SetWrap(enabled);
    }

    function GetText(): string
      reads this, text
    {
      text.text
    }

    function GetFontSize(): real
      reads this, text
    {
      text.fontSize
    }

    method MeasureText() returns (w: real, h: real)
      requires Valid()
      ensures Vec2(w, h) == text.MeasuredSize()
    {
      w, h := text.MeasureText();
    }

    /** getContentSize: the transform's size, which a box size or a direct resize may have set. */
    method GetContentSize() returns (w: real, h: real)
      requires Valid()
      ensures Vec2(w, h) == TransformSize()
    {
      w, h := transforms.nodes[id].size.x, transforms.nodes[id].size.y;
    }

    /** setColor with onColorChanged: the text takes the colour too. */
    method SetColor(c: Color)
      requires Valid()
      modifies base, text, text.base
      ensures Valid() && base.color == c && text.base.color == c && text.text == old(text.text)
    {
      base.SetColor(c);
      text.SetColor(c);
    }
  }

  // ---------------------------------------------------------- UITextBox

  /** UITextBoxPrimitive: a text box at the transform's position. */
  class UITextBox {
    const base: RenderablePrimitive
    const transforms: TransformArena
    const id: nat
    const box: TextBox
    /** Whether setText resizes the transform: the config's flag, or false for the fixed size. */
    const autoSizeToContent: bool

    ghost predicate Valid()
      reads this, base, transforms, box, box.base, box.background, box.background.base, box.text, box.text.base
    {
      base.Valid() && transforms.Valid() && id < |transforms.nodes| && box.Valid()
      && base != box.base && base != box.background.base && base != box.text.base
    }

    function TransformSize(): Vec2
      reads this, transforms
      requires transforms.Valid() && id < |transforms.nodes|
    {
      transforms.nodes[id].size
    }

    /**
     * The content-sized box at (0, 0); the transform takes its content
     * size. The flag comes from the config, though the inner box always
     * auto-sizes.
     */
    constructor Content(arena: TransformArena, fm: FontManager, src: FontSource, t: string, path: string, size: real,
                        cfg: TextBoxConfig, tr: Trig)
      requires arena.Valid() && fm.Valid() && WellFormedSource(src)
      modifies arena, fm
      ensures Valid() && fm.Valid() && transforms == arena && id == |old(arena.nodes)|
      ensures autoSizeToContent == cfg.autoSizeToContent && box.config.autoSizeToContent
      ensures box.x == 0.0 && box.y == 0.0 && box.text.text == t
      ensures TransformSize() == ContentSize(box.text.MeasuredSize(), box.config)
      ensures transforms.nodes[id].position == Vec2(0.0, 0.0)
    {
      var b := new TextBox.Content(fm, src, t, 0.0, 0.0, path, size, cfg, tr);
      var w, h := b.GetContentSize();
      var handle := arena.AddSized(w, h);
      base := new RenderablePrimitive();
      transforms, id, box := arena, handle, b;
      autoSizeToContent := cfg.autoSizeToContent;
    }

    /** The fixed box at (0, 0); the transform takes the given size; no auto-sizing. */
    constructor Fixed(arena: TransformArena, fm: FontManager, src: FontSource, t: string, w: real, h: real,
                      path: string, size: real, cfg: TextBoxConfig, tr: Trig)
      requires arena.Valid() && fm.Valid() && WellFormedSource(src)
      modifies arena, fm
      ensures Valid() && fm.Valid() && transforms == arena && id == |old(arena.nodes)| && !autoSizeToContent
      ensures box.x == 0.0 && box.y == 0.0 && box.width == w && box.height == h && box.text.text == t
      ensures TransformSize() == Vec2(w, h) && transforms.nodes[id].position == Vec2(0.0, 0.0)
    {
      var b := new TextBox.Fixed(fm, src, t, 0.0, 0.0, w, h, path, size, cfg, tr);
      var handle := arena.AddSized(w, h);
      base := new RenderablePrimitive();
      transforms, id, box := arena, handle, b;
      autoSizeToContent := false;
    }

    /** draw: the box moves to the absolute position, then draws its two parts. */
    method Draw(window: WindowState, projection: Mat4, view: Mat4) returns (calls: seq<Option<DrawCall>>)
      requires Valid()
      modifies box, box.background, box.background.base, box.text, box.text.base
      ensures Valid() && |calls| == 2
      ensures var pos := transforms.Absolute(id, window.width, window.height); box.x == pos.x && box.y == pos.y
      ensures box.width == old(box.width) && box.height == old(box.height) && box.config == old(box.config)
      ensures box.background.base.bound.Some? && calls[0] == IssueDraw(box.background.base.bound.value, projection, view)
      ensures box.text.font.None? ==> calls[1] == None
      ensures box.text.font.Some? ==>
                calls[1] == (if box.text.base.bound.Some? then IssueDraw(box.text.base.bound.value, projection, view) else None)
      ensures box.text.font.Some? && box.text.Quads() != [] ==>
                calls[1].Some? && Displays(box.text.base.bound.value.mesh, box.text.Quads(), QuadIndices(|box.text.Quads()| / 4))
    {
      var pos := transforms.Absolute(id, window.width, window.height);
      box.SetPosition(pos.x, pos.y);
      calls := box.Draw(projection, view);
    }

    /** setText: the transform follows the content size only when auto-sizing. */
    method SetText(t: string)
      requires Valid()
      modifies transforms, box, box.background, box.text
      ensures Valid() && box.text.text == t
      ensures autoSizeToContent ==> TransformSize() == ContentSize(box.text.MeasuredSize(), box.config)
      ensures !autoSizeToContent ==> transforms.nodes == old(transforms.nodes)
    {
      box.SetText(t);
      if autoSizeToContent {
        var w, h := box.GetContentSize();
        transforms.SetSize(id, w, h);
      }
    }

    method SetFontSize(fm: FontManager, src: FontSource, size: real)
      requires Valid() && fm.Valid() && WellFormedSource(src)
      modifies box, box.text, fm
      ensures Valid() && fm.Valid() && box.fontSize == size
    {
      box.SetFontSize(fm, src, size);
    }

    method SetTextAlignment(a: TextAlign)
      requires Valid()
      modifies box.text
      ensures Valid() && box.text.alignment == a
    {
      box.SetTextAlignment(a);
    }

    method SetTextJustification(j: TextJustify)
      requires Valid()
      modifies box.text
      ensures Valid() && box.text.justification == j
    {
      box.SetTextJustification(j);
    }

    method SetBackgroundColor(c: Color)
      requires Valid()
      modifies box, box.background.base
      ensures Valid() && box.config.backgroundColor == c
    {
      box.SetBackgroundColor(c);
    }

    method SetTextColor(c: Color)
      requires Valid()
      modifies box, box.text, box.text.base
      ensures Valid() && box.config.textColor == c
    {
      box.SetTextColor(c);
    }

    method SetPadding(left: real, right: real, top: real, bottom: real)
      requires Valid()
      modifies box, box.background, box.text
      ensures Valid()
      ensures box.config == old(box.config).(paddingLeft := left, paddingRight := right, paddingTop := top, paddingBottom := bottom)
    {
      box.SetPadding(left, right, top, bottom);
    }

    function GetText(): string
      reads this, box, box.text
    {
      box.text.text
    }

    /** getContentSize, getWidth and getHeight: the transform's size. */
    method GetContentSize() returns (w: real, h: real)
      requires Valid()
      ensures Vec2(w, h) == TransformSize()
    {
      w, h := transforms.nodes[id].size.x, transforms.nodes[id].size.y;
    }

    /** setColor: onColorChanged is empty, so only the wrapper's own colour changes. */
    method SetColor(c: Color)
      requires Valid()
      modifies base
      ensures Valid() && base.color == c
    {
      base.SetColor(c);
    }
  }

  // -------------------------------------------------------- UIRectangle

  /** UIRectanglePrimitive: a rectangle at the transform's position, of the transform's size. */
  class UIRectangle {
    const base: RenderablePrimitive
    const transforms: TransformArena
    const id: nat
    const rect: Rectangle

    ghost predicate Valid()
      reads this, base, transforms, rect, rect.base
    {
      base.Valid() && transforms.Valid() && id < |transforms.nodes| && rect.Valid() && base != rect.base
    }

    function TransformSize(): Vec2
      reads this, transforms
      requires transforms.Valid() && id < |transforms.nodes|
    {
      transforms.nodes[id].size
    }

    /** The rectangle at (0, 0) with w x h; the transform the same. */
    constructor(arena: TransformArena, w: real, h: real, col: Color)
      requires arena.Valid()
      modifies arena
      ensures Valid() && transforms == arena && id == |old(arena.nodes)|
      ensures rect.l == 0.0 && rect.t == 0.0 && rect.width == w && rect.height == h && rect.base.color == col
      ensures TransformSize() == Vec2(w, h) && transforms.nodes[id].position == Vec2(0.0, 0.0)
    {
      var r := new Rectangle(0.0, 0.0, w, h, col);
      var handle := arena.AddSized(w, h);
      base := new RenderablePrimitive();
      transforms, id, rect := arena, handle, r;
    }

    /** draw: the rectangle moves to the absolute position, then draws. */
    method Draw(window: WindowState, projection: Mat4, view: Mat4) returns (d: Option<DrawCall>)
      requires Valid()
      modifies rect, rect.base
      ensures Valid()
      ensures var pos := transforms.Absolute(id, window.width, window.height); rect.l == pos.x && rect.t == pos.y
      ensures rect.width == old(rect.width) && rect.height == old(rect.height)
      ensures d == (if rect.base.bound.Some? then IssueDraw(rect.base.bound.value, projection, view) else None)
    {
      var pos := transforms.Absolute(id, window.width, window.height);
      rect.SetPosition(pos.x, pos.y);
      d := rect.Draw(projection, view);
    }

    /** setSize: the transform and the rectangle both. */
    method SetSize(w: real, h: real)
      requires Valid()
      modifies transforms, rect
      ensures Valid() && TransformSize() == Vec2(w, h) && rect.width == w && rect.height == h
    {
      transforms.SetSize(id, w, h);
      rect.SetSize(w, h);
    }

    method GetContentSize() returns (w: real, h: real)
      requires Valid()
      ensures Vec2(w, h) == TransformSize()
    {
      w, h := transforms.nodes[id].size.x, transforms.nodes[id].size.y;
    }

    /** setColor with onColorChanged: the rectangle takes the colour too. */
    method SetColor(c: Color)
      requires Valid()
      modifies base, rect.base
      ensures Valid() && base.color == c && rect.base.color == c
    {
      base.SetColor(c);
      rect.SetColor(c);
    }
  }

  // -------------------------------------------------- UIRoundedRectangle

  /** UIRoundedRectanglePrimitive: a rounded rectangle at the transform's position. */
  class UIRoundedRectangle {
    const base: RenderablePrimitive
    const transforms: TransformArena
    const id: nat
    const shape: RoundedRectangle

    ghost predicate Valid()
      reads this, base, transforms, shape, shape.base
    {
      base.Valid() && transforms.Valid() && id < |transforms.nodes| && shape.Valid() && base != shape.base
    }

    function TransformSize(): Vec2
      reads this, transforms
      requires transforms.Valid() && id < |transforms.nodes|
    {
      transforms.nodes[id].size
    }

    /** The shape at (0, 0) with w x h; the transform the same. */
    constructor(arena: TransformArena, w: real, h: real, radius: real, col: Color, qualityPerCorner: int, tr: Trig)
      requires arena.Valid()
      modifies arena
      ensures Valid() && transforms == arena && id == |old(arena.nodes)|
      ensures shape.l == 0.0 && shape.t == 0.0 && shape.width == w && shape.height == h && shape.rad == radius
      ensures shape.perCorner == (if qualityPerCorner < 1 then 1 else qualityPerCorner) && shape.base.color == col
      ensures TransformSize() == Vec2(w, h) && transforms.nodes[id].position == Vec2(0.0, 0.0)
    {
      var s := new RoundedRectangle(0.0, 0.0, w, h, radius, col, qualityPerCorner, tr);
      var handle := arena.AddSized(w, h);
      base := new RenderablePrimitive();
      transforms, id, shape := arena, handle, s;
    }

    /** draw: the shape moves to the absolute position, then draws. */
    method Draw(window: WindowState, projection: Mat4, view: Mat4) returns (d: Option<DrawCall>)
      requires Valid()
      modifies shape, shape.base
      ensures Valid() && shape.base.bound.Some? && d == IssueDraw(shape.base.bound.value, projection, view)
      ensures var pos := transforms.Absolute(id, window.width, window.height); shape.l == pos.x && shape.t == pos.y
      ensures shape.width == old(shape.width) && shape.height == old(shape.height) && shape.rad == old(shape.rad)
    {
      var pos := transforms.Absolute(id, window.width, window.height);
      shape.SetPosition(pos.x, pos.y);
      d := shape.Draw(projection, view);
    }

    /** setSize: the transform and the shape both. */
    method SetSize(w: real, h: real)
      requires Valid()
      modifies transforms, shape
      ensures Valid() && TransformSize() == Vec2(w, h) && shape.width == w && shape.height == h
    {
      transforms.SetSize(id, w, h);
      shape.SetSize(w, h);
    }

    /** setRadius: the shape only; the transform is unchanged. */
    method SetRadius(r: real)
      requires Valid()
      modifies shape
      ensures Valid() && shape.rad == r && shape.width == old(shape.width) && shape.height == old(shape.height)
    {
      shape.SetRadius(r);
    }

    /** setQualityPerCorner: the shape only; the transform is unchanged. */
    method SetQualityPerCorner(q: int)
      requires Valid()
      modifies shape
      ensures Valid() && shape.perCorner == (if q < 1 then 1 else q) && shape.rad == old(shape.rad)
    {
      shape.SetQualityPerCorner(q);
    }

    method GetContentSize() returns (w: real, h: real)
      requires Valid()
      ensures Vec2(w, h) == TransformSize()
    {
      w, h := transforms.nodes[id].size.x, transforms.nodes[id].size.y;
    }

    /** setColor with onColorChanged: the shape takes the colour too. */
    method SetColor(c: Color)
      requires Valid()
      modifies base, shape.base
      ensures Valid() && base.color == c && shape.base.color == c
    {
      base.SetColor(c);
      shape.SetColor(c);
    }
  }

  // ----------------------------------------------------------- UICircle

  /** UICirclePrimitive: a circle whose bounding box is the transform's box. */
  class UICircle {
    const base: RenderablePrimitive
    const transforms: TransformArena
    const id: nat
    const circle: Circle
    var radius: real

    ghost predicate Valid()
      reads this, base, transforms, circle, circle.base
    {
      base.Valid() && transforms.Valid() && id < |transforms.nodes| && circle.Valid() && base != circle.base
      && circle.radius == radius
    }

    function TransformSize(): Vec2
      reads this, transforms
      requires transforms.Valid() && id < |transforms.nodes|
    {
      transforms.nodes[id].size
    }

    /** The circle centred at (0, 0); the transform at (0, 0) with 2r x 2r. */
    constructor(arena: TransformArena, r: real, col: Color, segments: int, tr: Trig)
      requires arena.Valid()
      modifies arena
      ensures Valid() && transforms == arena && id == |old(arena.nodes)| && radius == r
      ensures circle.cx == 0.0 && circle.cy == 0.0 && circle.segments == segments && circle.base.color == col
      ensures TransformSize() == CircleContent(r) && transforms.nodes[id].position == Vec2(0.0, 0.0)
    {
      var c := new Circle(0.0, 0.0, r, col, segments, tr);
      var handle := arena.AddSized(r * 2.0, r * 2.0);
      base := new RenderablePrimitive();
      transforms, id, circle := arena, handle, c;
      radius := r;
    }

    /** draw: the circle's centre goes to the absolute position plus (r, r), then it draws. */
    method Draw(window: WindowState, projection: Mat4, view: Mat4) returns (d: Option<DrawCall>)
      requires Valid() && circle.segments >= -1
      modifies circle, circle.base
      ensures Valid() && circle.base.bound.Some? && d == IssueDraw(circle.base.bound.value, projection, view)
      ensures Vec2(circle.cx, circle.cy) == CircleCenter(transforms.Absolute(id, window.width, window.height), radius)
    {
      var pos := transforms.Absolute(id, window.width, window.height);
      circle.SetCenter(pos.x + radius, pos.y + radius);
      d := circle.Draw(projection, view);
    }

    /** setRadius: the field, the transform (2r x 2r) and the circle. */
    method SetRadius(r: real)
      requires Valid()
      modifies this, transforms, circle
      ensures Valid() && radius == r && TransformSize() == CircleContent(r)
    {
      radius := r;
      transforms.SetSize(id, radius * 2.0, radius * 2.0);
      circle.SetRadius(r);
    }

    /** setSegments: changes nothing. */
    method SetSegments(segments: int)
      requires Valid()
      ensures Valid()
    {
    }

    function GetRadius(): real
      reads this
    {
      radius
    }

    /** getContentSize: computed from the radius field, not read from the transform. */
    method GetContentSize() returns (w: real, h: real)
      requires Valid()
      ensures Vec2(w, h) == CircleContent(radius)
    {
      w, h := radius * 2.0, radius * 2.0;
    }

    /** setColor with onColorChanged: the circle takes the colour too. */
    method SetColor(c: Color)
      requires Valid()
      modifies base, circle.base
      ensures Valid() && base.color == c && circle.base.color == c
    {
      base.SetColor(c);
      circle.SetColor(c);
    }
  }
}
