// TextBoxPrimitive, in its two versions: a rounded-rectangle background
// with a text primitive laid out inside its padding. The engine version
// sizes itself to its text (content constructor) or takes a fixed size,
// and forwards screen-space and transform changes to both children; the
// older version owns a UITransform and follows its absolute position when
// drawn.

module TextBoxes {
  import opened Common
  import opened Fonts
  import opened Factories
  import opened Primitives
  import opened TextLayout
  import opened TextPrimitives
  import opened Shapes
  import opened Transforms

  datatype TextBoxConfig = TextBoxConfig(
    paddingLeft: real, paddingRight: real, paddingTop: real, paddingBottom: real,
    cornerRadius: real, cornerSegments: int,
    backgroundColor: Color, textColor: Color,
    enableWordWrap: bool, autoSizeToContent: bool,
    maxWidth: real, maxHeight: real)
  {
    /** The horizontal padding. */
    function PadX(): real { paddingLeft + paddingRight }

    /** The vertical padding. */
    function PadY(): real { paddingTop + paddingBottom }
  }

  /** The defaults of TextBoxConfig. */
  const DefaultTextBoxConfig: TextBoxConfig :=
    TextBoxConfig(15.0, 15.0, 15.0, 15.0, 12.0, 32,
                  Color(0.1, 0.1, 0.1, 0.85), Color(0.9, 0.9, 0.9, 1.0),
                  true, false, 0.0, 0.0)

  /** A padded extent clamped down to its maximum, where a maximum above 0 is set. */
  function ClampDown(v: real, bound: real): (r: real)
    ensures r <= v && (bound > 0.0 ==> r <= bound)
    ensures r == v || (bound > 0.0 && r == bound)
  {
    if bound > 0.0 && v > bound then bound else v
  }

  /**
   * The auto size: the measured text plus the padding on each axis, no
   * larger than maxWidth / maxHeight where those are above 0. Each side is
   * the smaller of the padded extent and the bound.
   */
  function AutoSize(measured: Vec2, c: TextBoxConfig): (s: Vec2)
    ensures s.x <= measured.x + c.PadX() && (c.maxWidth > 0.0 ==> s.x <= c.maxWidth)
    ensures s.y <= measured.y + c.PadY() && (c.maxHeight > 0.0 ==> s.y <= c.maxHeight)
    ensures s.x == measured.x + c.PadX() || (c.maxWidth > 0.0 && s.x == c.maxWidth)
    ensures s.y == measured.y + c.PadY() || (c.maxHeight > 0.0 && s.y == c.maxHeight)
  {
    Vec2(ClampDown(measured.x + c.PadX(), c.maxWidth), ClampDown(measured.y + c.PadY(), c.maxHeight))
  }

  /**
   * getContentSize: the measured text plus the padding, never below the
   * padding sums; a text that measures nothing gives the padding alone.
   */
  function ContentSize(measured: Vec2, c: TextBoxConfig): (s: Vec2)
    ensures s.x >= measured.x + c.PadX() && s.x >= c.PadX()
    ensures s.y >= measured.y + c.PadY() && s.y >= c.PadY()
    ensures s.x == measured.x + c.PadX() || s.x == c.PadX()
    ensures s.y == measured.y + c.PadY() || s.y == c.PadY()
  {
    Vec2(Max(measured.x + c.PadX(), c.PadX()), Max(measured.y + c.PadY(), c.PadY()))
  }

  /** Without maxima and for a text of non-negative size, the auto size is the content size. */
  lemma AutoSizeIsContentSize(measured: Vec2, c: TextBoxConfig)
    requires measured.x >= 0.0 && measured.y >= 0.0
    requires c.maxWidth <= 0.0 && c.maxHeight <= 0.0
    ensures AutoSize(measured, c) == ContentSize(measured, c)
  {
  }

  /** With a maximum set, a text too wide for it gives a box exactly the maximum wide. */
  lemma AutoSizeClamps(measured: Vec2, c: TextBoxConfig)
    requires c.maxWidth > 0.0 && measured.x + c.PadX() > c.maxWidth
    ensures AutoSize(measured, c).x == c.maxWidth
  {
  }

  /**
   * updateLayout's result: the background covers (x, y, w, h), and the
   * text starts at the padded corner with the box the padding leaves.
   */
  ghost predicate LaidOut(bg: RoundedRectangle, tp: TextPrimitive, x: real, y: real, w: real, h: real, c: TextBoxConfig)
    reads bg, tp
  {
    bg.l == x && bg.t == y && bg.width == w && bg.height == h
    && tp.x == x + c.paddingLeft && tp.y == y + c.paddingTop
    && tp.hasBoxSize && tp.boxWidth == w - c.PadX() && tp.boxHeight == h - c.PadY()
  }

  /** With non-negative padding, the text's box lies inside the background. */
  lemma TextInsideBackground(bg: RoundedRectangle, tp: TextPrimitive, x: real, y: real, w: real, h: real, c: TextBoxConfig)
    requires LaidOut(bg, tp, x, y, w, h, c)
    requires c.paddingLeft >= 0.0 && c.paddingRight >= 0.0 && c.paddingTop >= 0.0 && c.paddingBottom >= 0.0
    ensures bg.l <= tp.x && tp.x + tp.boxWidth <= bg.l + bg.width
    ensures bg.t <= tp.y && tp.y + tp.boxHeight <= bg.t + bg.height
  {
  }

  /** The two children: separate renderable states, each valid, the text's renderable current. */
  ghost predicate Children(bg: RoundedRectangle, tp: TextPrimitive)
    reads bg, bg.base, tp, tp.base
  {
    bg.base != tp.base && bg.Valid() && tp.Valid() && tp.Current()
  }

  /**
   * updateLayout: the background is moved and resized to (x, y, w, h), the
   * text moved to the padded corner and given the inner box. Nothing else
   * about either child changes.
   */
  method Layout(bg: RoundedRectangle, tp: TextPrimitive, x: real, y: real, w: real, h: real, c: TextBoxConfig)
    requires Children(bg, tp)
    modifies bg, tp
    ensures Children(bg, tp) && LaidOut(bg, tp, x, y, w, h, c)
    ensures bg.rad == old(bg.rad) && bg.perCorner == old(bg.perCorner)
    ensures tp.Config() == old(tp.Config()).(frame := tp.Frame())
    ensures tp.alignment == old(tp.alignment) && tp.justification == old(tp.justification)
  {
    bg.SetPosition(x, y);
    bg.SetSize(w, h);
    tp.SetPosition(x + c.paddingLeft, y + c.paddingTop);
    tp.SetBoxSize(w - c.PadX(), h - c.PadY());
  }

  /** The fixed constructors' text: created at the padded corner, given the inner box, Start-aligned, wrapped when asked. */
  method MakeInnerText(fm: FontManager, src: FontSource, t: string, x: real, y: real, w: real, h: real,
                       path: string, size: real, c: TextBoxConfig) returns (tp: TextPrimitive)
    requires fm.Valid() && WellFormedSource(src)
    modifies fm
    ensures fresh(tp) && fresh(tp.base) && fm.Valid() && tp.Valid() && tp.Current()
    ensures tp.text == t && tp.fontPath == path && tp.fontSize == size && tp.base.color == c.textColor
    ensures tp.x == x + c.paddingLeft && tp.y == y + c.paddingTop
    ensures tp.hasBoxSize && tp.boxWidth == w - c.PadX() && tp.boxHeight == h - c.PadY()
    ensures tp.alignment == AlignStart && tp.justification == JustifyStart
    ensures tp.wrapEnabled == c.enableWordWrap
  {
    tp := new TextPrimitive(fm, src, t, x + c.paddingLeft, y + c.paddingTop, path, size, c.textColor);
    tp.SetBoxSize(w - c.PadX(), h - c.PadY());
    tp.SetAlignment(AlignStart);
    tp.SetJustification(JustifyStart);
    if c.enableWordWrap {
      tp.SetWrap(true);
    }
  }

  /** The content constructor's text: at (0, 0), wrapped in a provisional box only when wrapping and a maximum width are set. */
  method MakeAutoText(fm: FontManager, src: FontSource, t: string, path: string, size: real, c: TextBoxConfig)
      returns (tp: TextPrimitive)
    requires fm.Valid() && WellFormedSource(src)
    modifies fm
    ensures fresh(tp) && fresh(tp.base) && fm.Valid() && tp.Valid() && tp.Current()
    ensures tp.text == t && tp.fontPath == path && tp.fontSize == size && tp.base.color == c.textColor
    ensures tp.alignment == AlignStart && tp.justification == JustifyStart
    ensures tp.wrapEnabled == (c.enableWordWrap && c.maxWidth > 0.0)
    ensures tp.hasBoxSize == tp.wrapEnabled
    ensures tp.wrapEnabled ==> tp.boxWidth == c.maxWidth - c.PadX()
                               && tp.boxHeight == (if c.maxHeight > 0.0 then c.maxHeight - c.PadY() else 10000.0)
    ensures tp.x == 0.0 && tp.y == 0.0
  {
    tp := new TextPrimitive(fm, src, t, 0.0, 0.0, path, size, c.textColor);
    if c.enableWordWrap && c.maxWidth > 0.0 {
      tp.SetBoxSize(c.maxWidth - c.PadX(), if c.maxHeight > 0.0 then c.maxHeight - c.PadY() else 10000.0);
      tp.SetWrap(true);
    }
    tp.SetAlignment(AlignStart);
    tp.SetJustification(JustifyStart);
  }

  /**
   * draw's two calls: the background's, then the text's. Neither child's
   * placement, size or colour changes.
   */
  method DrawChildren(bg: RoundedRectangle, tp: TextPrimitive, projection: Mat4, view: Mat4)
      returns (calls: seq<Option<DrawCall>>)
    requires Children(bg, tp)
    modifies bg, bg.base, tp, tp.base
    ensures Children(bg, tp) && tp.Config() == old(tp.Config())
    ensures bg.l == old(bg.l) && bg.t == old(bg.t) && bg.width == old(bg.width) && bg.height == old(bg.height)
    ensures bg.rad == old(bg.rad) && bg.perCorner == old(bg.perCorner) && bg.base.color == old(bg.base.color)
    ensures |calls| == 2 && bg.base.bound.Some? && calls[0] == IssueDraw(bg.base.bound.value, projection, view)
    ensures tp.font.None? ==> calls[1] == None
    ensures tp.font.Some? ==>
              calls[1] == (if tp.base.bound.Some? then IssueDraw(tp.base.bound.value, projection, view) else None)
    ensures tp.font.Some? && tp.Quads() != [] ==>
              calls[1].Some? && Displays(tp.base.bound.value.mesh, tp.Quads(), QuadIndices(|tp.Quads()| / 4))
  {
    var d1 := bg.Draw(projection, view);
    var d2 := tp.Draw(projection, view);
    calls := [d1, d2];
  }

  /** The engine's TextBoxPrimitive. `trig` stands for the background outline's cos/sin. */
  class TextBox {
    const base: RenderablePrimitive
    const background: RoundedRectangle
    const text: TextPrimitive
    var x: real
    var y: real
    var width: real
    var height: real
    var fontSize: real
    var fontPath: string
    var config: TextBoxConfig

    /**
     * The children are laid out for the box, the background has the
     * configured corners and colour, and the text the configured colour,
     * font path and size.
     */
    ghost predicate Valid()
      reads this, base, background, background.base, text, text.base
    {
      base != background.base && base != text.base && base.Valid()
      && Children(background, text)
      && LaidOut(background, text, x, y, width, height, config)
      && background.rad == config.cornerRadius
      && background.perCorner == (if config.cornerSegments < 1 then 1 else config.cornerSegments)
      && background.base.color == config.backgroundColor && text.base.color == config.textColor
      && text.fontSize == fontSize && text.fontPath == fontPath
    }

    /** What the children would be without the layout. */
    ghost predicate Parts()
      reads this, base, background, background.base, text, text.base
    {
      base != background.base && base != text.base && base.Valid()
      && Children(background, text)
      && background.rad == config.cornerRadius
      && background.perCorner == (if config.cornerSegments < 1 then 1 else config.cornerSegments)
      && background.base.color == config.backgroundColor && text.base.color == config.textColor
      && text.fontSize == fontSize && text.fontPath == fontPath
    }

    /**
     * The content-sized constructor: auto-sizing is forced on; the text is
     * wrapped only when wrapping is asked for and a maximum width is set;
     * the box is the auto size of the measured text; then the layout.
     */
    constructor Content(fm: FontManager, src: FontSource, t: string, x0: real, y0: real,
                        path: string, size: real, cfg: TextBoxConfig, tr: Trig)
      requires fm.Valid() && WellFormedSource(src)
      modifies fm
      ensures Valid() && fm.Valid()
      ensures fresh(base) && fresh(background) && fresh(background.base) && fresh(text) && fresh(text.base)
      ensures x == x0 && y == y0 && fontPath == path && fontSize == size
      ensures config == cfg.(autoSizeToContent := true)
      ensures Vec2(width, height) == AutoSize(text.MeasuredSize(), cfg)
      ensures text.text == t && text.wrapEnabled == (cfg.enableWordWrap && cfg.maxWidth > 0.0)
      ensures text.alignment == AlignStart && text.justification == JustifyStart
    {
      var tp := MakeAutoText(fm, src, t, path, size, cfg);
      var tw, th := tp.MeasureText();
      var s := AutoSize(Vec2(tw, th), cfg);
      var bg := new RoundedRectangle(x0, y0, s.x, s.y, cfg.cornerRadius, cfg.backgroundColor, cfg.cornerSegments, tr);
      base := new RenderablePrimitive();
      background, text := bg, tp;
      x, y, width, height := x0, y0, s.x, s.y;
      fontSize, fontPath := size, path;
      config := cfg.(autoSizeToContent := true);
      new;
      Layout(background, text, x, y, width, height, config);
    }

    /** The fixed-size constructor: the background is the box, the text the padded inside of it. */
    constructor Fixed(fm: FontManager, src: FontSource, t: string, x0: real, y0: real, w: real, h: real,
                      path: string, size: real, cfg: TextBoxConfig, tr: Trig)
      requires fm.Valid() && WellFormedSource(src)
      modifies fm
      ensures Valid() && fm.Valid()
      ensures fresh(base) && fresh(background) && fresh(background.base) && fresh(text) && fresh(text.base)
      ensures x == x0 && y == y0 && width == w && height == h && fontPath == path && fontSize == size
      ensures config == cfg
      ensures text.text == t && text.wrapEnabled == cfg.enableWordWrap
      ensures text.alignment == AlignStart && text.justification == JustifyStart
    {
      var bg := new RoundedRectangle(x0, y0, w, h, cfg.cornerRadius, cfg.backgroundColor, cfg.cornerSegments, tr);
      var tp := MakeInnerText(fm, src, t, x0, y0, w, h, path, size, cfg);
      base := new RenderablePrimitive();
      background, text := bg, tp;
      x, y, width, height := x0, y0, w, h;
      fontSize, fontPath := size, path;
      config := cfg;
    }

    /** draw: the background, then the text. */
    method Draw(projection: Mat4, view: Mat4) returns (calls: seq<Option<DrawCall>>)
      requires Valid()
      modifies background, background.base, text, text.base
      ensures Valid() && text.Config() == old(text.Config())
      ensures |calls| == 2 && background.base.bound.Some? && calls[0] == IssueDraw(background.base.bound.value, projection, view)
      ensures text.font.None? ==> calls[1] == None
      ensures text.font.Some? ==>
                calls[1] == (if text.base.bound.Some? then IssueDraw(text.base.bound.value, projection, view) else None)
      ensures text.font.Some? && text.Quads() != [] ==>
                calls[1].Some? && Displays(text.base.bound.value.mesh, text.Quads(), QuadIndices(|text.Quads()| / 4))
    {
      calls := DrawChildren(background, text, projection, view);
    }

    /** setText: the text changes; an auto-sizing box takes the auto size of the new text and is laid out again. */
    method SetText(t: string)
      requires Valid()
      modifies this, background, text
      ensures Valid() && text.text == t
      ensures config == old(config) && x == old(x) && y == old(y)
      ensures config.autoSizeToContent ==> Vec2(width, height) == AutoSize(text.MeasuredSize(), config)
      ensures !config.autoSizeToContent ==> width == old(width) && height == old(height)
    {
      text.SetText(t);
      if config.autoSizeToContent {
        var tw, th := text.MeasureText();
        var s := AutoSize(Vec2(tw, th), config);
        width, height := s.x, s.y;
        Layout(background, text, x, y, width, height, config);
      }
    }

    method SetPosition(newX: real, newY: real)
      requires Valid()
      modifies this, background, text
      ensures Valid() && x == newX && y == newY
      ensures width == old(width) && height == old(height) && config == old(config) && text.text == old(text.text)
    {
      x, y := newX, newY;
      Layout(background, text, x, y, width, height, config);
    }

    method SetSize(newWidth: real, newHeight: real)
      requires Valid()
      modifies this, background, text
      ensures Valid() && width == newWidth && height == newHeight
      ensures x == old(x) && y == old(y) && config == old(config) && text.text == old(text.text)
    {
      width, height := newWidth, newHeight;
      Layout(background, text, x, y, width, height, config);
    }

    /** setFontSize: the text takes the size; the box keeps its size even when auto-sizing. */
    method SetFontSize(fm: FontManager, src: FontSource, size: real)
      requires Valid() && fm.Valid() && WellFormedSource(src)
      modifies this, text, fm
      ensures Valid() && fm.Valid() && fontSize == size && text.fontSize == size
      ensures width == old(width) && height == old(height) && x == old(x) && y == old(y) && config == old(config)
    {
      fontSize := size;
      text.SetFontSize(fm, src, size);
    }

    method SetTextAlignment(a: TextAlign)
      requires Valid()
      modifies text
      ensures Valid() && text.alignment == a && text.text == old(text.text)
    {
      text.SetAlignment(a);
    }

    method SetTextJustification(j: TextJustify)
      requires Valid()
      modifies text
      ensures Valid() && text.justification == j && text.text == old(text.text)
    {
      text.SetJustification(j);
    }

    /** setBackgroundColor: recorded in the config and given to the background. */
    method SetBackgroundColor(c: Color)
      requires Valid()
      modifies this, background.base
      ensures Valid() && config == old(config).(backgroundColor := c) && background.base.color == c
    {
      config := config.(backgroundColor := c);
      background.SetColor(c);
    }

    /** setTextColor: recorded in the config and given to the text. */
    method SetTextColor(c: Color)
      requires Valid()
      modifies this, text, text.base
      ensures Valid() && config == old(config).(textColor := c) && text.base.color == c
    {
      config := config.(textColor := c);
      text.SetColor(c);
    }

    /** setPadding: the four paddings, then the layout. */
    method SetPadding(left: real, right: real, top: real, bottom: real)
      requires Valid()
      modifies this, background, text
      ensures Valid()
      ensures config == old(config).(paddingLeft := left, paddingRight := right, paddingTop := top, paddingBottom := bottom)
      ensures x == old(x) && y == old(y) && width == old(width) && height == old(height)
    {
      config := config.(paddingLeft := left, paddingRight := right, paddingTop := top, paddingBottom := bottom);
      Layout(background, text, x, y, width, height, config);
    }

    /** setScreenSpace: the box's own flag, then both children's. */
    method SetScreenSpace(v: bool)
      requires Valid()
      modifies base, background.base, text.base
      ensures Valid()
      ensures base.screenSpace == v && background.base.screenSpace == v && text.base.screenSpace == v
    {
      var _ := base.SetScreenSpace(v);
      var _ := background.base.SetScreenSpace(v);
      var _ := text.base.SetScreenSpace(v);
    }

    /** setTransform: the box's own override, then both children's. */
    method SetTransform(m: Mat4)
      requires Valid()
      modifies base, background.base, text.base
      ensures Valid()
      ensures base.hasTransformOverride && base.transformOverride == m
      ensures background.base.hasTransformOverride && background.base.transformOverride == m
      ensures text.base.hasTransformOverride && text.base.transformOverride == m
    {
      base.SetTransform(m);
      background.base.SetTransform(m);
      text.base.SetTransform(m);
    }

    /** setColor: the box's own colour; its onColorChanged is empty, so the children keep theirs. */
    method SetColor(c: Color)
      requires Valid()
      modifies base
      ensures Valid() && base.color == c
    {
      base.SetColor(c);
    }

    function GetText(): string
      reads this, text
    {
      text.text
    }

    /** getContentSize: the padded measure of the text, floored at the padding. */
    method GetContentSize() returns (w: real, h: real)
      requires Valid()
      ensures Vec2(w, h) == ContentSize(text.MeasuredSize(), config)
    {
      var tw, th := text.MeasureText();
      var s := ContentSize(Vec2(tw, th), config);
      w, h := s.x, s.y;
    }
  }

  /**
   * The older TextBoxPrimitive: a fixed box whose UITransform lives in an
   * arena. Setting the position or size sets both the fields and the
   * transform; drawing follows the transform's absolute position.
   */
  class LegacyTextBox {
    const transforms: TransformArena
    const id: nat
    const background: RoundedRectangle
    const text: TextPrimitive
    var x: real
    var y: real
    var width: real
    var height: real
    var fontSize: real
    var fontPath: string
    var config: TextBoxConfig

    ghost predicate Valid()
      reads this, transforms, background, background.base, text, text.base
    {
      transforms.Valid() && id < |transforms.nodes|
      && Children(background, text)
      && LaidOut(background, text, x, y, width, height, config)
      && background.base.color == config.backgroundColor && text.base.color == config.textColor
      && text.fontSize == fontSize && text.fontPath == fontPath
    }

    /** The constructor: the transform at (x, y) with size (w, h), the background the box, the text inside the padding. */
    constructor(arena: TransformArena, fm: FontManager, src: FontSource, t: string, x0: real, y0: real,
                w: real, h: real, path: string, size: real, cfg: TextBoxConfig, tr: Trig)
      requires arena.Valid() && fm.Valid() && WellFormedSource(src)
      modifies arena, fm
      ensures Valid() && fm.Valid() && transforms == arena && id == |old(arena.nodes)|
      ensures fresh(background) && fresh(background.base) && fresh(text) && fresh(text.base)
      ensures transforms.nodes[id].position == Vec2(x0, y0) && transforms.nodes[id].size == Vec2(w, h)
      ensures transforms.nodes[id].parent.None? && !transforms.nodes[id].hasAnchor
      ensures x == x0 && y == y0 && width == w && height == h && config == cfg
      ensures text.text == t && text.wrapEnabled == cfg.enableWordWrap
      ensures text.alignment == AlignStart && text.justification == JustifyStart
    {
      var handle := arena.Add();
      arena.SetPosition(handle, x0, y0);
      arena.SetSize(handle, w, h);
      var bg := new RoundedRectangle(x0, y0, w, h, cfg.cornerRadius, cfg.backgroundColor, cfg.cornerSegments, tr);
      var tp := MakeInnerText(fm, src, t, x0, y0, w, h, path, size, cfg);
      transforms, id := arena, handle;
      background, text := bg, tp;
      x, y, width, height := x0, y0, w, h;
      fontSize, fontPath := size, path;
      config := cfg;
    }

    /**
     * draw: the box adopts the transform's absolute position, laying out
     * again only when that differs from its own; then the background and
     * the text are drawn, in that order.
     */
    method Draw(screenW: real, screenH: real, projection: Mat4, view: Mat4) returns (moved: bool, calls: seq<Option<DrawCall>>)
      requires Valid()
      modifies this, background, background.base, text, text.base
      ensures Valid() && Vec2(x, y) == transforms.Absolute(id, screenW, screenH)
      ensures moved <==> old(Vec2(x, y)) != transforms.Absolute(id, screenW, screenH)
      ensures width == old(width) && height == old(height) && config == old(config) && text.text == old(text.text)
      ensures |calls| == 2 && background.base.bound.Some? && calls[0] == IssueDraw(background.base.bound.value, projection, view)
      ensures text.font.Some? ==>
                calls[1] == (if text.base.bound.Some? then IssueDraw(text.base.bound.value, projection, view) else None)
    {
      var pos := transforms.Absolute(id, screenW, screenH);
      moved := pos.x != x || pos.y != y;
      if moved {
        x, y := pos.x, pos.y;
        Layout(background, text, x, y, width, height, config);
      }
      calls := DrawChildren(background, text, projection, view);
    }

    /** setText: forwards the text; the box keeps its size. */
    method SetText(t: string)
      requires Valid()
      modifies text
      ensures Valid() && text.text == t
    {
      text.SetText(t);
    }

    /** setPosition: the fields and the transform, then the layout. */
    method SetPosition(newX: real, newY: real)
      requires Valid()
      modifies this, transforms, background, text
      ensures Valid() && x == newX && y == newY && transforms.nodes[id].position == Vec2(newX, newY)
      ensures width == old(width) && height == old(height) && config == old(config)
    {
      x, y := newX, newY;
      transforms.SetPosition(id, newX, newY);
      Layout(background, text, x, y, width, height, config);
    }

    /** setSize: the fields and the transform, then the layout. */
    method SetSize(newWidth: real, newHeight: real)
      requires Valid()
      modifies this, transforms, background, text
      ensures Valid() && width == newWidth && height == newHeight && transforms.nodes[id].size == Vec2(newWidth, newHeight)
      ensures x == old(x) && y == old(y) && config == old(config)
    {
      width, height := newWidth, newHeight;
      transforms.SetSize(id, newWidth, newHeight);
      Layout(background, text, x, y, width, height, config);
    }

    method SetFontSize(fm: FontManager, src: FontSource, size: real)
      requires Valid() && fm.Valid() && WellFormedSource(src)
      modifies this, text, fm
      ensures Valid() && fm.Valid() && fontSize == size && text.fontSize == size
      ensures width == old(width) && height == old(height) && x == old(x) && y == old(y)
    {
      fontSize := size;
      text.SetFontSize(fm, src, size);
    }

    method SetTextAlignment(a: TextAlign)
      requires Valid()
      modifies text
      ensures Valid() && text.alignment == a
    {
      text.SetAlignment(a);
    }

    method SetTextJustification(j: TextJustify)
      requires Valid()
      modifies text
      ensures Valid() && text.justification == j
    {
      text.SetJustification(j);
    }

    method SetBackgroundColor(c: Color)
      requires Valid()
      modifies this, background.base
      ensures Valid() && config == old(config).(backgroundColor := c) && background.base.color == c
    {
      config := config.(backgroundColor := c);
      background.SetColor(c);
    }

    method SetTextColor(c: Color)
      requires Valid()
      modifies this, text, text.base
      ensures Valid() && config == old(config).(textColor := c) && text.base.color == c
    {
      config := config.(textColor := c);
      text.SetColor(c);
    }

    method SetPadding(left: real, right: real, top: real, bottom: real)
      requires Valid()
      modifies this, background, text
      ensures Valid()
      ensures config == old(config).(paddingLeft := left, paddingRight := right, paddingTop := top, paddingBottom := bottom)
      ensures x == old(x) && y == old(y) && width == old(width) && height == old(height)
    {
      config := config.(paddingLeft := left, paddingRight := right, paddingTop := top, paddingBottom := bottom);
      Layout(background, text, x, y, width, height, config);
    }

    function GetText(): string
      reads this, text
    {
      text.text
    }

    /** getContentSize: the padded measure of the text, floored at the padding. */
    method GetContentSize() returns (w: real, h: real)
      requires Valid()
      ensures Vec2(w, h) == ContentSize(text.MeasuredSize(), config)
    {
      var tw, th := text.MeasureText();
      var s := ContentSize(Vec2(tw, th), config);
      w, h := s.x, s.y;
    }
  }

  /** A second draw in the same window, with the transform untouched, does not lay the box out again. */
  method SecondDrawStays(b: LegacyTextBox, screenW: real, screenH: real, projection: Mat4, view: Mat4)
      returns (first: bool, second: bool)
    requires b.Valid()
    modifies b, b.background, b.background.base, b.text, b.text.base
    ensures !second
  {
    var c1, c2;
    first, c1 := b.Draw(screenW, screenH, projection, view);
    second, c2 := b.Draw(screenW, screenH, projection, view);
  }
}
