// TextPrimitive: a string laid out with a baked font into one textured quad
// per glyph. The layout itself (wrapping, splitting, pen positions, quad
// emission) is in TextLayout; this module holds the primitive's state, its
// setters, and the rebuild that turns the state into GPU buffers.
//
// The renderable keeps its own copy of the Mesh struct: it shares the
// primitive's buffers (a write into a shared buffer is visible to it) but
// not the counts. The model records whether each buffer is still shared.

module TextPrimitives {
  import opened Common
  import opened Fonts
  import opened Primitives
  import opened TextLayout

  /** A buffer is replaced when there is none yet or it is too small for the data. */
  predicate Reallocates<T>(buf: Option<seq<T>>, data: seq<T>)
  {
    buf.None? || |buf.value| < |data|
  }

  /**
   * The contents after copying `data` to the start of the buffer: the data
   * is readable at the start, a reused buffer keeps its length and its old
   * tail, and a replaced one holds the data alone.
   */
  function Written<T>(buf: Option<seq<T>>, data: seq<T>): (r: seq<T>)
    ensures |data| <= |r| && r[..|data|] == data
    ensures !Reallocates(buf, data) ==> |r| == |buf.value| && r[|data|..] == buf.value[|data|..]
  {
    if Reallocates(buf, data) then data else data + buf.value[|data|..]
  }

  /** A mesh whose counts cover exactly these vertices and indices, found at the start of its buffers. */
  predicate Displays(m: Mesh, vs: seq<Vertex>, ix: seq<int>)
  {
    m.vertexBuffer.Some? && m.indexBuffer.Some?
    && m.vertexCount == |vs| <= |m.vertexBuffer.value| && m.vertexBuffer.value[..|vs|] == vs
    && m.indexCount == |ix| <= |m.indexBuffer.value| && m.indexBuffer.value[..|ix|] == ix
  }

  /** What rebuild draws for these lines: nothing when no character is visible, else a quad per inked glyph. */
  function TextQuads(f: Font, lines: seq<string>, fr: TextFrame, col: Color): seq<Vertex>
    requires Baked(f)
  {
    if VisibleInLines(lines) == 0 then [] else TextVertices(f, lines, fr, col)
  }

  /** The empty text has nothing to draw. */
  lemma EmptyTextQuads(f: Font, fr: TextFrame, col: Color)
    requires Baked(f)
    ensures UnwrappedLines([]) == [[]]
    ensures TextQuads(f, UnwrappedLines([]), fr, col) == []
  {
    assert VisibleInLines([[]]) == VisibleInLines([]) + VisibleChars([]);
  }

  /** A single character other than '\n' is one line. */
  lemma SingleCharLines(c: char)
    requires c != '\n'
    ensures UnwrappedLines([c]) == [[c]]
  {
    var none: string := [];
    assert [c][..0] == none;
    assert NewlinePieces(none) == [none];
    assert none + [c] == [c];
    assert NewlinePieces([c]) == [none][..0] + [none + [c]];
    assert NewlinePieces([c]) == [[c]];
  }

  /** A one-character text whose glyph has ink draws one quad. */
  lemma SingleGlyphQuads(f: Font, c: char, fr: TextFrame, col: Color)
    requires Baked(f) && c != '\n' && c != ' ' && c != '\t'
    requires GetGlyph(f, c).Some? && HasQuad(GetGlyph(f, c).value)
    ensures |TextQuads(f, UnwrappedLines([c]), fr, col)| == 4
  {
    SingleCharLines(c);
    assert [[c]][..0] == [];
    assert [c][..0] == [];
    assert VisibleChars([c]) == 1;
    assert VisibleInLines([[c]]) == VisibleInLines([]) + VisibleChars([c]);
    BlockVerticesCount(f, [[c]], fr, PenStartY(fr, 1, f.lineHeight), col);
    assert InkedChars(f, [c]) == 1;
    assert InkedInLines(f, [[c]]) == InkedInLines(f, []) + InkedChars(f, [c]);
  }

  /** Everything the layout depends on. */
  datatype TextConfig = TextConfig(text: string, fontPath: string, fontSize: real, font: Option<Font>,
                                   frame: TextFrame, wrapEnabled: bool, color: Color)

  class TextPrimitive {
    const base: RenderablePrimitive
    var text: string
    var fontPath: string
    var x: real
    var y: real
    var fontSize: real
    var dirty: bool
    var hasBoxSize: bool
    var boxWidth: real
    var boxHeight: real
    var alignment: TextAlign
    var justification: TextJustify
    var wrapEnabled: bool
    var font: Option<Font>
    var mesh: Mesh
    /** Whether the renderable's copy of the mesh still refers to the primitive's vertex buffer. */
    var sharesVertexBuffer: bool
    /** Whether the renderable's copy of the mesh still refers to the primitive's index buffer. */
    var sharesIndexBuffer: bool

    /**
     * The base state holds, fonts come from the manager baked, a shared
     * buffer is the renderable's, and the renderable's material has the
     * primitive's colour.
     */
    ghost predicate Valid()
      reads this, base
    {
      base.Valid()
      && (font.Some? ==> Baked(font.value))
      && (sharesVertexBuffer ==> base.bound.Some? && base.bound.value.mesh.vertexBuffer == mesh.vertexBuffer)
      && (sharesIndexBuffer ==> base.bound.Some? && base.bound.value.mesh.indexBuffer == mesh.indexBuffer)
      && (base.bound.Some? ==> base.bound.value.materialColor == base.color)
    }

    function Frame(): TextFrame
      reads this
    {
      TextFrame(x, y, hasBoxSize, boxWidth, boxHeight, alignment, justification)
    }

    function Config(): TextConfig
      reads this, base
    {
      TextConfig(text, fontPath, fontSize, font, Frame(), wrapEnabled, base.color)
    }

    /** The GPU-side state: the mesh, the renderable and the sharing of buffers. */
    function Output(): (Mesh, Option<RenderableState>, bool, bool)
      reads this, base
    {
      (mesh, base.bound, sharesVertexBuffer, sharesIndexBuffer)
    }

    /** The lines rebuild lays out: wrapped to the box width when wrapping is on and there is a box, else split at '\n'. */
    function Lines(): seq<string>
      reads this
      requires font.Some? && Baked(font.value)
    {
      if wrapEnabled && hasBoxSize then Wrap(font, text, boxWidth) else UnwrappedLines(text)
    }

    /** The quads the current state should show. */
    function Quads(): seq<Vertex>
      reads this, base
      requires font.Some? && Baked(font.value)
    {
      TextQuads(font.value, Lines(), Frame(), base.color)
    }

    /** The lines rebuild lays out as written: wrapText's '\n' branch joins the pending word with no width test. */
    function LinesAsWritten(): seq<string>
      reads this
      requires font.Some? && Baked(font.value)
    {
      if wrapEnabled && hasBoxSize then WrapAsWritten(font, text, boxWidth) else UnwrappedLines(text)
    }

    /** The quads rebuild as written lays out. */
    function QuadsAsWritten(): seq<Vertex>
      reads this, base
      requires font.Some? && Baked(font.value)
    {
      TextQuads(font.value, LinesAsWritten(), Frame(), base.color)
    }

    /**
     * A clean primitive with a font shows exactly its quads with their
     * indices, and nothing when there are none.
     */
    ghost predicate Current()
      reads this, base
      requires Valid()
    {
      !dirty && font.Some? ==>
        if Quads() == [] then
          base.bound.None? || (base.bound.value.mesh.vertexCount == 0 && base.bound.value.mesh.indexCount == 0)
        else
          base.bound.Some? && Displays(base.bound.value.mesh, Quads(), QuadIndices(|Quads()| / 4))
    }

    /**
     * The constructor: the given text, position, font path and size, no
     * box, Start alignment and justification, no wrapping, the colour set,
     * and the font looked up in the manager (None when it fails to load).
     */
    constructor(fm: FontManager, src: FontSource, t: string, x0: real, y0: real, path: string, size: real, col: Color)
      requires fm.Valid() && WellFormedSource(src)
      modifies fm
      ensures Valid() && Current() && fresh(base) && fm.Valid()
      ensures text == t && x == x0 && y == y0 && fontPath == path && fontSize == size && dirty
      ensures !hasBoxSize && boxWidth == 0.0 && boxHeight == 0.0 && !wrapEnabled
      ensures alignment == AlignStart && justification == JustifyStart
      ensures base.color == col && base.bound == None && mesh == EmptyMesh
      ensures base.primitiveType == Triangle && base.screenSpace
      ensures font.Some? ==> font.value.valid
      ensures MakeFontKey(path, size) in old(fm.fontCache) ==> font == Some(old(fm.fontCache)[MakeFontKey(path, size)])
    {
      base := new RenderablePrimitive();
      text, fontPath, x, y, fontSize := t, path, x0, y0, size;
      dirty := true;
      hasBoxSize, boxWidth, boxHeight := false, 0.0, 0.0;
      alignment, justification, wrapEnabled := AlignStart, JustifyStart, false;
      font := None;
      mesh := EmptyMesh;
      sharesVertexBuffer, sharesIndexBuffer := false, false;
      new;
      SetColor(col);
      var loaded := fm.GetFont(path, size, src);
      font := loaded;
    }

    /** setColor with onColorChanged: stored, marked dirty and pushed into the renderable's material. */
    method SetColor(c: Color)
      requires Valid()
      modifies this, base
      ensures Valid() && dirty && Config() == old(Config()).(color := c)
      ensures mesh == old(mesh) && sharesVertexBuffer == old(sharesVertexBuffer) && sharesIndexBuffer == old(sharesIndexBuffer)
      ensures base.bound == (if old(base.bound).Some? then Some(old(base.bound).value.(materialColor := c)) else None)
      ensures base.primitiveType == old(base.primitiveType) && base.screenSpace == old(base.screenSpace)
    {
      base.SetColor(c);
      dirty := true;
      base.SetBoundColor(c);
    }

    method SetText(t: string)
      requires Valid()
      modifies this
      ensures Valid() && (old(Current()) ==> Current())
      ensures Config() == old(Config()).(text := t) && Output() == old(Output())
      ensures dirty == (old(dirty) || old(text) != t)
    {
      if text != t {
        text := t;
        dirty := true;
      }
    }

    method SetPosition(newX: real, newY: real)
      requires Valid()
      modifies this
      ensures Valid() && (old(Current()) ==> Current())
      ensures Config() == old(Config()).(frame := old(Frame()).(x := newX, y := newY)) && Output() == old(Output())
      ensures dirty == (old(dirty) || old(x) != newX || old(y) != newY)
    {
      if x != newX || y != newY {
        x, y := newX, newY;
        dirty := true;
      }
    }

    /** setFontSize: a new size fetches the font for (path, size) again. */
    method SetFontSize(fm: FontManager, src: FontSource, size: real)
      requires Valid() && fm.Valid() && WellFormedSource(src)
      modifies this, fm
      ensures Valid() && (old(Current()) ==> Current()) && fm.Valid()
      ensures old(fontSize) == size ==> Config() == old(Config()) && !fresh(fm) && unchanged(fm)
      ensures old(fontSize) != size ==> Config() == old(Config()).(fontSize := size, font := font)
      ensures old(fontSize) != size && MakeFontKey(fontPath, size) in old(fm.fontCache) ==>
                font == Some(old(fm.fontCache)[MakeFontKey(fontPath, size)])
      ensures Output() == old(Output()) && dirty == (old(dirty) || old(fontSize) != size)
    {
      if fontSize != size {
        var loaded := fm.GetFont(fontPath, size, src);
        fontSize, dirty, font := size, true, loaded;
      }
    }

    /** setFont: a new path fetches the font for (path, size) again. */
    method SetFont(fm: FontManager, src: FontSource, path: string)
      requires Valid() && fm.Valid() && WellFormedSource(src)
      modifies this, fm
      ensures Valid() && (old(Current()) ==> Current()) && fm.Valid()
      ensures old(fontPath) == path ==> Config() == old(Config()) && unchanged(fm)
      ensures old(fontPath) != path ==> Config() == old(Config()).(fontPath := path, font := font)
      ensures old(fontPath) != path && MakeFontKey(path, fontSize) in old(fm.fontCache) ==>
                font == Some(old(fm.fontCache)[MakeFontKey(path, fontSize)])
      ensures Output() == old(Output()) && dirty == (old(dirty) || old(fontPath) != path)
    {
      if fontPath != path {
        var loaded := fm.GetFont(path, fontSize, src);
        fontPath, dirty, font := path, true, loaded;
      }
    }

    /** The size measureText reports: the font's one-line measure of the text, or (0, 0) without a font. */
    function MeasuredSize(): Vec2
      reads this
      requires font.Some? ==> Baked(font.value)
    {
      if font.Some? then Vec2(AdvanceSum(font.value, text), font.value.lineHeight) else Vec2(0.0, 0.0)
    }

    /** measureText: the font's measure of the whole text (one line), or zero without a font. */
    method MeasureText() returns (width: real, height: real)
      requires Valid()
      ensures font.Some? ==> width == AdvanceSum(font.value, text) && height == font.value.lineHeight
      ensures font.None? ==> width == 0.0 && height == 0.0
      ensures Vec2(width, height) == MeasuredSize()
    {
      if font.Some? {
        width, height := Fonts.MeasureText(font.value, text);
      } else {
        width, height := 0.0, 0.0;
      }
    }

    /** setBoxSize: always marks dirty, even for the same size. */
    method SetBoxSize(w: real, h: real)
      requires Valid()
      modifies this
      ensures Valid() && Current() && dirty
      ensures Config() == old(Config()).(frame := old(Frame()).(hasBox := true, boxWidth := w, boxHeight := h))
      ensures Output() == old(Output())
    {
      hasBoxSize, boxWidth, boxHeight := true, w, h;
      dirty := true;
    }

    /** clearBoxSize: the box is dropped (its size kept) and the text marked dirty. */
    method ClearBoxSize()
      requires Valid()
      modifies this
      ensures Valid() && Current() && dirty
      ensures Config() == old(Config()).(frame := old(Frame()).(hasBox := false)) && Output() == old(Output())
    {
      hasBoxSize := false;
      dirty := true;
    }

    method SetAlignment(a: TextAlign)
      requires Valid()
      modifies this
      ensures Valid() && (old(Current()) ==> Current())
      ensures Config() == old(Config()).(frame := old(Frame()).(align := a)) && Output() == old(Output())
      ensures dirty == (old(dirty) || old(alignment) != a)
    {
      if alignment != a {
        alignment := a;
        dirty := true;
      }
    }

    method SetJustification(j: TextJustify)
      requires Valid()
      modifies this
      ensures Valid() && (old(Current()) ==> Current())
      ensures Config() == old(Config()).(frame := old(Frame()).(justify := j)) && Output() == old(Output())
      ensures dirty == (old(dirty) || old(justification) != j)
    {
      if justification != j {
        justification := j;
        dirty := true;
      }
    }

    method SetWrap(enabled: bool)
      requires Valid()
      modifies this
      ensures Valid() && (old(Current()) ==> Current())
      ensures Config() == old(Config()).(wrapEnabled := enabled) && Output() == old(Output())
      ensures dirty == (old(dirty) || old(wrapEnabled) != enabled)
    {
      if wrapEnabled != enabled {
        wrapEnabled := enabled;
        dirty := true;
      }
    }

    /**
     * The emission half of rebuild: the quads of the lines with their
     * indices, or none when no character is visible.
     */
    method EmitLines(lines: seq<string>) returns (vertices: seq<Vertex>, indices: seq<int>)
      requires Valid() && font.Some?
      ensures vertices == TextQuads(font.value, lines, Frame(), base.color)
      ensures |vertices| % 4 == 0 && indices == QuadIndices(|vertices| / 4)
    {
      var visible := CountVisible(lines);
      vertices, indices := [], [];
      if visible != 0 {
        vertices, indices := EmitQuads(font.value, lines, Frame(), base.color);
      }
    }

    /**
     * The layout half of rebuild as written, which changes nothing: the
     * lines from wrapText or the '\n' split, then their quads.
     */
    method LayoutAsWritten() returns (vertices: seq<Vertex>, indices: seq<int>)
      requires Valid() && font.Some?
      ensures vertices == QuadsAsWritten()
      ensures |vertices| % 4 == 0 && indices == QuadIndices(|vertices| / 4)
    {
      var lines: seq<string>;
      if wrapEnabled && hasBoxSize {
        lines := WrapText(font, text, boxWidth);
      } else {
        lines := SplitLines(text);
      }
      vertices, indices := EmitLines(lines);
    }

    /**
     * The layout half of rebuild with the corrected wrap: a '\n' places the
     * word it closes as a space does.
     */
    method Layout() returns (vertices: seq<Vertex>, indices: seq<int>)
      requires Valid() && font.Some?
      ensures vertices == Quads()
      ensures |vertices| % 4 == 0 && indices == QuadIndices(|vertices| / 4)
    {
      var lines: seq<string>;
      if wrapEnabled && hasBoxSize {
        lines := Wrap(font, text, boxWidth);
      } else {
        lines := SplitLines(text);
      }
      vertices, indices := EmitLines(lines);
    }

    /**
     * The buffer writes of rebuild: each buffer is reused when large enough
     * and replaced otherwise, and the counts are set. The renderable sees
     * the new contents of a buffer it still shares, and never the counts.
     */
    method WriteBuffers(vertices: seq<Vertex>, indices: seq<int>)
      requires Valid()
      modifies this, base
      ensures Valid() && Config() == old(Config()) && dirty == old(dirty)
      ensures mesh == Mesh(Some(Written(old(mesh.vertexBuffer), vertices)), Some(Written(old(mesh.indexBuffer), indices)),
                           |vertices|, |indices|)
      ensures sharesVertexBuffer == (old(sharesVertexBuffer) && !Reallocates(old(mesh.vertexBuffer), vertices))
      ensures sharesIndexBuffer == (old(sharesIndexBuffer) && !Reallocates(old(mesh.indexBuffer), indices))
      ensures base.bound.Some? == old(base.bound).Some?
      ensures base.bound.Some? ==>
                base.bound.value == old(base.bound.value).(mesh := old(base.bound.value.mesh).(
                  vertexBuffer := if sharesVertexBuffer then mesh.vertexBuffer else old(base.bound.value.mesh.vertexBuffer),
                  indexBuffer := if sharesIndexBuffer then mesh.indexBuffer else old(base.bound.value.mesh.indexBuffer)))
    {
      var reallocV := Reallocates(mesh.vertexBuffer, vertices);
      var reallocI := Reallocates(mesh.indexBuffer, indices);
      mesh := Mesh(Some(Written(mesh.vertexBuffer, vertices)), Some(Written(mesh.indexBuffer, indices)),
                   |vertices|, |indices|);
      sharesVertexBuffer := sharesVertexBuffer && !reallocV;
      sharesIndexBuffer := sharesIndexBuffer && !reallocI;
      if base.bound.Some? {
        var seen := base.bound.value.mesh;
        if sharesVertexBuffer {
          seen := seen.(vertexBuffer := mesh.vertexBuffer);
        }
        if sharesIndexBuffer {
          seen := seen.(indexBuffer := mesh.indexBuffer);
        }
        base.UpdateBoundMesh(seen);
      }
    }

    /**
     * ensureMesh: without a renderable (or without a font) a new one is
     * made over a copy of the mesh, in the primitive's colour and state;
     * otherwise nothing happens.
     */
    method EnsureMesh()
      requires Valid()
      modifies this, base
      ensures Valid() && Config() == old(Config()) && dirty == old(dirty) && mesh == old(mesh)
      ensures old(base.bound).Some? && font.Some? ==> Output() == old(Output())
      ensures old(base.bound).None? || font.None? ==>
                base.bound.Some? && base.bound.value.mesh == mesh && sharesVertexBuffer && sharesIndexBuffer
    {
      if base.bound.None? || font.None? {
        var r := base.MakeRenderable(mesh, base.color, base.primitiveType);
        sharesVertexBuffer, sharesIndexBuffer := true, true;
      }
    }

    /**
     * rebuild exactly as written: the lines are wrapText's as written, and
     * once a renderable exists it keeps the counts of the mesh it was made
     * with, whatever the text becomes; the empty text, a text without
     * visible characters and one without ink leave the previous text on
     * screen.
     */
    method RebuildAsWritten()
      requires Valid()
      modifies this, base
      ensures Valid() && Config() == old(Config())
      ensures old(!dirty || font.None? || text == []) ==> Output() == old(Output()) && dirty == old(dirty)
      ensures old(base.bound).Some? ==>
                base.bound.Some? && base.bound.value.mesh.vertexCount == old(base.bound.value.mesh.vertexCount)
                && base.bound.value.mesh.indexCount == old(base.bound.value.mesh.indexCount)
      ensures old(base.bound).None? && old(dirty) && font.Some? && text != [] && QuadsAsWritten() != [] ==>
                base.bound.Some? && Displays(base.bound.value.mesh, QuadsAsWritten(), QuadIndices(|QuadsAsWritten()| / 4))
    {
      if !dirty || font.None? || text == [] {
        return;
      }
      var vertices, indices := LayoutAsWritten();
      if vertices == [] {
        dirty := false;
        return;
      }
      WriteBuffers(vertices, indices);
      EnsureMesh();
      dirty := false;
    }

    /** A text with nothing to draw: the counts drop to zero, in the renderable too. */
    method ShowNothing()
      requires Valid()
      modifies this, base
      ensures Valid() && Config() == old(Config()) && dirty == old(dirty)
      ensures base.bound.None? || (base.bound.value.mesh.vertexCount == 0 && base.bound.value.mesh.indexCount == 0)
    {
      mesh := mesh.(vertexCount := 0, indexCount := 0);
      if base.bound.Some? {
        base.UpdateBoundMesh(mesh);
        sharesVertexBuffer, sharesIndexBuffer := true, true;
      }
    }

    /** The buffers written and the renderable given the new mesh, or made over it. */
    method Show(vertices: seq<Vertex>, indices: seq<int>)
      requires Valid()
      modifies this, base
      ensures Valid() && Config() == old(Config()) && dirty == old(dirty)
      ensures base.bound.Some? && Displays(base.bound.value.mesh, vertices, indices)
    {
      WriteBuffers(vertices, indices);
      if base.bound.Some? {
        base.UpdateBoundMesh(mesh);
      } else {
        var r := base.MakeRenderable(mesh, base.color, base.primitiveType);
      }
      sharesVertexBuffer, sharesIndexBuffer := true, true;
    }

    /**
     * rebuild with the renderable kept up to date: after the buffers are
     * written the renderable gets the new mesh (as the shape primitives do
     * with updateMesh), and a text with nothing to draw empties it.
     */
    method Rebuild()
      requires Valid() && Current()
      modifies this, base
      ensures Valid() && Current() && Config() == old(Config())
      ensures old(!dirty || font.None?) ==> Output() == old(Output()) && dirty == old(dirty)
      ensures font.Some? ==> !dirty
    {
      if !dirty || font.None? {
        return;
      }
      var vertices, indices := Layout();
      if vertices == [] {
        ShowNothing();
      } else {
        Show(vertices, indices);
      }
      dirty := false;
    }

    /** draw as written: nothing without a font; otherwise rebuild and draw the renderable, if any. */
    method DrawAsWritten(projection: Mat4, view: Mat4) returns (d: Option<DrawCall>)
      requires Valid()
      modifies this, base
      ensures Valid() && Config() == old(Config())
      ensures font.None? ==> d == None && Output() == old(Output())
      ensures font.Some? ==> d == (if base.bound.Some? then IssueDraw(base.bound.value, projection, view) else None)
      ensures old(text) == [] ==> Output() == old(Output())
      ensures old(base.bound).Some? ==>
                base.bound.Some? && base.bound.value.mesh.indexCount == old(base.bound.value.mesh.indexCount)
      ensures old(base.bound).None? && old(dirty) && font.Some? && text != [] && QuadsAsWritten() != [] ==>
                d.Some? && d.value.indexed && d.value.count == 6 * (|QuadsAsWritten()| / 4)
    {
      if font.None? {
        return None;
      }
      RebuildAsWritten();
      if base.bound.None? {
        return None;
      }
      d := IssueDraw(base.bound.value, projection, view);
      if old(base.bound).None? && old(dirty) && text != [] && QuadsAsWritten() != [] {
        QuadIndicesShape(|QuadsAsWritten()| / 4);
      }
    }

    /**
     * draw: after it, a primitive with a font draws exactly the quads of
     * its current text, six indices per quad, and nothing when there are
     * none.
     */
    method Draw(projection: Mat4, view: Mat4) returns (d: Option<DrawCall>)
      requires Valid() && Current()
      modifies this, base
      ensures Valid() && Current() && Config() == old(Config())
      ensures font.None? ==> d == None && Output() == old(Output())
      ensures font.Some? ==> !dirty && d == (if base.bound.Some? then IssueDraw(base.bound.value, projection, view) else None)
      ensures font.Some? && Quads() == [] ==> d.None? || d.value.count == 0
      ensures font.Some? && Quads() != [] ==>
                d.Some? && d.value.indexed && d.value.count == 6 * (|Quads()| / 4)
                && Displays(base.bound.value.mesh, Quads(), QuadIndices(|Quads()| / 4))
    {
      if font.None? {
        return None;
      }
      Rebuild();
      if base.bound.None? {
        return None;
      }
      d := IssueDraw(base.bound.value, projection, view);
      if Quads() != [] {
        QuadIndicesShape(|Quads()| / 4);
      }
    }
  }

  /**
   * As written: a primitive showing "H" whose text is then cleared keeps
   * drawing the quad of the "H".
   */
  method StaleTextExample(tp: TextPrimitive, projection: Mat4, view: Mat4) returns (first: Option<DrawCall>, second: Option<DrawCall>)
    requires tp.Valid() && tp.font.Some? && !tp.wrapEnabled && tp.dirty && tp.base.bound == None && tp.text == "H"
    requires GetGlyph(tp.font.value, 'H').Some? && HasQuad(GetGlyph(tp.font.value, 'H').value)
    modifies tp, tp.base
    ensures tp.text == [] && first.Some? && first.value.count == 6
    ensures second.Some? && second.value.count == 6
  {
    SingleGlyphQuads(tp.font.value, 'H', tp.Frame(), tp.base.color);
    first := tp.DrawAsWritten(projection, view);
    tp.SetText([]);
    second := tp.DrawAsWritten(projection, view);
  }

  /** Kept up to date, the same sequence draws nothing for the cleared text. */
  method ClearedTextExample(tp: TextPrimitive, projection: Mat4, view: Mat4) returns (first: Option<DrawCall>, second: Option<DrawCall>)
    requires tp.Valid() && tp.Current() && tp.font.Some? && !tp.wrapEnabled && tp.text == "H"
    requires GetGlyph(tp.font.value, 'H').Some? && HasQuad(GetGlyph(tp.font.value, 'H').value)
    modifies tp, tp.base
    ensures tp.text == [] && first.Some? && first.value.count == 6
    ensures second.None? || second.value.count == 0
  {
    SingleGlyphQuads(tp.font.value, 'H', tp.Frame(), tp.base.color);
    first := tp.Draw(projection, view);
    tp.SetText([]);
    EmptyTextQuads(tp.font.value, tp.Frame(), tp.base.color);
    second := tp.Draw(projection, view);
  }
}
