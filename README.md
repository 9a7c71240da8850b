# Layout and geometry core of a Metal UI engine, in Dafny

This project models the layout and geometry half of a small C++ engine
that draws 2-D UI and world-space widgets with Metal. It leaves Metal,
GLFW and stb_truetype aside and keeps the logic that decides what gets
drawn:

- **Text** (`TextLayout`, `TextPrimitives`, `Fonts`). The baked glyph table (codes 32..127) and `measureText`. The font cache keyed by `path@int(size)`. `TextPrimitive::wrapText`, the greedy word wrapper. The layout half of `rebuild`: splitting on `'\n'`, the visible-glyph check, pen start positions per alignment and justification, and one quad per inked glyph with its six 16-bit indices. The primitive's change-only setters and dirty flag, and the renderable that shares its buffers.
- **Transforms** (`Transforms`). `UITransform` is held in an arena. Parents are indices, and a ghost rank witnesses that parent chains end. The model covers the nine-point anchor table, the reference box (the parent's or the screen's), the recursive absolute position, and the change-only setters that raise the dirty flag.
- **Primitives and shapes** (`Primitives`, `Shapes`, `LegacyShapes`, `Factories`). `RenderablePrimitive`'s state and how it pushes that state into its bound renderable. The rectangle's index list by topology. The rounded rectangle's radius clamp and the triangle fans of the rounded rectangle and the circle. The index normalisation of the two point factories, with C++'s truncating `%` and the "add N if negative" step written out. The older `UIPrimitive` family.
- **Composition** (`TextBoxes`, `Containers`, `UIWrappers`). Both versions of `TextBoxPrimitive`: padding, auto-size with clamping to a maximum, and child layout. Both versions of `UIElement`: the cached background quad, the corner auto-anchor, and the max-of-children content size. `WorldElement`. The `UI*Primitive` wrappers, which keep their transform's size in step with their content.
- **Buttons** (`Buttons`). `ButtonPrimitive`'s colour derivation. The hover/press/click state machine that `UIButtonPrimitive` and `WorldButtonPrimitive` run each frame, specified once (`StepFrame`). The two hit tests.
- **Utilities** (`Grids`, `Input`, `EngineStore`). `Utils::Grid<T>`, a column-major grid with checked and unchecked access. `InputState`. `EngineIO`'s typed key-value store.

Modelling choices:

- Pixels, colours and glyph metrics are `real`.
- GPU buffers are sequences of vertices and indices.
- A `shared_ptr` that may be null is an `Option`.
- Objects whose methods update their fields are classes with `modifies` frames.
- The window size, the mouse and keyboard, trigonometry (`Trig`) and the font file's contents (`FontSource`) are parameters.
- Matrices are opaque values (`Mat4`). Matrix products are not computed.

Where a header comment and the code disagree, the model follows the code.

## Model

| member | source | states |
|---|---|---|
| Common.U16 | src/components/renderables/primitives/UIPrimitiveRoundedRectangle.cpp:53-54 | a ushort cast stays below 2^16, never grows, and keeps values already in range |
| Common.Max | src/components/renderables/primitives/2d/RoundedRectanglePrimitive.cpp:26 | std::max: at least both arguments and equal to one of them |
| Common.Min | src/components/renderables/primitives/2d/RoundedRectanglePrimitive.cpp:25-26 | std::min: at most both arguments and equal to one of them |
| Common.Somes | src/engine/components/renderables/core/UIElement.cpp:182-184 | the handles a null-skipping loop visits are never more than the list holds |
| Common.SomesSnoc | src/engine/components/renderables/core/UIElement.cpp:182-184 | one more handle adds its value when present and nothing when null |
| Common.SomesMembers | src/engine/components/renderables/core/UIElement.cpp:182-184 | a value is visited exactly when a handle to it is in the list |
| Common.VisitPresent | src/engine/components/renderables/core/UIElement.cpp:182-184 | the loop visits exactly the present handles, in list order |
| Factories.TruncMod | src/factories/CircleFactory.h:31 | C++ `%` with a positive divisor: `a == q·n + r` with `|r| < n`, and `r` takes the sign of `a` |
| Factories.NormalizeIndexIsEuclidean | src/factories/CircleFactory.h:31-33 | the truncating `%` followed by "add n if negative" is the Euclidean remainder, in `[0, n)` |
| Factories.NormalizeIndexPeriodic | src/factories/RoundedRectangleFactory.h:43-44 | shifting an index by one period leaves its normalised value unchanged |
| Factories.CirclePointGuard | src/factories/CircleFactory.h:26-29 | a quality of 0 or below gives the origin for every index |
| Factories.CirclePointPeriodic | src/factories/CircleFactory.h:24-39 | `getPoint(k + quality) == getPoint(k)` for every integer `k`, negative ones included |
| Factories.PointAngleRange | src/factories/CircleFactory.h:15-35 | every angle `i·deltaAngle`, with `deltaAngle = 2π/quality`, lies in `[0, 2π)` |
| Factories.PointAngleInjective | src/factories/CircleFactory.h:31-35 | indices with different normalised values get different angles |
| Factories.MadeFactoryShape | src/factories/RoundedRectangleFactory.h:21-35 | the constructor gives `perCorner = max(1, q)`, an inner circle of `4·perCorner` points with the same radius, and `pointCount() > 0`, so the `N <= 0` guard is unreachable |
| Factories.Corner | src/factories/RoundedRectangleFactory.h:46 | `corner = i / perCorner` lies in `[0, 4)` and brackets `i` |
| Factories.InCorner | src/factories/RoundedRectangleFactory.h:47 | `inCorner = i % perCorner` lies in `[0, perCorner)` |
| Factories.CircleIndex | src/factories/RoundedRectangleFactory.h:51-52 | `circleIndex` lies in `[0, 4·perCorner)`, sits in quadrant `(corner + 3) % 4`, and keeps the offset within the corner |
| Factories.CornerQuadrants | src/factories/RoundedRectangleFactory.h:51-54 | corner 0 uses the circle's fourth quadrant, corner 1 the first, corner 2 the second and corner 3 the third |
| Factories.RoundedPointPeriodic | src/factories/RoundedRectangleFactory.h:39-55 | `getPoint(k + pointCount()) == getPoint(k)` for every integer `k` |
| Fonts.BakeGlyph | src/core/FontManager.cpp:105-120 | a baked glyph's atlas box is the packed box divided by the 512×512 atlas, so it lies in `[0, 1]` when the packed box fits; its width, height and advance are the packed ones |
| Fonts.BakeGlyphs | src/core/FontManager.cpp:83-120 | the table has exactly `NUM_CHARS` (96) entries, and entry `i` is packed char `i` baked |
| Fonts.NewFont | src/core/FontManager.cpp:13-65 | loading follows the constructor step by step: it agrees with the font that the loader's outcome determines |
| Fonts.FontValidity | src/core/FontManager.cpp:20-60 | a font is valid iff the file opened, packing succeeded and the texture was created; an open, read or init failure leaves it invalid with no glyphs; once opened, the table is baked and `lineHeight = (ascent − descent + lineGap)·scale` |
| Fonts.GetGlyph | src/core/FontManager.cpp:147-154 | gives a glyph exactly when `0 <= code − 32 < 96`, and that glyph is entry `code − 32` |
| Fonts.ControlCharsHaveNoGlyph | src/core/FontManager.cpp:147-154 | `'\n'` and `'\t'` have no glyph; `' '` has one |
| Fonts.MeasureText | src/core/FontManager.cpp:156-167 | the width is the sum of the advances of the characters that have glyphs; the height is `lineHeight` |
| Fonts.AdvanceSumAppend | src/core/FontManager.cpp:156-167 | the measured width is additive over concatenation |
| Fonts.MeasureIgnoresNewline | src/core/FontManager.cpp:156-167 | the text is measured as one line: a `'\n'` adds nothing to the width |
| Fonts.AdvanceSumMonotone | src/core/FontManager.cpp:156-167 | with non-negative advances, a longer text never measures narrower |
| Fonts.AdvanceSumNonNegative | src/core/FontManager.cpp:156-167 | with non-negative advances, the width is never negative |
| Fonts.TruncToInt | src/core/FontManager.cpp:184 | the `(int)` conversion truncates toward zero |
| Fonts.NatToString | src/core/FontManager.cpp:184 | `std::to_string` gives at least one digit, all characters are digits, and a single digit exactly below 10 |
| Fonts.IntToStringInjective | src/core/FontManager.cpp:184 | different integers print differently |
| Fonts.IntToStringSign | src/core/FontManager.cpp:184 | the sign character appears exactly for negative values |
| Fonts.FontKeySharing | src/core/FontManager.cpp:182-185 | for one path, two sizes share a cache key exactly when their integer parts agree |
| Fonts.FontManager.constructor | src/core/FontManager.cpp:170-174 | the manager starts without a device and with an empty cache |
| Fonts.FontManager.Initialize | src/core/FontManager.cpp:176-180 | records the device and leaves the cache as it was |
| Fonts.FontManager.LoadFont | src/core/FontManager.cpp:187-204 | without a device, or with an invalid font, returns nothing and stores nothing; otherwise stores the font under its key and returns it |
| Fonts.FontManager.GetFont | src/core/FontManager.cpp:206-216 | a key hit returns the cached font without loading; a miss returns what `loadFont` returns, with `loadFont`'s effect on the cache |
| Transforms.AnchorPointGrid | src/components/renderables/core/UITransform.cpp:109-132 | the nine points map to `{0, w/2, w} × {0, h/2, h}`, with the top row at `h` and the bottom row at 0; Center is `(w/2, h/2)`, and TopLeft + BottomRight = BottomLeft + TopRight = `(w, h)` |
| Transforms.UnanchoredPosition | src/components/renderables/core/UITransform.cpp:60-68 | unanchored, the absolute position is the parent's absolute position plus the local one, or the local one when there is no parent |
| Transforms.AnchoredPosition | src/components/renderables/core/UITransform.cpp:83-107 | anchored, the position is `base + offset(point, refW, refH) − offset(point, w, h) + (offsetX, offsetY)`; the reference box is the parent's absolute position and size for a Parent anchor with a parent, and the origin with the screen size otherwise |
| Transforms.AnchoredIgnoresLocal | src/components/renderables/core/UITransform.cpp:60-74 | anchored, the local position plays no part |
| Transforms.ScreenAnchored | src/components/renderables/core/UITransform.cpp:89-101 | a Screen anchor, or a Parent anchor without a parent, resolves against the window box alone |
| Transforms.AnchorExample | src/components/renderables/core/UITransform.cpp:103-106 | BottomRight with offset `(−10, 10)`, a 200×50 element and an 800×600 screen resolves to `(590, 10)`: its right edge sits 10 px in from the screen's |
| Transforms.AbsoluteIgnoresDirty | src/components/renderables/core/UITransform.cpp:60-107 | the dirty flags play no part in any absolute position |
| Transforms.TransformArena.Add | src/components/renderables/core/UITransform.cpp:4-11 | a new transform sits at the origin, 0×0, unanchored, with no parent and dirty; the others are unchanged |
| Transforms.TransformArena.SetPosition | src/components/renderables/core/UITransform.cpp:13-19 | only a different position is stored and marks the transform dirty; the same position changes nothing |
| Transforms.TransformArena.SetSize | src/components/renderables/core/UITransform.cpp:21-27 | only a different size is stored and marks the transform dirty; the same size changes nothing |
| Transforms.TransformArena.SetAnchor | src/components/renderables/core/UITransform.cpp:29-44 | always stores the anchor, sets `hasAnchor` and marks the transform dirty |
| Transforms.TransformArena.ClearAnchor | src/components/renderables/core/UITransform.cpp:46-50 | always clears `hasAnchor` and marks the transform dirty |
| Transforms.TransformArena.SetParent | src/components/renderables/core/UITransform.cpp:52-58 | only a different parent is stored and marks the transform dirty |
| Transforms.TransformArena.Update | src/components/renderables/core/UITransform.cpp:76-81 | marks an anchored transform dirty and changes nothing else: every absolute position is as before |
| Transforms.TransformArena.ClearDirty | src/components/renderables/core/UITransform.h:57 | clears the flag only |
| Transforms.AbsoluteFrame | src/components/renderables/core/UITransform.cpp:60-68 | changing one transform, its parent link kept, leaves the parent chains acyclic and moves no other transform that does not have it among its ancestors (`Descends`) |
| Transforms.LowerRankNotDescendant | src/components/renderables/core/UITransform.cpp:60-68 | a transform ranked below another is never among its descendants, so changing a parent never moves it |
| Primitives.IssueDraw | src/components/engine/Renderable.cpp:21-48 | a draw call is issued exactly when the mesh has an index or a vertex buffer; it is indexed with indexCount when there is an index buffer, otherwise it draws vertexCount vertices, and it carries the renderable's topology, colour and transform with the given projection and view |
| Primitives.RenderablePrimitive.constructor | src/components/renderables/primitives/RenderablePrimitive.h:119-126 | a new primitive is white, in screen space, with no transform override (the identity), topology triangle and no bound renderable |
| Primitives.RenderablePrimitive.ApplyState | src/components/renderables/primitives/RenderablePrimitive.h:105-112 | the renderable gets the primitive's topology and screen-space flag, and the override transform only when one is set; the mesh and material colour are left alone |
| Primitives.ApplyStateIdempotent | src/components/renderables/primitives/RenderablePrimitive.h:105-112 | applying the state to a renderable that already agrees changes nothing, so applying it twice equals applying it once |
| Primitives.RenderablePrimitive.SetPrimitiveType | src/components/renderables/primitives/RenderablePrimitive.h:23-30 | reports a change exactly when the type differs; an unchanged type leaves the object untouched; otherwise the new type is stored and pushed into the bound renderable, and nothing else changes |
| Primitives.RenderablePrimitive.SetColor | src/components/renderables/primitives/RenderablePrimitive.h:34-37 | always stores the colour and changes nothing else |
| Primitives.RenderablePrimitive.SetScreenSpace | src/components/renderables/primitives/RenderablePrimitive.h:41-48 | reports a change exactly when the flag differs; otherwise the object is untouched; a new value is stored and pushed into the bound renderable |
| Primitives.RenderablePrimitive.SetTransform | src/components/renderables/primitives/RenderablePrimitive.h:56-62 | raises the override flag, stores the matrix and pushes it into the bound renderable |
| Primitives.RenderablePrimitive.ClearTransform | src/components/renderables/primitives/RenderablePrimitive.h:64-70 | drops the override flag, resets the matrix to the identity and pushes the identity into the bound renderable |
| Primitives.RenderablePrimitive.RegisterRenderable | src/components/renderables/primitives/RenderablePrimitive.h:91-99 | binds the renderable (or nothing) after applying the primitive's state to it; the primitive's own fields are unchanged |
| Primitives.RenderablePrimitive.UnregisterRenderable | src/components/renderables/primitives/RenderablePrimitive.h:101-103 | leaves nothing bound and the primitive's fields unchanged |
| Primitives.RenderablePrimitive.MakeRenderable | src/components/renderables/primitives/RenderablePrimitive.h:75-89 | the new renderable holds the mesh, the colour and the requested topology, the primitive's screen-space flag and its transform, and it becomes the bound one |
| Primitives.RenderablePrimitive.UpdateBoundMesh | src/components/engine/Renderable.cpp:50-70 | the bound renderable gets the new mesh and keeps everything else |
| Primitives.RenderablePrimitive.SetBoundColor | src/components/renderables/primitives/RenderablePrimitive.h:34-37 | the bound renderable's material colour becomes the new colour; nothing else changes |
| Shapes.Rectangle.DrawScreenSpace | src/components/renderables/primitives/RenderablePrimitive.h:18-21 | the draw call is the normal draw with the identity as the view matrix |
| Shapes.RectangleCorners | src/components/renderables/primitives/2d/RectanglePrimitive.cpp:20-30 | the four vertices are corners of the box l..l+w × t..t+h, consecutive ones (cyclically) share an edge, and all four differ |
| Shapes.RectangleUV | src/components/renderables/primitives/2d/RectanglePrimitive.cpp:20-30 | each corner's texture coordinate is its relative place in the box, (x − l)/w and (y − t)/h |
| Shapes.RectangleIndices | src/components/renderables/primitives/2d/RectanglePrimitive.cpp:32-45 | the index list has 4 to 6 entries, every one a corner number below 4 |
| Shapes.RectangleTriangulation | src/components/renderables/primitives/2d/RectanglePrimitive.cpp:32-45 | as a triangle list or a triangle strip the indices draw exactly two triangles that cover all four corners and share one diagonal |
| Shapes.RectangleOutline | src/components/renderables/primitives/2d/RectanglePrimitive.cpp:37-40 | the line-strip list visits the corners in order and returns to its start |
| Shapes.ReuseIndexBuffer | src/components/renderables/primitives/2d/RectanglePrimitive.cpp:55-62 | the written buffer starts with the new indices; an existing buffer that is large enough keeps its length and its tail, otherwise the buffer is exactly the new list |
| Shapes.Rectangle.constructor | src/components/renderables/primitives/2d/RectanglePrimitive.cpp:7-11 | the box is stored, the colour set, the topology is triangles, the rectangle is dirty with an empty mesh and nothing bound |
| Shapes.Rectangle.SetPosition | src/engine/components/renderables/primitives/2d/RectanglePrimitive.h:15 | the corner moves, the size and mesh are kept, and the rectangle becomes dirty |
| Shapes.Rectangle.SetSize | src/engine/components/renderables/primitives/2d/RectanglePrimitive.h:16 | the size changes, the corner and mesh are kept, and the rectangle becomes dirty |
| Shapes.Rectangle.SetColor | src/components/renderables/primitives/2d/RectanglePrimitive.cpp:99-108 | the colour is stored and only the bound material takes it; the mesh and topology are unchanged |
| Shapes.Rectangle.SetPrimitiveTypeAsWritten | src/components/renderables/primitives/RenderablePrimitive.h:23-30 | the inherited setter stores the topology and pushes it into the bound renderable and does nothing else: the rectangle does not become dirty |
| Shapes.Rectangle.SetPrimitiveType | src/components/renderables/primitives/RenderablePrimitive.h:23-30 | corrected: a real change of topology also marks the rectangle dirty; an unchanged topology keeps the dirty flag |
| Shapes.TopologyTestInert | src/components/renderables/primitives/2d/RectanglePrimitive.cpp:15-16 | because the bound renderable always carries the current topology, the skip test reduces to "clean, has a vertex buffer and is bound" |
| Shapes.Rectangle.EnsureMesh | src/components/renderables/primitives/2d/RectanglePrimitive.cpp:13-88 | when the skip test holds the mesh and binding are unchanged; otherwise the mesh is rebuilt from the current box and topology and bound to a new renderable; afterwards the rectangle is clean |
| Shapes.Rectangle.Draw | src/components/renderables/primitives/2d/RectanglePrimitive.cpp:90-97 | draws after ensureMesh; the draw call is the bound renderable's |
| Shapes.StaleTopologyExample | src/components/renderables/primitives/RenderablePrimitive.h:23-30 | as written, a strip rectangle switched to triangles still sends its 4 strip indices as a triangle list: one triangle, half the box |
| Shapes.TopologyChangeExample | src/components/renderables/primitives/2d/RectanglePrimitive.cpp:32-45 | with the corrected setter the same steps send 6 indices: two triangles |
| Shapes.DrawMatchesTopology | src/components/renderables/primitives/2d/RectanglePrimitive.cpp:13-97 | with the corrected setter, a draw always sends the index list of the current topology with the current colour |
| Shapes.FillFanIndices | src/components/renderables/primitives/2d/RoundedRectanglePrimitive.cpp:52-57 | the index loop writes exactly the fan index array over a zero-filled array |
| Shapes.FanTripleAt | src/engine/components/renderables/primitives/2d/CirclePrimitive.cpp:40-45 | triple i of the fan is (0, (ushort)(i + 1), (ushort)(i + 2)) |
| Shapes.FanIndicesBound | src/engine/components/renderables/primitives/2d/CirclePrimitive.cpp:40-45 | every fan index is at most triangles + 1 |
| Shapes.FanTriangles | src/components/renderables/primitives/2d/RoundedRectanglePrimitive.cpp:52-57 | while the indices fit in a ushort, triangle i is (centre, rim i, rim i + 1) |
| Shapes.ClampedRadius | src/components/renderables/primitives/2d/RoundedRectanglePrimitive.cpp:25-26 | the radius used is non-negative, never above the requested one (unless that is negative), at most half the width and the height, and equal to the request when that already fits |
| Shapes.RoundedVertices | src/components/renderables/primitives/2d/RoundedRectanglePrimitive.cpp:29-49 | there are N + 2 vertices for N outline points |
| Shapes.BuildRoundedVertices | src/components/renderables/primitives/2d/RoundedRectanglePrimitive.cpp:33-49 | the vertex loop computes exactly the rounded-box vertex list |
| Shapes.RoundedFanCloses | src/components/renderables/primitives/2d/RoundedRectanglePrimitive.cpp:29-49 | vertex k + 1 is outline point k placed in the box, and the last vertex repeats the first rim vertex, closing the fan |
| Shapes.RimVertexPlacement | src/components/renderables/primitives/2d/RoundedRectanglePrimitive.cpp:44-48 | a rim vertex sits at the box corner plus the outline point, with u = x/w and v = 1 − y/h when the size is positive and 0 otherwise |
| Shapes.RoundedMesh | src/components/renderables/primitives/2d/RoundedRectanglePrimitive.cpp:52-65 | the mesh has N + 2 vertices and 3N indices |
| Shapes.RoundedMeshIndices | src/components/renderables/primitives/2d/RoundedRectanglePrimitive.cpp:52-65 | the buffers hold exactly the counted entries and every index names a vertex of the mesh |
| Shapes.BuildRoundedMesh | src/components/renderables/primitives/2d/RoundedRectanglePrimitive.cpp:19-65 | the builder produces exactly the rounded-box mesh |
| Shapes.RoundedRectangle.constructor | src/components/renderables/primitives/2d/RoundedRectanglePrimitive.cpp:6-17 | the box, radius and colour are stored, perCorner is max(1, q), the topology is triangles and the shape is dirty |
| Shapes.RoundedRectangle.SetPosition | src/engine/components/renderables/primitives/2d/RoundedRectanglePrimitive.h:23 | moves the box and marks it dirty, nothing else changes |
| Shapes.RoundedRectangle.SetSize | src/engine/components/renderables/primitives/2d/RoundedRectanglePrimitive.h:24 | resizes the box and marks it dirty, nothing else changes |
| Shapes.RoundedRectangle.SetRadius | src/engine/components/renderables/primitives/2d/RoundedRectanglePrimitive.h:25 | stores the radius and marks the shape dirty |
| Shapes.RoundedRectangle.SetQualityPerCorner | src/engine/components/renderables/primitives/2d/RoundedRectanglePrimitive.h:26 | perCorner becomes max(1, q) and the shape is dirty |
| Shapes.RoundedRectangle.SetColor | src/components/renderables/primitives/2d/RoundedRectanglePrimitive.cpp:108-117 | the colour is stored and the bound material takes it |
| Shapes.RoundedRectangle.Rebuild | src/components/renderables/primitives/2d/RoundedRectanglePrimitive.cpp:19-97 | skipped when clean with a vertex buffer; otherwise the fan is rebuilt and the bound renderable updated with it; afterwards the shape is clean and its mesh is the fan of its current box |
| Shapes.RoundedRectangle.Draw | src/components/renderables/primitives/2d/RoundedRectanglePrimitive.cpp:99-106 | draws after rebuild; the draw call is the bound renderable's |
| Shapes.CircleVertices | src/engine/components/renderables/primitives/2d/CirclePrimitive.cpp:22-37 | there are segments + 2 vertices: the centre and the rim points 0..segments |
| Shapes.BuildCircleVertices | src/engine/components/renderables/primitives/2d/CirclePrimitive.cpp:26-37 | the vertex loop computes exactly the circle vertex list |
| Shapes.CircleIndexShape | src/engine/components/renderables/primitives/2d/CirclePrimitive.cpp:24-45 | the index array has 3·(segments + 1) entries, the last triple stays (0, 0, 0), and every index is below segments + 2 |
| Shapes.BuildCircleMesh | src/engine/components/renderables/primitives/2d/CirclePrimitive.cpp:15-53 | the builder produces exactly the circle mesh |
| Shapes.Circle.constructor | src/engine/components/renderables/primitives/2d/CirclePrimitive.cpp:7-13 | centre, radius, colour and segments are stored, the topology is triangles and the circle is dirty |
| Shapes.Circle.SetCenter | src/engine/components/renderables/primitives/2d/CirclePrimitive.h:16-21 | moves the centre and marks the circle dirty |
| Shapes.Circle.SetRadius | src/engine/components/renderables/primitives/2d/CirclePrimitive.h:22-26 | stores the radius and marks the circle dirty |
| Shapes.Circle.SetColor | src/engine/components/renderables/primitives/2d/CirclePrimitive.cpp:97-106 | the colour is stored and the bound material takes it |
| Shapes.Circle.Rebuild | src/engine/components/renderables/primitives/2d/CirclePrimitive.cpp:15-85 | skipped when clean with a vertex buffer; otherwise the fan is rebuilt and bound; afterwards the circle is clean |
| Shapes.Circle.Draw | src/engine/components/renderables/primitives/2d/CirclePrimitive.cpp:87-95 | draws after rebuild; the draw call is the bound renderable's |
| Shapes.Composite.constructor | src/engine/components/renderables/primitives/2d/CirclePrimitive.h:40-59 | a new composite has no children |
| Shapes.Composite.Add | src/engine/components/renderables/primitives/2d/CirclePrimitive.h:44 | appends the child handle, null or not |
| Shapes.Composite.Clear | src/engine/components/renderables/primitives/2d/CirclePrimitive.h:45 | removes every child |
| Shapes.Composite.Draw | src/engine/components/renderables/primitives/2d/CirclePrimitive.h:46-56 | draws the non-null children in insertion order |
| LegacyShapes.UIPrimitive.constructor | src/components/renderables/primitives/UIPrimitive.h:28-29 | a new primitive draws triangles in white |
| LegacyShapes.UIPrimitive.SetPrimitiveType | src/components/renderables/primitives/UIPrimitive.h:15 | stores the topology and leaves the colour alone |
| LegacyShapes.UIPrimitive.SetColor | src/components/renderables/primitives/UIPrimitive.h:16 | stores the colour and leaves the topology alone |
| LegacyShapes.LegacyRenderable | src/components/renderables/primitives/UIPrimitive.h:19-27 | the renderable is in screen space with the requested topology, the mesh, the colour as material colour and the identity transform |
| LegacyShapes.RectangleUIPrimitive.constructor | src/components/renderables/primitives/UIPrimitiveRectangle.cpp:7-11 | the box and colour are stored, topology triangles, dirty, with an empty mesh and no renderable |
| LegacyShapes.RectangleUIPrimitive.SetPosition | src/components/renderables/primitives/UIPrimitiveRectangle.h:11 | moves the corner, keeps the size and marks the rectangle dirty |
| LegacyShapes.RectangleUIPrimitive.SetSize | src/components/renderables/primitives/UIPrimitiveRectangle.h:12 | resizes, keeps the corner and marks the rectangle dirty |
| LegacyShapes.RectangleUIPrimitive.SetPrimitiveType | src/components/renderables/primitives/UIPrimitive.h:15 | stores the topology; the renderable keeps the old one until the next ensureMesh |
| LegacyShapes.RectangleUIPrimitive.EnsureMesh | src/components/renderables/primitives/UIPrimitiveRectangle.cpp:13-84 | when clean, buffered and its renderable has the current topology nothing changes; otherwise the mesh is rebuilt and a new screen-space renderable of the current topology and colour is made; afterwards the rectangle is clean and up to date |
| LegacyShapes.RectangleUIPrimitive.Draw | src/components/renderables/primitives/UIPrimitiveRectangle.cpp:86-91 | after ensureMesh the draw call uses the ortho matrix with the identity view, is indexed, has the current topology and sends that topology's whole index list |
| LegacyShapes.LegacyTopologyChangeExample | src/components/renderables/primitives/UIPrimitiveRectangle.cpp:15-16 | in this older rectangle a strip switched to triangles is rebuilt: the next draw sends 6 indices as triangles |
| LegacyShapes.RoundedRectangleUIPrimitive.constructor | src/components/renderables/primitives/UIPrimitiveRoundedRectangle.cpp:6-17 | the box, radius and colour are stored, perCorner is max(1, q), the topology is triangles and the shape is dirty |
| LegacyShapes.RoundedRectangleUIPrimitive.SetPosition | src/components/renderables/primitives/UIPrimitiveRoundedRectangle.h:19 | moves the box and marks it dirty |
| LegacyShapes.RoundedRectangleUIPrimitive.SetSize | src/components/renderables/primitives/UIPrimitiveRoundedRectangle.h:20 | resizes the box and marks it dirty |
| LegacyShapes.RoundedRectangleUIPrimitive.SetRadius | src/components/renderables/primitives/UIPrimitiveRoundedRectangle.h:21 | stores the radius and marks the shape dirty |
| LegacyShapes.RoundedRectangleUIPrimitive.SetQualityPerCorner | src/components/renderables/primitives/UIPrimitiveRoundedRectangle.h:22 | perCorner becomes max(1, q) and the shape is dirty |
| LegacyShapes.RoundedRectangleUIPrimitive.Rebuild | src/components/renderables/primitives/UIPrimitiveRoundedRectangle.cpp:19-83 | skipped when clean with a vertex buffer; otherwise the fan is rebuilt in the current colour and a new screen-space renderable made; afterwards the shape is clean and up to date |
| LegacyShapes.RoundedRectangleUIPrimitive.Draw | src/components/renderables/primitives/UIPrimitiveRoundedRectangle.cpp:85-90 | draws after rebuild with the ortho matrix and the identity view |
| LegacyShapes.CircleUIPrimitive.constructor | src/components/renderables/primitives/UIPrimitiveCircle.cpp:7-13 | centre, radius, colour and segments are stored, triangles, dirty |
| LegacyShapes.CircleUIPrimitive.SetCenter | src/components/renderables/primitives/UIPrimitiveCircle.h:12-17 | moves the centre and marks the circle dirty |
| LegacyShapes.CircleUIPrimitive.SetRadius | src/components/renderables/primitives/UIPrimitiveCircle.h:18-22 | stores the radius and marks the circle dirty |
| LegacyShapes.CircleUIPrimitive.Rebuild | src/components/renderables/primitives/UIPrimitiveCircle.cpp:15-73 | skipped when clean with a vertex buffer; otherwise the fan is rebuilt in the current colour and a new renderable made; afterwards the circle is clean |
| LegacyShapes.CircleUIPrimitive.Draw | src/components/renderables/primitives/UIPrimitiveCircle.cpp:75-81 | draws after rebuild with the ortho matrix and the identity view |
| TextLayout.WrapFinish | src/components/renderables/primitives/2d/TextPrimitive.cpp:403-420 | the finished wrap never has zero lines |
| TextLayout.WrapLineCount | src/components/renderables/primitives/2d/TextPrimitive.cpp:343-420 | with no font there are no lines; with a font there is always at least one |
| TextLayout.WrapText | src/components/renderables/primitives/2d/TextPrimitive.cpp:340-423 | the character loop, with its `'\n'` branch as written (no width test), computes exactly `WrapAsWritten` |
| TextLayout.WrapAgreesWithoutNewline | src/components/renderables/primitives/2d/TextPrimitive.cpp:340-423 | on a text without `'\n'` the wrap as written and the corrected wrap give the same lines, so the width rule holds for the source's wrap there |
| TextLayout.WrapRunGlyphsOnly | src/components/renderables/primitives/2d/TextPrimitive.cpp:366-367 | every character placed in the state of the wrap has a baked glyph |
| TextLayout.WrapDropsGlyphless | src/components/renderables/primitives/2d/TextPrimitive.cpp:366-372 | no wrapped line holds a character without a glyph, nor a '\n' or a '\t' |
| TextLayout.PlaceWordFits | src/components/renderables/primitives/2d/TextPrimitive.cpp:376-385 | placing the pending word keeps every line within the width or a single word |
| TextLayout.WrapStepFits | src/components/renderables/primitives/2d/TextPrimitive.cpp:350-400 | one character of the corrected wrap keeps every line within the width or a single word |
| TextLayout.WrapRespectsWidth | src/components/renderables/primitives/2d/TextPrimitive.cpp:376-410 | every line of the corrected wrap is within the width, or is a single word too wide to break |
| TextLayout.NewlineClosesLine | src/components/renderables/primitives/2d/TextPrimitive.cpp:354-364 | a '\n' closes the current line and resets the line, its width and the word; as written it appends the pending word without any width test |
| TextLayout.WrapExampleTwoWords | src/components/renderables/primitives/2d/TextPrimitive.cpp:376-410 | "AAAAA BBBBB" at 10 px per character in a 50 px box wraps into ["AAAAA", "BBBBB"] |
| TextLayout.WrapNewlineOverflow | src/components/renderables/primitives/2d/TextPrimitive.cpp:354-364 | as written, "AAAA BBBB\n" in a 50 px box comes out as one line "AAAA BBBB" |
| TextLayout.OverflowLineTooWide | src/components/renderables/primitives/2d/TextPrimitive.cpp:354-364 | that line is 90 px wide and holds a space, so it breaks the width rule |
| TextLayout.WrapNewlineCorrected | src/components/renderables/primitives/2d/TextPrimitive.cpp:354-364 | with the width test applied to the word a '\n' closes, the same text wraps into "AAAA " and "BBBB" |
| TextLayout.NewlinePiecesJoin | src/components/renderables/primitives/2d/TextPrimitive.cpp:36-47 | the '\n'-separated pieces of a text rejoined with '\n' give the text back |
| TextLayout.NewlinePiecesNoNewline | src/components/renderables/primitives/2d/TextPrimitive.cpp:36-47 | no piece holds a '\n' |
| TextLayout.UnwrappedLinesJoin | src/components/renderables/primitives/2d/TextPrimitive.cpp:36-47 | the unwrapped lines are at least one, hold no '\n', and rejoin to the text minus one trailing '\n' |
| TextLayout.SplitLines | src/components/renderables/primitives/2d/TextPrimitive.cpp:36-47 | the splitting loop gives the '\n'-separated pieces with a trailing empty piece dropped unless it is the only one |
| TextLayout.VisibleCharsZero | src/components/renderables/primitives/2d/TextPrimitive.cpp:51-58 | a line has no visible character exactly when it holds only spaces and tabs |
| TextLayout.VisibleInLinesZero | src/components/renderables/primitives/2d/TextPrimitive.cpp:51-63 | the lines have no visible character exactly when every line is blank |
| TextLayout.CountVisible | src/components/renderables/primitives/2d/TextPrimitive.cpp:51-58 | the counting loops count exactly the characters other than ' ' and '\t' |
| TextLayout.AlignmentGeometry | src/components/renderables/primitives/2d/TextPrimitive.cpp:106-119 | with a box, a Start line begins at x, an End line ends at x + boxWidth, and a Center line starts halfway between the two |
| TextLayout.JustificationGeometry | src/components/renderables/primitives/2d/TextPrimitive.cpp:77-90 | with a box, Start puts the first baseline one line height below the top, End puts the last baseline at y, and Center lies halfway between them |
| TextLayout.NoBoxStart | src/components/renderables/primitives/2d/TextPrimitive.cpp:77-119 | without a box the pen starts at (x, y) whatever the modes |
| TextLayout.LineVerticesCount | src/components/renderables/primitives/2d/TextPrimitive.cpp:137-154 | a line emits exactly four vertices per glyph with ink |
| TextLayout.BlockVerticesCount | src/components/renderables/primitives/2d/TextPrimitive.cpp:95-160 | the lines together emit four vertices per inked glyph |
| TextLayout.QuadIndicesShape | src/components/renderables/primitives/2d/TextPrimitive.cpp:146-153 | k quads have 6k indices, quad q's six are (4q, 4q+1, 4q+2, 4q+2, 4q+3, 4q) cast to ushort, and every index is below 4k |
| TextLayout.QuadAtExact | src/components/renderables/primitives/2d/TextPrimitive.cpp:146-151 | below 16384 quads the ushort cast changes nothing |
| TextLayout.PushQuad | src/components/renderables/primitives/2d/TextPrimitive.cpp:140-153 | appends the glyph's four corners and its six indices, keeping indices = the quad index list of the vertices |
| TextLayout.EmitChar | src/components/renderables/primitives/2d/TextPrimitive.cpp:122-156 | a character adds its quad (none without a glyph or without ink) and moves the pen by its advance |
| TextLayout.EmitLine | src/components/renderables/primitives/2d/TextPrimitive.cpp:122-157 | a line adds exactly its line's vertices and keeps the index list in step |
| TextLayout.EmitQuads | src/components/renderables/primitives/2d/TextPrimitive.cpp:92-160 | the emission loops produce exactly the text's vertices, four per inked glyph, with the matching quad indices |
| TextLayout.QuadIndicesNext | src/components/renderables/primitives/2d/TextPrimitive.cpp:146-153 | appending the six indices of the quad starting at vertex v gives the index list of one more quad |
| TextPrimitives.Written | src/components/renderables/primitives/2d/TextPrimitive.cpp:168-182 | a written buffer starts with the data; a buffer large enough is kept, with its length and tail, otherwise the buffer is exactly the data |
| TextPrimitives.EmptyTextQuads | src/components/renderables/primitives/2d/TextPrimitive.cpp:27-28 | the empty text is one empty line and has nothing to draw |
| TextPrimitives.SingleGlyphQuads | src/components/renderables/primitives/2d/TextPrimitive.cpp:122-154 | a one-character text whose glyph has ink draws exactly one quad |
| TextPrimitives.TextPrimitive.constructor | src/components/renderables/primitives/2d/TextPrimitive.cpp:6-23 | text, position, font path and size are stored, no box, no wrap, Start alignment and justification, the colour set, dirty, and the font is the cache's entry for path@int(size) when there is one |
| TextPrimitives.TextPrimitive.SetColor | src/components/renderables/primitives/2d/TextPrimitive.cpp:292-300 | the colour is stored, the text marked dirty, and the bound material takes the colour; the mesh is kept |
| TextPrimitives.TextPrimitive.SetText | src/components/renderables/primitives/2d/TextPrimitive.cpp:246-252 | the text is stored and the primitive becomes dirty exactly when the text changed; the GPU state is untouched |
| TextPrimitives.TextPrimitive.SetPosition | src/components/renderables/primitives/2d/TextPrimitive.cpp:254-261 | the position is stored and the primitive becomes dirty exactly when it moved |
| TextPrimitives.TextPrimitive.SetFontSize | src/components/renderables/primitives/2d/TextPrimitive.cpp:263-271 | the same size changes nothing; a new size stores it, fetches the font for (path, size) from the cache and marks the text dirty |
| TextPrimitives.TextPrimitive.SetFont | src/components/renderables/primitives/2d/TextPrimitive.cpp:273-280 | the same path changes nothing; a new path stores it, fetches the font for (path, size) and marks the text dirty |
| TextPrimitives.TextPrimitive.MeasureText | src/components/renderables/primitives/2d/TextPrimitive.cpp:282-290 | with a font, the width is the advance sum of the text and the height the line height; without one both are 0 |
| TextPrimitives.TextPrimitive.SetBoxSize | src/components/renderables/primitives/2d/TextPrimitive.cpp:302-308 | the box is set to (w, h) and the text marked dirty even when the size is the same |
| TextPrimitives.TextPrimitive.ClearBoxSize | src/components/renderables/primitives/2d/TextPrimitive.cpp:310-314 | the box is dropped, its size kept, and the text marked dirty |
| TextPrimitives.TextPrimitive.SetAlignment | src/components/renderables/primitives/2d/TextPrimitive.cpp:316-322 | stores the alignment and marks dirty exactly when it changed |
| TextPrimitives.TextPrimitive.SetJustification | src/components/renderables/primitives/2d/TextPrimitive.cpp:324-330 | stores the justification and marks dirty exactly when it changed |
| TextPrimitives.TextPrimitive.SetWrap | src/components/renderables/primitives/2d/TextPrimitive.cpp:332-338 | stores the wrap flag and marks dirty exactly when it changed |
| TextPrimitives.TextPrimitive.EmitLines | src/components/renderables/primitives/2d/TextPrimitive.cpp:50-160 | the lines give no quads when no character is visible, else exactly the quads of their inked glyphs, with six indices per quad |
| TextPrimitives.TextPrimitive.LayoutAsWritten | src/components/renderables/primitives/2d/TextPrimitive.cpp:31-160 | as written: the lines come from `wrapText` as written (or the `'\n'` split) and are laid out into exactly `QuadsAsWritten`, with the matching indices |
| TextPrimitives.TextPrimitive.Layout | src/components/renderables/primitives/2d/TextPrimitive.cpp:31-160 | corrected: the lines come from the corrected wrap (or the `'\n'` split) and are laid out into exactly `Quads`, with the matching indices |
| TextPrimitives.TextPrimitive.WriteBuffers | src/components/renderables/primitives/2d/TextPrimitive.cpp:166-183 | the mesh holds the written buffers and counts; a reallocated buffer is no longer the one the renderable holds; the renderable's counts are unchanged |
| TextPrimitives.TextPrimitive.EnsureMesh | src/components/renderables/primitives/2d/TextPrimitive.cpp:214-231 | an existing renderable is kept when there is a font; otherwise a new one is made over the current mesh |
| TextPrimitives.TextPrimitive.RebuildAsWritten | src/components/renderables/primitives/2d/TextPrimitive.cpp:25-212 | nothing happens when clean, without a font or with empty text; a renderable that already exists keeps its old counts; the first build shows the quads of the text as `wrapText` writes its lines (`QuadsAsWritten`) |
| TextPrimitives.TextPrimitive.DrawAsWritten | src/components/renderables/primitives/2d/TextPrimitive.cpp:233-244 | nothing is drawn without a font; a renderable made earlier keeps drawing its old index count; a first build draws six indices per quad of `QuadsAsWritten` |
| TextPrimitives.StaleTextExample | src/components/renderables/primitives/2d/TextPrimitive.cpp:25-28 | as written, "H" drawn, then cleared to "" and drawn again, still sends the 6 indices of the old "H" |
| TextPrimitives.TextPrimitive.ShowNothing | src/components/renderables/primitives/2d/TextPrimitive.cpp:160-164 | corrected: a text with nothing to draw leaves zero counts, in the renderable too |
| TextPrimitives.TextPrimitive.Show | src/components/renderables/primitives/2d/TextPrimitive.cpp:166-212 | corrected: the renderable is given the new mesh and displays exactly the new vertices and indices |
| TextPrimitives.TextPrimitive.Rebuild | src/components/renderables/primitives/2d/TextPrimitive.cpp:25-212 | corrected: clean or fontless leaves everything as it was; otherwise the primitive is clean afterwards and its renderable shows the quads of the current state |
| TextPrimitives.TextPrimitive.Draw | src/components/renderables/primitives/2d/TextPrimitive.cpp:233-244 | corrected: nothing without a font; otherwise the draw sends six indices per quad of the current text, or nothing when it has none |
| TextPrimitives.ClearedTextExample | src/components/renderables/primitives/2d/TextPrimitive.cpp:25-28 | kept up to date, "H" then "" draws 6 indices and then nothing |
| Grids.CellIndexInRange | src/engine/utils/math/Grid.h:125 | an in-bounds cell's index x·h + y lies inside the w·h cells |
| Grids.CellIndexInjective | src/engine/utils/math/Grid.h:125 | distinct cells with y below h have distinct indices |
| Grids.Lookup | src/engine/utils/math/Grid.h:66-81 | at(x, y) answers exactly when x < w and y < h, otherwise it is out_of_range |
| Grids.LookupAfterWrite | src/engine/utils/math/Grid.h:66-70 | writing one cell through at() changes that cell and no other |
| Grids.ColumnOffset | src/engine/utils/math/Grid.h:127-131 | operator[](x) is out_of_range exactly when x >= w; otherwise its column of h cells lies inside the vector |
| Grids.ColumnPointerReadsCell | src/engine/utils/math/Grid.h:56-64 | through the column pointer of x, row y < h is the cell (x, y) |
| Grids.ColumnPointerOverrun | src/engine/utils/math/Grid.h:56-64 | y is never checked: row h + y of column x's pointer is the cell (x + 1, y) |
| Grids.Grid.constructor | src/engine/utils/math/Grid.h:18 | a default grid is 0 × 0 with no cells |
| Grids.Grid.Filled | src/engine/utils/math/Grid.h:20-22 | the grid is w × h and every cell holds the fill value |
| Grids.Grid.Copy | src/engine/utils/math/Grid.h:24 | the copy has the same dimensions and cells |
| Grids.Grid.Move | src/engine/utils/math/Grid.h:26 | the new grid takes the dimensions and cells; the source is left 0 × 0 and empty |
| Grids.Grid.CopyAssign | src/engine/utils/math/Grid.h:28-38 | the grid takes the other's dimensions and cells; assigning a grid to itself changes nothing |
| Grids.Grid.MoveAssign | src/engine/utils/math/Grid.h:40-52 | the grid takes the other's dimensions and cells and the other becomes 0 × 0 and empty; a self-move changes nothing |
| Grids.Grid.At | src/engine/utils/math/Grid.h:66-81 | the cell is found exactly when x < w and y < h |
| Grids.Grid.SetAt | src/engine/utils/math/Grid.h:66-70 | an in-bounds write changes exactly that cell; an out-of-range one reports failure and changes nothing |
| Grids.Grid.Cell | src/engine/utils/math/Grid.h:121-122 | the unchecked access, given an in-bounds cell, is the cell at() returns |
| Grids.Grid.Fill | src/engine/utils/math/Grid.h:83-87 | every cell becomes the value and the dimensions stay |
| Grids.Grid.Clear | src/engine/utils/math/Grid.h:89-95 | no cells and 0 × 0 |
| Grids.Grid.Resize | src/engine/utils/math/Grid.h:97-111 | the grid is w × h and every cell is the fill value: the old cells are discarded |
| Grids.Grid.Size | src/engine/utils/math/Grid.h:115 | size() is w·h |
| Grids.Grid.Empty | src/engine/utils/math/Grid.h:116 | empty() holds exactly when w or h is 0 |
| Input.InputState.constructor | src/engine/systems/input/InputState.h:11-28 | the mouse is at rest at the origin with no button down, no key is pressed and the window is 800 × 600 |
| Input.InputState.Initialize | src/engine/systems/input/InputState.cpp:7-22 | the window gets the given size, the mouse is at rest at the origin and every key is released |
| Input.InputState.Update | src/engine/systems/input/InputState.cpp:24-33 | the old position becomes the previous one and the new position and buttons are stored, so the deltas are new − old; the window is unchanged |
| Input.InputState.UpdateKeyboard | src/engine/systems/input/InputState.cpp:35-40 | a key code in [0, GLFW_KEY_LAST) changes that key alone; any other code changes nothing |
| Input.InputState.SetWindowSize | src/engine/systems/input/InputState.cpp:42-46 | only the window size changes |
| Input.DeltaExample | src/engine/systems/input/InputState.h:44-45 | after two updates the delta is the step of the second update alone |
| EngineStore.Fetch | src/engine/EngineIO.h:24-35 | get<T> answers exactly when the key is stored with a value of type T, and then answers that value |
| EngineStore.EngineIO.constructor | src/engine/EngineIO.h:13 | a new store is empty |
| EngineStore.EngineIO.Set | src/engine/EngineIO.h:19-22 | the key now maps to the value, and get with the value's type returns it |
| EngineStore.EngineIO.Erase | src/engine/EngineIO.h:39 | exactly the key is removed and has(key) is false |
| EngineStore.EngineIO.Clear | src/engine/EngineIO.h:41 | the store is empty |
| EngineStore.SetThenGet | src/engine/EngineIO.h:19-35 | a stored value reads back under its own type and under no other |
| EngineStore.SetOverwrites | src/engine/EngineIO.h:19-22 | a later set overwrites the earlier value |
| EngineStore.OtherKeysUntouched | src/engine/EngineIO.h:19-39 | setting or erasing one key leaves every other key as it was |
| EngineStore.HasIffGettable | src/engine/EngineIO.h:37 | has(k) holds exactly when some get<T>(k) answers |
| Containers.CornerAnchorAgrees | src/engine/components/renderables/core/UIElement.cpp:187-222 | the screen anchor enableAutoAnchor installs, resolved through the transform, lands exactly where drawCachedQuad's corner rule puts the quad |
| Containers.QuadDeterminesBox | src/engine/components/renderables/core/UIElement.cpp:62-72 | the four vertices moveCachedQuad writes determine the box: two equal quads were written for the same left, top, width and height |
| Containers.MaxContentSize | src/engine/components/renderables/core/UIElement.cpp:256-270 | the content size is non-negative, at least every present child's size, and each component is 0 or some present child's size |
| Containers.MaxContentLoop | src/engine/components/renderables/core/UIElement.cpp:256-270 | the max-accumulating loop computes exactly the content size |
| Containers.NoChildrenNoContent | src/engine/components/renderables/core/UIElement.cpp:256-270 | without present children the content size is (0, 0) |
| Containers.UIElement.constructor | src/engine/components/renderables/core/UIElement.cpp:10-14 | a new element has a fresh 0 × 0 transform, no quad, no children and auto-anchoring off |
| Containers.UIElement.Render | src/engine/components/renderables/core/UIElement.cpp:21-28 | the transform is updated for the window and the present children are drawn in order |
| Containers.UIElement.BuildCachedQuad | src/engine/components/renderables/core/UIElement.cpp:30-50 | the cache records the box, the transform gets its size and position, and a new quad of its four corners in the colour is made |
| Containers.UIElement.MoveCachedQuad | src/engine/components/renderables/core/UIElement.cpp:52-77 | without a quad nothing happens; otherwise exactly its four vertices become the corners of the new box, and the cache fields stay |
| Containers.UIElement.DestroyCachedQuad | src/engine/components/renderables/core/UIElement.cpp:79-103 | no quad remains and the transform and the element are 0 × 0 |
| Containers.UIElement.DrawCachedQuad | src/engine/components/renderables/core/UIElement.cpp:105-157 | without a quad nothing is drawn and nothing changes, the cached position included; with auto-anchoring on and a positive size the quad goes to the corner target and is moved exactly when the target differs from the cached position; otherwise it stays |
| Containers.SecondDrawStill | src/engine/components/renderables/core/UIElement.cpp:135-140 | a second draw with the same screen writes nothing |
| Containers.UIElement.AddPrimitive | src/engine/components/renderables/core/UIElement.cpp:159-162 | appends the child as given, null included |
| Containers.UIElement.ClearPrimitives | src/engine/components/renderables/core/UIElement.cpp:164-167 | removes every child |
| Containers.UIElement.DrawPrimitives | src/engine/components/renderables/core/UIElement.cpp:169-185 | draws the present children in insertion order |
| Containers.UIElement.EnableAutoAnchor | src/engine/components/renderables/core/UIElement.cpp:187-222 | stores the corner and margins, turns auto-anchoring on and anchors the transform to that screen corner with signed margins, so the element, with or without a parent, resolves to the corner target for every screen |
| Containers.UIElement.DisableAutoAnchor | src/engine/components/renderables/core/UIElement.cpp:224-228 | turns auto-anchoring off and drops the transform's anchor |
| Containers.UIElement.UpdateSizeFromPrimitives | src/engine/components/renderables/core/UIElement.cpp:230-254 | when both maxima of the children's sizes are positive the element, its transform and its quad take that size; otherwise nothing changes |
| Containers.UIElement.GetContentSize | src/engine/components/renderables/core/UIElement.cpp:256-270 | the componentwise maximum of the present children's sizes |
| Containers.LegacyUIElement.constructor | src/components/renderables/core/UIElement.h:60-65 | no quad, no children, a 0 × 0 element at (0, 0) and auto-anchoring off at the bottom-left corner |
| Containers.LegacyUIElement.BuildCachedQuad | src/components/renderables/core/UIElement.cpp:20-39 | the cache records the box and a new quad of its corners in the colour is made |
| Containers.LegacyUIElement.MoveCachedQuad | src/components/renderables/core/UIElement.cpp:41-66 | with a quad its four vertices are rewritten; without one a white quad is built for the box instead |
| Containers.LegacyUIElement.DestroyCachedQuad | src/components/renderables/core/UIElement.cpp:68-91 | no quad remains and the element is 0 × 0; the cached position stays |
| Containers.LegacyUIElement.DrawCachedQuad | src/components/renderables/core/UIElement.cpp:93-145 | without a quad nothing is drawn and nothing changes, the cached position included; otherwise the same corner rule and move-only-on-change as the engine element |
| Containers.LegacyUIElement.AddPrimitive | src/components/renderables/core/UIElement.cpp:147-150 | appends the child as given |
| Containers.LegacyUIElement.ClearPrimitives | src/components/renderables/core/UIElement.cpp:152-155 | removes every child |
| Containers.LegacyUIElement.DrawPrimitives | src/components/renderables/core/UIElement.cpp:157-173 | draws the present children in insertion order |
| Containers.LegacyUIElement.EnableAutoAnchor | src/components/renderables/core/UIElement.cpp:175-181 | stores the corner, the margins and the flag and touches nothing else |
| Containers.LegacyUIElement.DisableAutoAnchor | src/components/renderables/core/UIElement.cpp:183-186 | clears the flag and nothing else |
| Containers.WorldElement.constructor | src/engine/components/renderables/core/WorldElement.h:35-36 | no children, position and rotation at zero |
| Containers.WorldElement.AddPrimitive | src/engine/components/renderables/core/WorldElement.cpp:26-32 | a present handle is appended and null is ignored |
| Containers.WorldElement.ClearPrimitives | src/engine/components/renderables/core/WorldElement.cpp:34-38 | empties the list and keeps position and rotation |
| Containers.WorldElement.SetPosition | src/engine/components/renderables/core/WorldElement.cpp:40-43 | stores the position verbatim |
| Containers.WorldElement.SetRotation | src/engine/components/renderables/core/WorldElement.cpp:45-48 | stores the rotation verbatim |
| Containers.WorldElement.GetContentSize | src/engine/components/renderables/core/WorldElement.cpp:50-63 | the componentwise maximum over the children, (0, 0) when there are none |
| Containers.WorldElement.Render | src/engine/components/renderables/core/WorldElement.cpp:15-24 | draws every child in insertion order |
| Containers.SomesAllPresent | src/engine/components/renderables/core/WorldElement.cpp:15-24 | a list with no null handle is drawn whole |
| TextBoxes.ClampDown | src/engine/components/renderables/primitives/2d/TextBoxPrimitive.cpp:42-47 | the clamped extent is never above the padded value nor above a maximum that is set, and it is one of the two |
| TextBoxes.AutoSize | src/engine/components/renderables/primitives/2d/TextBoxPrimitive.cpp:36-47 | the auto size is the measured text plus padding, clamped down to maxWidth and maxHeight where those are above 0 |
| TextBoxes.ContentSize | src/engine/components/renderables/primitives/2d/TextBoxPrimitive.cpp:257-277 | the content size is the measured text plus padding, never below the padding sums, and equal to one of the two |
| TextBoxes.AutoSizeIsContentSize | src/engine/components/renderables/primitives/2d/TextBoxPrimitive.cpp:36-47 | without maxima and for a text of non-negative size the auto size equals the content size |
| TextBoxes.AutoSizeClamps | src/engine/components/renderables/primitives/2d/TextBoxPrimitive.cpp:42-47 | a text too wide for a set maxWidth gives a box exactly maxWidth wide |
| TextBoxes.TextInsideBackground | src/engine/components/renderables/primitives/2d/TextBoxPrimitive.cpp:235-251 | with non-negative padding the laid-out text's box lies inside the background |
| TextBoxes.Layout | src/engine/components/renderables/primitives/2d/TextBoxPrimitive.cpp:235-251 | after updateLayout the background is (x, y, w, h) and the text sits at (x + padL, y + padT) with box (w − padX, h − padY); alignment and justification are kept |
| TextBoxes.MakeInnerText | src/components/renderables/primitives/2d/TextBoxPrimitive.cpp:18-50 | the fixed box's text is created at the padded corner with the inner box, Start-aligned and justified, wrapped exactly when the config asks |
| TextBoxes.MakeAutoText | src/engine/components/renderables/primitives/2d/TextBoxPrimitive.cpp:28-32 | the content box's text starts at (0, 0); it wraps, in a provisional box maxWidth − padX wide and maxHeight − padY (or 10000 when there is no maxHeight) high, exactly when word wrap is on and maxWidth is above 0 |
| TextBoxes.DrawChildren | src/engine/components/renderables/primitives/2d/TextBoxPrimitive.cpp:109-120 | the background is drawn first, then the text (nothing without a font); the text is the corrected text primitive, whose draw shows its current quads |
| TextBoxes.TextBox.Content | src/engine/components/renderables/primitives/2d/TextBoxPrimitive.cpp:4-60 | autoSizeToContent is forced on, the wrap rule of the content constructor applies, and the box is the auto size of the measured text |
| TextBoxes.TextBox.Fixed | src/engine/components/renderables/primitives/2d/TextBoxPrimitive.cpp:62-107 | the box is (x, y, w, h) with the config as given and the text wrapped exactly when the config asks |
| TextBoxes.TextBox.Draw | src/engine/components/renderables/primitives/2d/TextBoxPrimitive.cpp:109-120 | draws the background, then the text |
| TextBoxes.TextBox.SetText | src/engine/components/renderables/primitives/2d/TextBoxPrimitive.cpp:122-144 | the text changes; an auto-sizing box takes the auto size of the new text, any other keeps its size; the layout holds afterwards |
| TextBoxes.TextBox.SetPosition | src/engine/components/renderables/primitives/2d/TextBoxPrimitive.cpp:146-151 | stores the position and lays the box out again |
| TextBoxes.TextBox.SetSize | src/engine/components/renderables/primitives/2d/TextBoxPrimitive.cpp:153-158 | stores the size and lays the box out again |
| TextBoxes.TextBox.SetFontSize | src/engine/components/renderables/primitives/2d/TextBoxPrimitive.cpp:160-166 | the text takes the size and the box keeps its size |
| TextBoxes.TextBox.SetTextAlignment | src/engine/components/renderables/primitives/2d/TextBoxPrimitive.cpp:168-173 | forwards the alignment to the text |
| TextBoxes.TextBox.SetTextJustification | src/engine/components/renderables/primitives/2d/TextBoxPrimitive.cpp:175-180 | forwards the justification to the text |
| TextBoxes.TextBox.SetBackgroundColor | src/engine/components/renderables/primitives/2d/TextBoxPrimitive.cpp:182-188 | records the colour in the config and gives it to the background |
| TextBoxes.TextBox.SetTextColor | src/engine/components/renderables/primitives/2d/TextBoxPrimitive.cpp:190-196 | records the colour in the config and gives it to the text |
| TextBoxes.TextBox.SetPadding | src/engine/components/renderables/primitives/2d/TextBoxPrimitive.cpp:198-205 | stores the four paddings and lays the box out again; position and size stay |
| TextBoxes.TextBox.SetScreenSpace | src/engine/components/renderables/primitives/2d/TextBoxPrimitive.cpp:207-216 | the box and both children take the flag |
| TextBoxes.TextBox.SetTransform | src/engine/components/renderables/primitives/2d/TextBoxPrimitive.cpp:218-227 | the box and both children take the override |
| TextBoxes.TextBox.SetColor | src/engine/components/renderables/primitives/2d/TextBoxPrimitive.cpp:253-255 | only the box's own colour changes; its colour hook is empty |
| TextBoxes.TextBox.GetContentSize | src/engine/components/renderables/primitives/2d/TextBoxPrimitive.cpp:257-277 | the padded measure of the text, floored at the padding sums |
| TextBoxes.LegacyTextBox.constructor | src/components/renderables/primitives/2d/TextBoxPrimitive.cpp:4-51 | the transform is at (x, y) with size (w, h), the background is the box and the text sits inside the padding, wrapped exactly when the config asks |
| TextBoxes.LegacyTextBox.Draw | src/components/renderables/primitives/2d/TextBoxPrimitive.cpp:53-71 | the box adopts the transform's absolute position, reports a re-layout exactly when that differs from (x, y), then draws the background before the text |
| TextBoxes.SecondDrawStays | src/components/renderables/primitives/2d/TextBoxPrimitive.cpp:57-70 | a second draw in the same window does not lay the box out again |
| TextBoxes.LegacyTextBox.SetText | src/components/renderables/primitives/2d/TextBoxPrimitive.cpp:73-78 | forwards the text; the box keeps its size |
| TextBoxes.LegacyTextBox.SetPosition | src/components/renderables/primitives/2d/TextBoxPrimitive.cpp:80-86 | updates the fields and the transform's position, then lays the box out |
| TextBoxes.LegacyTextBox.SetSize | src/components/renderables/primitives/2d/TextBoxPrimitive.cpp:88-94 | updates the fields and the transform's size, then lays the box out |
| TextBoxes.LegacyTextBox.SetFontSize | src/components/renderables/primitives/2d/TextBoxPrimitive.cpp:96-102 | the text takes the size and the box keeps its size |
| TextBoxes.LegacyTextBox.SetTextAlignment | src/components/renderables/primitives/2d/TextBoxPrimitive.cpp:104-109 | forwards the alignment |
| TextBoxes.LegacyTextBox.SetTextJustification | src/components/renderables/primitives/2d/TextBoxPrimitive.cpp:111-116 | forwards the justification |
| TextBoxes.LegacyTextBox.SetBackgroundColor | src/components/renderables/primitives/2d/TextBoxPrimitive.cpp:118-124 | records the colour and gives it to the background |
| TextBoxes.LegacyTextBox.SetTextColor | src/components/renderables/primitives/2d/TextBoxPrimitive.cpp:126-132 | records the colour and gives it to the text |
| TextBoxes.LegacyTextBox.SetPadding | src/components/renderables/primitives/2d/TextBoxPrimitive.cpp:134-141 | stores the four paddings and lays the box out again |
| TextBoxes.LegacyTextBox.GetContentSize | src/components/renderables/primitives/2d/TextBoxPrimitive.cpp:171-191 | the padded measure of the text, floored at the padding sums |
| Buttons.Darken | src/engine/components/renderables/primitives/ButtonPrimitive.cpp:4-7 | darkening keeps the alpha channel |
| Buttons.ScaleBelow | src/engine/components/renderables/primitives/ButtonPrimitive.cpp:4-7 | a channel in [0, 1] scaled by a factor in [0, 1] stays in [0, v] |
| Buttons.DarkenOrder | src/engine/components/renderables/primitives/ButtonPrimitive.cpp:27-29 | the hover (0.9) and pressed (0.75) colours of a colour in [0, 1] stay in [0, 1], pressed no brighter than hover, hover no brighter than base |
| Buttons.StepFrame | src/engine/components/renderables/primitives/ui/UIButtonPrimitive.cpp:66-89 | one frame: hover follows the hit test and is announced only on a change; the press starts when held inside, announced once; the click fires exactly when a held press is released inside; the release is announced whenever a press ends |
| Buttons.DragOutCancels | src/engine/components/renderables/primitives/3d/WorldButtonPrimitive.cpp:49-60 | a press held while the cursor leaves ends without a click |
| Buttons.ClickShowsBase | src/engine/components/renderables/primitives/ui/UIButtonPrimitive.cpp:66-89 | a click released over the button fires, the hover flag stays set, yet the background is the base colour (the release's call comes after the hover's) |
| Buttons.PressShowsPressed | src/engine/components/renderables/primitives/ui/UIButtonPrimitive.cpp:76-81 | the frame that starts a press shows the pressed colour |
| Buttons.ClicksNeedPresses | src/engine/components/renderables/primitives/ui/UIButtonPrimitive.cpp:76-89 | over any run of frames, clicks plus a press still held never exceed presses started plus a press held at the start |
| Buttons.ClicksAtMostPresses | src/engine/components/renderables/primitives/ui/UIButtonPrimitive.cpp:76-89 | from rest a run of frames clicks at most as often as it presses |
| Buttons.NoPressNoClick | src/engine/components/renderables/primitives/ui/UIButtonPrimitive.cpp:76-89 | with no press held and no frame pressing inside, no click ever fires |
| Buttons.DragOutNeverClicks | src/engine/components/renderables/primitives/3d/WorldButtonPrimitive.cpp:49-60 | a press dragged out and released anywhere without pressing inside again never clicks |
| Buttons.Button.Content | src/engine/components/renderables/primitives/ButtonPrimitive.cpp:9-30 | a content-sized box at (0, 0) showing the base colour, with hover and pressed colours derived from it and no handler |
| Buttons.Button.Sized | src/engine/components/renderables/primitives/ButtonPrimitive.cpp:32-56 | a fixed box at the given place and size showing the base colour, with derived hover and pressed colours and no handler |
| Buttons.Button.Draw | src/engine/components/renderables/primitives/ButtonPrimitive.cpp:63-70 | draws the box's background and text and keeps the colour invariant |
| Buttons.Button.SetText | src/engine/components/renderables/primitives/ButtonPrimitive.cpp:72-77 | the box's text is replaced; its configuration and position are kept |
| Buttons.Button.SetBackgroundColor | src/engine/components/renderables/primitives/ButtonPrimitive.cpp:85-91 | a new base colour with the hover and pressed colours recomputed from it, and the box shows the base |
| Buttons.Button.SetTextColor | src/engine/components/renderables/primitives/ButtonPrimitive.cpp:93-96 | the box's text colour is set |
| Buttons.Button.SetPadding | src/engine/components/renderables/primitives/ButtonPrimitive.cpp:98-101 | the four paddings are set and nothing else in the configuration changes |
| Buttons.Button.SetCallback | src/engine/components/renderables/primitives/ButtonPrimitive.cpp:103-106 | the handler is replaced and the colours kept |
| Buttons.Button.TriggerClick | src/engine/components/renderables/primitives/ButtonPrimitive.cpp:108-111 | the handler invoked is the one stored, none when none is stored |
| Buttons.Button.GetBounds | src/engine/components/renderables/primitives/ButtonPrimitive.cpp:113-116 | the box's position and size |
| Buttons.Button.SetPosition | src/engine/components/renderables/primitives/ButtonPrimitive.cpp:118-121 | the box moves; its size and configuration are kept |
| Buttons.Button.SetSize | src/engine/components/renderables/primitives/ButtonPrimitive.cpp:123-126 | the box is resized; its position and configuration are kept |
| Buttons.Button.SetTransform | src/engine/components/renderables/primitives/ButtonPrimitive.cpp:128-131 | the transform override reaches the box, its background and its text |
| Buttons.Button.SetHoverVisual | src/engine/components/renderables/primitives/ButtonPrimitive.cpp:133-136 | the box shows the hover colour when on and the base colour when off; its geometry is kept |
| Buttons.Button.SetPressedVisual | src/engine/components/renderables/primitives/ButtonPrimitive.cpp:138-141 | the box shows the pressed colour when on and the base colour when off; its geometry is kept |
| Buttons.ApplyFrame | src/engine/components/renderables/primitives/ui/UIButtonPrimitive.cpp:66-89 | the frame's calls, made in the source's order, give exactly StepFrame's transition, fire the stored handler exactly on a click, and leave the background as BackgroundAfter says |
| Buttons.UIHitCorners | src/engine/components/renderables/primitives/ui/UIButtonPrimitive.cpp:53-61 | the hit test includes the box's edges: all four corners hit |
| Buttons.UIHitFlipped | src/engine/components/renderables/primitives/ui/UIButtonPrimitive.cpp:53-61 | the mouse's y is flipped against the window height: a mouse above the box's bottom-origin y in window terms misses |
| Buttons.UIButton.Content | src/engine/components/renderables/primitives/ui/UIButtonPrimitive.cpp:10-25 | a new transform at (0, 0) whose size is the box's content size, not hovered, not pressed |
| Buttons.UIButton.Sized | src/engine/components/renderables/primitives/ui/UIButtonPrimitive.cpp:27-41 | a new transform at (0, 0) of the given size, matching the box's size |
| Buttons.UIButton.Draw | src/engine/components/renderables/primitives/ui/UIButtonPrimitive.cpp:43-92 | the button is placed at the transform's absolute position, and the hover/press state and the click follow StepFrame on the flipped hit test |
| Buttons.UIButton.SetText | src/engine/components/renderables/primitives/ui/UIButtonPrimitive.cpp:94-102 | the text is replaced and the transform takes the box's new content size |
| Buttons.UIButton.SetCallback | src/engine/components/renderables/primitives/ui/UIButtonPrimitive.cpp:104-107 | the button's handler is replaced |
| Buttons.UIButton.GetContentSize | src/engine/components/renderables/primitives/ui/UIButtonPrimitive.cpp:109-113 | the transform's size |
| Buttons.MinMax | src/engine/components/renderables/primitives/3d/WorldButtonPrimitive.cpp:153-156 | the smallest and the largest element of a non-empty range, both present in it |
| Buttons.WithinRange | src/engine/components/renderables/primitives/3d/WorldButtonPrimitive.cpp:153-158 | a value is above the minimum iff some element is at or below it, and below the maximum iff some element is at or above it |
| Buttons.PointInProjectedRect | src/engine/components/renderables/primitives/3d/WorldButtonPrimitive.cpp:141-158 | inside exactly when every corner projects (w != 0) and the mouse lies within the screen box of the projected corners, with the window size truncated to int |
| Buttons.DegenerateCornerMisses | src/engine/components/renderables/primitives/3d/WorldButtonPrimitive.cpp:145-147 | a corner with w == 0 makes the test fail wherever the mouse is |
| Buttons.WorldButton.constructor | src/engine/components/renderables/primitives/3d/WorldButtonPrimitive.cpp:7-21 | a fixed button of the world size with font size 32, facing +z with +y up, not hovered, not pressed |
| Buttons.WorldButton.Draw | src/engine/components/renderables/primitives/3d/WorldButtonPrimitive.cpp:28-63 | the button takes the model matrix, and the hover/press state and the click follow StepFrame on the projected-rectangle test |
| Buttons.WorldButton.SetText | src/engine/components/renderables/primitives/3d/WorldButtonPrimitive.cpp:65-68 | the button's text is replaced |
| Buttons.WorldButton.SetCallback | src/engine/components/renderables/primitives/3d/WorldButtonPrimitive.cpp:70-73 | the button's handler is replaced |
| Buttons.WorldButton.SetPosition | src/engine/components/renderables/primitives/3d/WorldButtonPrimitive.cpp:75-78 | the position is replaced and the world size kept |
| Buttons.WorldButton.SetWorldSize | src/engine/components/renderables/primitives/3d/WorldButtonPrimitive.cpp:80-84 | the world size is replaced and the position kept |
| Buttons.WorldButton.SetOrientation | src/engine/components/renderables/primitives/3d/WorldButtonPrimitive.cpp:86-90 | forward and up are replaced and the position kept |
| Buttons.WorldButton.GetContentSize | src/engine/components/renderables/primitives/3d/WorldButtonPrimitive.cpp:92-96 | the world size |
| UIWrappers.CircleCenter | src/engine/components/renderables/primitives/ui/UICirclePrimitive.cpp:45-49 | the centre lies one radius right of and below the box's corner |
| UIWrappers.CircleContent | src/engine/components/renderables/primitives/ui/UICirclePrimitive.cpp:39-43 | the content is square and half its side is the radius |
| UIWrappers.CircleFillsBox | src/engine/components/renderables/primitives/ui/UICirclePrimitive.cpp:39-49 | the circle placed at the transform's position plus (r, r) spans exactly the box of the content size |
| UIWrappers.UIText.constructor | src/engine/components/renderables/primitives/ui/UITextPrimitive.cpp:4-26 | the text at (0, 0) with the given size and colour; a new transform at (0, 0) sized to the measured text |
| UIWrappers.UIText.Draw | src/engine/components/renderables/primitives/ui/UITextPrimitive.cpp:28-37 | the text moves to the transform's absolute position before it draws; its text and configuration are kept; nothing is drawn without a font, otherwise the draw sends six indices per quad of the current text, or nothing when it has none |
| UIWrappers.UIText.SetText | src/engine/components/renderables/primitives/ui/UITextPrimitive.cpp:39-48 | the text is replaced and the transform takes its new measured size |
| UIWrappers.UIText.SetFontSize | src/engine/components/renderables/primitives/ui/UITextPrimitive.cpp:50-59 | the font size is set and the transform takes the new measured size |
| UIWrappers.UIText.SetFont | src/engine/components/renderables/primitives/ui/UITextPrimitive.cpp:61-70 | the font is set and the transform takes the new measured size |
| UIWrappers.UIText.SetBoxSize | src/engine/components/renderables/primitives/ui/UITextPrimitive.cpp:72-78 | the text gets a wrap box and the transform takes the box's size, not the measure |
| UIWrappers.UIText.ClearBoxSize | src/engine/components/renderables/primitives/ui/UITextPrimitive.cpp:80-89 | the box is dropped and the transform takes the measured size again |
| UIWrappers.UIText.SetAlignment | src/engine/components/renderables/primitives/ui/UITextPrimitive.cpp:91-96 | the alignment is set and the text kept |
| UIWrappers.UIText.SetJustification | src/engine/components/renderables/primitives/ui/UITextPrimitive.cpp:98-103 | the justification is set and the text kept |
| UIWrappers.UIText.SetWrap | src/engine/components/renderables/primitives/ui/UITextPrimitive.cpp:105-110 | wrapping is switched and the text kept |
| UIWrappers.UIText.MeasureText | src/engine/components/renderables/primitives/ui/UITextPrimitive.cpp:123-131 | the measured size of the inner text |
| UIWrappers.UIText.GetContentSize | src/engine/components/renderables/primitives/ui/UITextPrimitive.cpp:133-137 | the transform's size |
| UIWrappers.UIText.SetColor | src/engine/components/renderables/primitives/ui/UITextPrimitive.cpp:145-150 | the wrapper and its text both take the colour |
| UIWrappers.UITextBox.Content | src/engine/components/renderables/primitives/ui/UITextBoxPrimitive.cpp:9-32 | a content-sized box at (0, 0) whose transform takes its content size; setText's auto-sizing follows the config's flag |
| UIWrappers.UITextBox.Fixed | src/engine/components/renderables/primitives/ui/UITextBoxPrimitive.cpp:34-57 | a fixed box at (0, 0) of the given size, the transform the same, with auto-sizing off |
| UIWrappers.UITextBox.Draw | src/engine/components/renderables/primitives/ui/UITextBoxPrimitive.cpp:59-68 | the box moves to the transform's absolute position and draws background and text; its size and configuration are kept; the first call is the background's draw, the second is nothing without a font and otherwise the text's, showing its current quads |
| UIWrappers.UITextBox.SetText | src/engine/components/renderables/primitives/ui/UITextBoxPrimitive.cpp:70-81 | the text is replaced; the transform follows the content size when auto-sizing and is untouched otherwise |
| UIWrappers.UITextBox.SetFontSize | src/engine/components/renderables/primitives/ui/UITextBoxPrimitive.cpp:83-88 | the box's font size is set |
| UIWrappers.UITextBox.SetTextAlignment | src/engine/components/renderables/primitives/ui/UITextBoxPrimitive.cpp:90-95 | the inner text's alignment is set |
| UIWrappers.UITextBox.SetTextJustification | src/engine/components/renderables/primitives/ui/UITextBoxPrimitive.cpp:97-102 | the inner text's justification is set |
| UIWrappers.UITextBox.SetBackgroundColor | src/engine/components/renderables/primitives/ui/UITextBoxPrimitive.cpp:104-109 | the box's background colour is set |
| UIWrappers.UITextBox.SetTextColor | src/engine/components/renderables/primitives/ui/UITextBoxPrimitive.cpp:111-116 | the box's text colour is set |
| UIWrappers.UITextBox.SetPadding | src/engine/components/renderables/primitives/ui/UITextBoxPrimitive.cpp:118-123 | the four paddings are set and nothing else in the configuration changes |
| UIWrappers.UITextBox.GetContentSize | src/engine/components/renderables/primitives/ui/UITextBoxPrimitive.cpp:131-135 | the transform's size |
| UIWrappers.UITextBox.SetColor | src/engine/components/renderables/primitives/ui/UITextBoxPrimitive.cpp:143-145 | the wrapper's colour changes and, its hook being empty, nothing in the box does |
| UIWrappers.UIRectangle.constructor | src/engine/components/renderables/primitives/ui/UIRectanglePrimitive.cpp:4-12 | the rectangle at (0, 0) with the given size and colour, and a transform of the same size at (0, 0) |
| UIWrappers.UIRectangle.Draw | src/engine/components/renderables/primitives/ui/UIRectanglePrimitive.cpp:14-23 | the rectangle moves to the transform's absolute position, keeps its size, and issues its draw |
| UIWrappers.UIRectangle.SetSize | src/engine/components/renderables/primitives/ui/UIRectanglePrimitive.cpp:25-31 | the transform and the rectangle both take the new size |
| UIWrappers.UIRectangle.GetContentSize | src/engine/components/renderables/primitives/ui/UIRectanglePrimitive.cpp:33-37 | the transform's size |
| UIWrappers.UIRectangle.SetColor | src/engine/components/renderables/primitives/ui/UIRectanglePrimitive.cpp:45-50 | the wrapper and the rectangle both take the colour |
| UIWrappers.UIRoundedRectangle.constructor | src/engine/components/renderables/primitives/ui/UIRoundedRectanglePrimitive.cpp:4-18 | the shape at (0, 0) with the given size, radius, colour and quality (at least 1), and a transform of the same size |
| UIWrappers.UIRoundedRectangle.Draw | src/engine/components/renderables/primitives/ui/UIRoundedRectanglePrimitive.cpp:20-29 | the shape moves to the transform's absolute position, keeps its size and radius, and always issues a draw |
| UIWrappers.UIRoundedRectangle.SetSize | src/engine/components/renderables/primitives/ui/UIRoundedRectanglePrimitive.cpp:31-37 | the transform and the shape both take the new size |
| UIWrappers.UIRoundedRectangle.SetRadius | src/engine/components/renderables/primitives/ui/UIRoundedRectanglePrimitive.cpp:39-44 | the shape's radius is set and its size kept |
| UIWrappers.UIRoundedRectangle.SetQualityPerCorner | src/engine/components/renderables/primitives/ui/UIRoundedRectanglePrimitive.cpp:46-51 | the shape's quality is set, raised to 1 when below, and its radius kept |
| UIWrappers.UIRoundedRectangle.GetContentSize | src/engine/components/renderables/primitives/ui/UIRoundedRectanglePrimitive.cpp:53-57 | the transform's size |
| UIWrappers.UIRoundedRectangle.SetColor | src/engine/components/renderables/primitives/ui/UIRoundedRectanglePrimitive.cpp:65-70 | the wrapper and the shape both take the colour |
| UIWrappers.UICircle.constructor | src/engine/components/renderables/primitives/ui/UICirclePrimitive.cpp:4-13 | the circle centred at (0, 0) with the given radius, colour and segments, and a transform at (0, 0) of 2r x 2r |
| UIWrappers.UICircle.Draw | src/engine/components/renderables/primitives/ui/UICirclePrimitive.cpp:15-24 | the circle's centre is the transform's absolute position plus (r, r), and it always issues a draw |
| UIWrappers.UICircle.SetRadius | src/engine/components/renderables/primitives/ui/UICirclePrimitive.cpp:26-33 | the radius, the transform's 2r x 2r size and the circle all follow |
| UIWrappers.UICircle.SetSegments | src/engine/components/renderables/primitives/ui/UICirclePrimitive.cpp:35-37 | changes nothing |
| UIWrappers.UICircle.GetContentSize | src/engine/components/renderables/primitives/ui/UICirclePrimitive.cpp:39-43 | 2r x 2r from the radius field, whatever the transform's size |
| UIWrappers.UICircle.SetColor | src/engine/components/renderables/primitives/ui/UICirclePrimitive.cpp:51-56 | the wrapper and the circle both take the colour |

## Left out

- Metal objects: device, buffer allocation and `memcpy`, vertex descriptors, shaders, materials and textures. Buffers are sequences; "reuse or reallocate" is kept only as whether the renderable still shares the primitive's buffers.
- Command encoding: a draw is a `DrawCall` value (mesh, topology, index count, matrices). Depth bias and the encoder state are not modelled.
- Logging (`LOG_*`): console output only.
- Matrix arithmetic. The UI containers' orthographic matrix, the world widgets' model matrices, and `WorldButtonPrimitive::updateTransform` are float matrix work; a matrix is an opaque `Mat4`.
- Buttons.PointInProjectedRect: takes the four corners already multiplied by projection · view (clip space). It does not build them from position, orientation and world size, because that is vector normalisation and a matrix product.
- Trigonometry: `cos` and `sin` in `CircleFactory::getPoint` are a `Trig` parameter; the model proves nothing about their values.
- Font files: reading the file, stb_truetype's init and packing, and the atlas texture are an input (`FontSource`). The model keeps the outcome (valid or not), the baked table's size and the division of the atlas boxes by 512.
- Floating point: all `float`s are exact reals. Rounding, NaN and infinities are not modelled; exact comparisons such as the cached-position test are modelled as exact.
- Grids.Grid.Resize: `w * h` is an unbounded product; `size_t` overflow is not modelled.
- Null handles. A wrapper or button whose inner primitive is null cannot arise from these constructors, so `if (button)` and `if (textBox)` are always true here. The "return 0 when there is no text box" getters of `ButtonPrimitive` and the `(0, 0)` measure of an absent text have no model. Null children of containers are modelled, as `None`.
- Cyclic parent chains: the transform arena carries a ghost rank that falls from child to parent (`Transforms.Acyclic`), so a parent chain always ends. The source's `UITransform*` parent pointers can form a cycle, on which `getAbsolutePosition` would recurse forever; that case is excluded.
- The weak pointer to a renderable: every primitive binds only the renderable it owns, so the pointer never expires while bound; expiry is not modelled.
- Shapes.Circle.Rebuild: requires `segments >= -1`. Below that the source builds a vector of negative size, which fails at run time; the constructor stores any count.
- Shapes.Circle.Draw: requires `segments >= -1`, for the same reason.
- LegacyShapes.CircleUIPrimitive.Rebuild: requires `segments >= -1`, for the same reason.
- LegacyShapes.CircleUIPrimitive.Draw: requires `segments >= -1`, for the same reason.
- UIWrappers.UICircle.Draw: requires `segments >= -1` of its circle, for the same reason.
- TextBoxes.DrawChildren: the text child is the corrected `TextPrimitive` (`Draw`, with its `Current` invariant, and the corrected wrap). The source calls the as-written draw, which keeps a renderable's first counts after `setText`; that behaviour is modelled only on the bare primitive (`RebuildAsWritten`, `DrawAsWritten`).
- TextBoxes.TextBox.Draw: modelled on the corrected text primitive, as `TextBoxes.DrawChildren`.
- TextBoxes.LegacyTextBox.Draw: modelled on the corrected text primitive, as `TextBoxes.DrawChildren`.
- UIWrappers.UIText.Draw: modelled on the corrected text primitive; its invariant keeps the text `Current`.
- UIWrappers.UITextBox.Draw: modelled on the corrected text primitive, through `TextBoxes.TextBox.Draw`.
- EngineStore.Fetch: `std::any` is a tagged union of four value types (`EngineStore.Value`: int, real, bool, string); other types are not modelled.
- Strings are sequences of single-byte `char`s; UTF-8 decoding is not modelled, and a byte above 127 is simply outside the baked glyph range.
- `TextPrimitive::getContentSize` is declared but defined in no file; the text's content size is modelled as `measureText`.
- The older `UIElement::updateSizeFromPrimitives` is declared but not defined in the legacy `UIElement.cpp`; the model follows the engine version.
- src/components/renderables/primitives/2d/TextBoxPrimitive.h is not part of this model; the older text box's fields are taken from its .cpp.
- The engine's own `UITransform.h` is not part of this model; the transform the UI wrappers use is the one in src/components/renderables/core/UITransform.cpp.
- The older `CompositeUIPrimitive` (src/components/renderables/primitives/UIPrimitiveCircle.h:34-51) has the same code as `CompositePrimitive` and is modelled once, as `Shapes.Composite`.
- `drawScreenSpace` is inherited by every primitive and always means `draw(projection, identity)`; it is modelled once, on `Shapes.Rectangle`.
- WorldTextBoxPrimitive, WorldCubePrimitive and the MeshFactory variants: matrix building and constant vertex tables, outside the layout core.
- Buttons.Button.Draw: states only that the box draws its two parts and keeps the colour invariant; what each part draws is `TextBoxes.TextBox.Draw`'s contract, which is modelled on the corrected text primitive.
- Buttons.WorldButton.Draw: the model matrix is an input rather than computed by `updateTransform`.
- InputState's global static storage is one `Input` object passed to its users; the GLFW callbacks that feed it are not modelled.

## Findings

| source | as written | input that shows it | evidently intended | confidence | as-written member | corrected member |
|---|---|---|---|---|---|---|
| src/components/renderables/primitives/2d/TextPrimitive.cpp:354-364 | a `'\n'` appends the pending word to the current line without the width test that a space and the end of the text apply | `"AAAA BBBB\n"`, 10 px per character, maxWidth 50: one line `"AAAA BBBB"`, 90 px wide | the word before a `'\n'` wraps like any other: `"AAAA "`, `"BBBB"` | not executed | TextLayout.WrapNewlineOverflow | TextLayout.WrapNewlineCorrected |
| src/components/renderables/primitives/RenderablePrimitive.h:23-30 | `setPrimitiveType` on a `RectanglePrimitive` neither marks it dirty nor rebuilds; the skip test in `ensureMesh` compares against the renderable that the setter has just updated, so the old index list stays | a triangle-strip rectangle (indices `[0,1,3,2]`) switched to Triangle and drawn: 4 indices drawn as a triangle list, one triangle covering half the box | a topology change rebuilds the index list: 6 indices, two triangles | not executed | Shapes.StaleTopologyExample | Shapes.TopologyChangeExample |
| src/components/renderables/primitives/2d/TextPrimitive.cpp:25-28 | `rebuild` returns at once for empty text, and `ensureMesh` makes a renderable only when none exists, so a renderable keeps the counts of the first mesh it was made with | `"H"` drawn, then `setText("")` and drawn again: the second draw still sends the 6 indices of the `"H"` | the cleared text draws nothing, and later texts draw their own counts | not executed | TextPrimitives.StaleTextExample | TextPrimitives.ClearedTextExample |
