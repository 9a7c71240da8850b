// Fonts: the baked glyph table of a Font, the measuring loop, the
// construction outcome (valid only when the atlas texture exists), and the
// FontManager's cache keyed by `path@int(size)`.
//
// Reading the font file, stb_truetype's packing and the Metal texture are
// not modelled: their outcome is a FontSource value given by the caller.

module Fonts {
  import opened Common

  const AtlasWidth: int := 512
  const AtlasHeight: int := 512
  const FirstChar: int := 32
  const NumChars: int := 96

  /** BakedGlyph: atlas box in texture coordinates, placement offsets, advance and pixel size. */
  datatype BakedGlyph = BakedGlyph(x0: real, y0: real, x1: real, y1: real,
                                   xoff: real, yoff: real, xoff2: real, yoff2: real,
                                   xadvance: real, width: int, height: int)

  /** The value-initialised glyph that `bakedGlyphs.resize` inserts. */
  const ZeroGlyph: BakedGlyph := BakedGlyph(0.0, 0.0, 0.0, 0.0, 0.0, 0.0, 0.0, 0.0, 0.0, 0, 0)

  /** stbtt_packedchar: the glyph's box in atlas texels and its placement metrics. */
  datatype PackedChar = PackedChar(x0: nat, y0: nat, x1: nat, y1: nat,
                                   xoff: real, yoff: real, xoff2: real, yoff2: real, xadvance: real)

  /** How far packing got: PackBegin failed, PackFontRange failed, or the packed chars and whether the texture was created. */
  datatype BakeOutcome = PackBeginFailed | PackRangeFailed | Packed(chars: seq<PackedChar>, textureCreated: bool)

  /** What opening the font file produced: an early failure, or the vertical metrics, the scale and the baking outcome. */
  datatype FontSource =
    | OpenFailed
    | ReadFailed
    | InitFailed
    | Opened(ascent: int, descent: int, lineGap: int, scale: real, bake: BakeOutcome)

  /** The packed chars come in a vector of exactly NUM_CHARS entries. */
  predicate WellFormedSource(src: FontSource)
  {
    src.Opened? && src.bake.Packed? ==> |src.bake.chars| == NumChars
  }

  datatype Font = Font(path: string, fontSize: real, valid: bool,
                       lineHeight: real, ascent: real, descent: real,
                       glyphs: seq<BakedGlyph>)

  /** The glyph table has been sized by bakeFont. */
  predicate Baked(f: Font)
  {
    |f.glyphs| == NumChars
  }

  // ------------------------------------------------------------ baking

  /**
   * One iteration of bakeFont's loop: the texel box divided by the atlas
   * size, offsets and advance copied, and the pixel size as the texel
   * difference. Scaling the texture coordinates back gives the texel box.
   */
  function BakeGlyph(pc: PackedChar): (g: BakedGlyph)
    ensures g.x0 * (AtlasWidth as real) == pc.x0 as real && g.x1 * (AtlasWidth as real) == pc.x1 as real
    ensures g.y0 * (AtlasHeight as real) == pc.y0 as real && g.y1 * (AtlasHeight as real) == pc.y1 as real
    ensures pc.x0 <= AtlasWidth ==> 0.0 <= g.x0 <= 1.0
    ensures pc.x1 <= AtlasWidth ==> 0.0 <= g.x1 <= 1.0
    ensures pc.y0 <= AtlasHeight ==> 0.0 <= g.y0 <= 1.0
    ensures pc.y1 <= AtlasHeight ==> 0.0 <= g.y1 <= 1.0
    ensures g.width == pc.x1 - pc.x0 && g.height == pc.y1 - pc.y0
    ensures g.xadvance == pc.xadvance && g.xoff2 - g.xoff == pc.xoff2 - pc.xoff
  {
    BakedGlyph(pc.x0 as real / AtlasWidth as real, pc.y0 as real / AtlasHeight as real,
               pc.x1 as real / AtlasWidth as real, pc.y1 as real / AtlasHeight as real,
               pc.xoff, pc.yoff, pc.xoff2, pc.yoff2, pc.xadvance,
               pc.x1 - pc.x0, pc.y1 - pc.y0)
  }

  function BakedTable(chars: seq<PackedChar>): (t: seq<BakedGlyph>)
    requires |chars| == NumChars
  {
    seq(NumChars, i requires 0 <= i < NumChars => BakeGlyph(chars[i]))
  }

  /** bakeFont's loop: one baked glyph per packed char, in order. */
  method BakeGlyphs(chars: seq<PackedChar>) returns (table: seq<BakedGlyph>)
    requires |chars| == NumChars
    ensures |table| == NumChars
    ensures forall i :: 0 <= i < NumChars ==> table[i] == BakeGlyph(chars[i])
  {
    table := seq(NumChars, _ => ZeroGlyph);
    var i := 0;
    while i < NumChars
      invariant 0 <= i <= NumChars && |table| == NumChars
      invariant forall j :: 0 <= j < i ==> table[j] == BakeGlyph(chars[j])
    {
      table := table[i := BakeGlyph(chars[i])];
      i := i + 1;
    }
  }

  /**
   * The Font a constructor call leaves behind. Early failures keep the
   * initial state (invalid, zero metrics, no table); once the metrics are
   * read, bakeFont sizes the table to NUM_CHARS before it can fail.
   */
  function MakeFont(path: string, size: real, src: FontSource): Font
    requires WellFormedSource(src)
  {
    match src
    case Opened(asc, desc, gap, scale, bake) =>
      var glyphs := if bake.Packed? then BakedTable(bake.chars) else seq(NumChars, _ => ZeroGlyph);
      Font(path, size, bake.Packed? && bake.textureCreated,
           (asc - desc + gap) as real * scale, asc as real * scale, desc as real * scale, glyphs)
    case _ => Font(path, size, false, 0.0, 0.0, 0.0, [])
  }

  /** The Font constructor followed by bakeFont, step by step. */
  method NewFont(path: string, size: real, src: FontSource) returns (f: Font)
    requires WellFormedSource(src)
    ensures f == MakeFont(path, size, src)
  {
    f := Font(path, size, false, 0.0, 0.0, 0.0, []);
    if !src.Opened? {
      return;
    }
    var scale := src.scale;
    f := f.(ascent := src.ascent as real * scale, descent := src.descent as real * scale,
            lineHeight := (src.ascent - src.descent + src.lineGap) as real * scale);
    f := f.(glyphs := seq(NumChars, _ => ZeroGlyph));
    if !src.bake.Packed? {
      return;
    }
    var table := BakeGlyphs(src.bake.chars);
    f := f.(glyphs := table, valid := src.bake.textureCreated);
  }

  /**
   * A Font is valid exactly when baking reached the texture and the texture
   * was created; every early failure leaves it invalid with no table, and a
   * valid font has its full table.
   */
  lemma FontValidity(path: string, size: real, src: FontSource)
    requires WellFormedSource(src)
    ensures MakeFont(path, size, src).valid <==> src.Opened? && src.bake.Packed? && src.bake.textureCreated
    ensures (src.OpenFailed? || src.ReadFailed? || src.InitFailed?) ==>
              !MakeFont(path, size, src).valid && MakeFont(path, size, src).glyphs == []
    ensures src.Opened? ==>
              Baked(MakeFont(path, size, src))
              && MakeFont(path, size, src).lineHeight == (src.ascent - src.descent + src.lineGap) as real * src.scale
  {
  }

  // ------------------------------------------------------------ glyph lookup

  /** Font::getGlyph: a glyph exactly for codes 32..127. */
  function GetGlyph(f: Font, c: char): (r: Option<BakedGlyph>)
    requires Baked(f)
    ensures r.Some? <==> 0 <= c as int - FirstChar < NumChars
    ensures r.Some? ==> r.value == f.glyphs[c as int - FirstChar]
  {
    var index := c as int - FirstChar;
    if index < 0 || index >= NumChars then None else Some(f.glyphs[index])
  }

  /** Control characters such as '\n' and '\t' have no glyph. */
  lemma ControlCharsHaveNoGlyph(f: Font)
    requires Baked(f)
    ensures GetGlyph(f, '\n').None? && GetGlyph(f, '\t').None? && GetGlyph(f, ' ').Some?
  {
  }

  /** The advance a character contributes: its glyph's, or 0 without one. */
  function Advance(f: Font, c: char): real
    requires Baked(f)
  {
    match GetGlyph(f, c)
    case Some(g) => g.xadvance
    case None => 0.0
  }

  /** The summed advance of a string, character by character. */
  function AdvanceSum(f: Font, s: string): real
    requires Baked(f)
  {
    if s == [] then 0.0 else AdvanceSum(f, s[..|s| - 1]) + Advance(f, s[|s| - 1])
  }

  /** Measuring is additive over concatenation. */
  lemma {:induction false} AdvanceSumAppend(f: Font, a: string, b: string)
    requires Baked(f)
    ensures AdvanceSum(f, a + b) == AdvanceSum(f, a) + AdvanceSum(f, b)
  {
    if b != [] {
      assert (a + b)[..|a + b| - 1] == a + b[..|b| - 1];
      assert (a + b)[|a + b| - 1] == b[|b| - 1];
      AdvanceSumAppend(f, a, b[..|b| - 1]);
    } else {
      assert a + b == a;
    }
  }

  /** Appending one character adds its advance. */
  lemma AdvanceSumSnoc(f: Font, s: string, c: char)
    requires Baked(f)
    ensures AdvanceSum(f, s + [c]) == AdvanceSum(f, s) + Advance(f, c)
  {
    assert (s + [c])[..|s|] == s;
  }

  /** Font::measureText: width sums the advances of characters that have glyphs, height is the line height. */
  method MeasureText(f: Font, text: string) returns (width: real, height: real)
    requires Baked(f)
    ensures width == AdvanceSum(f, text)
    ensures height == f.lineHeight
  {
    width := 0.0;
    height := f.lineHeight;
    var i := 0;
    while i < |text|
      invariant 0 <= i <= |text|
      invariant width == AdvanceSum(f, text[..i])
    {
      assert text[..i + 1][..i] == text[..i];
      var glyph := GetGlyph(f, text[i]);
      if glyph.Some? {
        width := width + glyph.value.xadvance;
      }
      i := i + 1;
    }
    assert text[..i] == text;
  }

  /** The text is measured as one line: a '\n' adds nothing to the width. */
  lemma {:induction false} MeasureIgnoresNewline(f: Font, a: string, b: string)
    requires Baked(f)
    ensures AdvanceSum(f, a + "\n" + b) == AdvanceSum(f, a + b)
  {
    AdvanceSumAppend(f, a + "\n", b);
    AdvanceSumAppend(f, a, b);
    AdvanceSumSnoc(f, a, '\n');
  }

  /** With non-negative advances, a longer text never measures narrower. */
  lemma {:induction false} AdvanceSumMonotone(f: Font, a: string, b: string)
    requires Baked(f)
    requires forall i :: 0 <= i < NumChars ==> f.glyphs[i].xadvance >= 0.0
    ensures AdvanceSum(f, a) <= AdvanceSum(f, a + b)
  {
    AdvanceSumAppend(f, a, b);
    AdvanceSumNonNegative(f, b);
  }

  lemma {:induction false} AdvanceSumNonNegative(f: Font, s: string)
    requires Baked(f)
    requires forall i :: 0 <= i < NumChars ==> f.glyphs[i].xadvance >= 0.0
    ensures AdvanceSum(f, s) >= 0.0
  {
    if s != [] {
      AdvanceSumNonNegative(f, s[..|s| - 1]);
    }
  }

  // ------------------------------------------------------------ cache keys

  /** C++ `(int)` conversion of a float: truncation toward zero. */
  function TruncToInt(x: real): (n: int)
    ensures x >= 0.0 ==> n >= 0 && n as real <= x < n as real + 1.0
    ensures x < 0.0 ==> n <= 0 && n as real - 1.0 < x <= n as real
  {
    if x >= 0.0 then x.Floor else -((-x).Floor)
  }

  function DigitChar(d: int): (c: char)
    requires 0 <= d < 10
    ensures '0' <= c <= '9'
  {
    (('0' as int) + d) as char
  }

  /** Decimal digits of a natural number, most significant first. */
  function NatToString(n: nat): (s: string)
    ensures |s| >= 1
    ensures forall i :: 0 <= i < |s| ==> '0' <= s[i] <= '9'
    ensures (|s| == 1) == (n < 10)
  {
    if n < 10 then [DigitChar(n)] else NatToString(n / 10) + [DigitChar(n % 10)]
  }

  /** std::to_string on an int: a '-' sign before the digits of a negative value. */
  function IntToString(n: int): string
  {
    if n < 0 then "-" + NatToString(-n) else NatToString(n)
  }

  lemma {:induction false} NatToStringInjective(a: nat, b: nat)
    requires NatToString(a) == NatToString(b)
    ensures a == b
  {
    var s := NatToString(a);
    if a >= 10 && b >= 10 {
      assert s[..|s| - 1] == NatToString(a / 10) == NatToString(b / 10);
      NatToStringInjective(a / 10, b / 10);
      assert DigitChar(a % 10) == s[|s| - 1] == DigitChar(b % 10);
    }
  }

  lemma IntToStringInjective(a: int, b: int)
    requires IntToString(a) == IntToString(b)
    ensures a == b
  {
    if a < 0 && b < 0 {
      assert IntToString(a)[1..] == NatToString(-a);
      assert IntToString(b)[1..] == NatToString(-b);
      NatToStringInjective(-a, -b);
    } else if a >= 0 && b >= 0 {
      NatToStringInjective(a, b);
    } else {
      IntToStringSign(a);
      IntToStringSign(b);
      assert false;
    }
  }

  /** The sign character appears exactly for negative values. */
  lemma IntToStringSign(n: int)
    ensures |IntToString(n)| >= 1
    ensures IntToString(n)[0] == '-' <==> n < 0
  {
  }

  /** FontManager::makeFontKey: `path + "@" + to_string((int)size)`. */
  function MakeFontKey(path: string, size: real): string
  {
    path + "@" + IntToString(TruncToInt(size))
  }

  /** For one path, two sizes share a cache key exactly when their integer parts agree. */
  lemma FontKeySharing(path: string, a: real, b: real)
    ensures MakeFontKey(path, a) == MakeFontKey(path, b) <==> TruncToInt(a) == TruncToInt(b)
  {
    if MakeFontKey(path, a) == MakeFontKey(path, b) {
      var n := |path| + 1;
      assert MakeFontKey(path, a)[n..] == IntToString(TruncToInt(a));
      assert MakeFontKey(path, b)[n..] == IntToString(TruncToInt(b));
      IntToStringInjective(TruncToInt(a), TruncToInt(b));
    }
  }

  // ------------------------------------------------------------ the cache

  /** FontManager: the device (present or not) and the cache of loaded fonts. */
  class FontManager {
    var hasDevice: bool
    var fontCache: map<string, Font>

    /** Only valid, baked fonts are ever stored. */
    ghost predicate Valid()
      reads this
    {
      forall k :: k in fontCache ==> fontCache[k].valid && Baked(fontCache[k])
    }

    constructor ()
      ensures Valid() && !hasDevice && fontCache == map[]
    {
      hasDevice := false;
      fontCache := map[];
    }

    /** FontManager::initialize: records the device. */
    method Initialize(device: bool)
      modifies this
      ensures hasDevice == device && fontCache == old(fontCache)
    {
      hasDevice := device;
    }

    /**
     * FontManager::loadFont: no device or an invalid font gives None and
     * stores nothing; a valid font is stored under its key and returned.
     */
    method LoadFont(path: string, size: real, src: FontSource) returns (r: Option<Font>)
      requires Valid() && WellFormedSource(src)
      modifies this
      ensures Valid() && hasDevice == old(hasDevice)
      ensures !old(hasDevice) || !MakeFont(path, size, src).valid ==> r == None && fontCache == old(fontCache)
      ensures old(hasDevice) && MakeFont(path, size, src).valid ==>
        r == Some(MakeFont(path, size, src))
        && fontCache == old(fontCache)[MakeFontKey(path, size) := MakeFont(path, size, src)]
      ensures r.Some? ==> r.value.valid && Baked(r.value)
    {
      if !hasDevice {
        return None;
      }
      var font := NewFont(path, size, src);
      FontValidity(path, size, src);
      if !font.valid {
        return None;
      }
      var key := MakeFontKey(path, size);
      fontCache := fontCache[key := font];
      return Some(font);
    }

    /**
     * FontManager::getFont: a key hit returns the cached font without
     * loading; a miss does whatever loadFont does.
     */
    method GetFont(path: string, size: real, src: FontSource) returns (r: Option<Font>)
      requires Valid() && WellFormedSource(src)
      modifies this
      ensures Valid() && hasDevice == old(hasDevice)
      ensures MakeFontKey(path, size) in old(fontCache) ==>
        r == Some(old(fontCache)[MakeFontKey(path, size)]) && fontCache == old(fontCache)
      ensures MakeFontKey(path, size) !in old(fontCache) && (!old(hasDevice) || !MakeFont(path, size, src).valid) ==>
        r == None && fontCache == old(fontCache)
      ensures MakeFontKey(path, size) !in old(fontCache) && old(hasDevice) && MakeFont(path, size, src).valid ==>
        r == Some(MakeFont(path, size, src))
        && fontCache == old(fontCache)[MakeFontKey(path, size) := MakeFont(path, size, src)]
      ensures r.Some? ==> r.value.valid && Baked(r.value)
    {
      var key := MakeFontKey(path, size);
      if key in fontCache {
        return Some(fontCache[key]);
      }
      r := LoadFont(path, size, src);
    }
  }
}
