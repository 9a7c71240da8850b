// The layout half of TextPrimitive: greedy word wrapping, splitting on
// '\n', the visible-character count, the pen start positions for each
// alignment and justification, and the emission of one textured quad per
// glyph with its six 16-bit indices.

module TextLayout {
  import opened Common
  import opened Fonts

  datatype TextAlign = AlignStart | AlignCenter | AlignEnd
  datatype TextJustify = JustifyStart | JustifyCenter | JustifyEnd

  // ================================================================ wrapping

  /**
   * The running state of wrapText: finished lines, the current line and its
   * width, and the pending word and its width.
   */
  datatype WrapState = WrapState(lines: seq<string>, line: string, lineWidth: real,
                                 word: string, wordWidth: real)

  const WrapInit: WrapState := WrapState([], [], 0.0, [], 0.0)

  /**
   * Placing the pending word: it starts a new line when it does not fit
   * after a non-empty current line, and is appended otherwise.
   */
  function PlaceWord(st: WrapState, maxWidth: real): WrapState
  {
    if st.word == [] then st
    else if st.lineWidth + st.wordWidth > maxWidth && st.line != [] then
      WrapState(st.lines + [st.line], st.word, st.wordWidth, [], 0.0)
    else
      WrapState(st.lines, st.line + st.word, st.lineWidth + st.wordWidth, [], 0.0)
  }

  /**
   * One character of wrapText. `checkOnNewline` selects the '\n' branch:
   * false is the source as written (the pending word joins the line with no
   * width test), true places the word as the other two branches do.
   */
  function WrapStep(f: Font, maxWidth: real, checkOnNewline: bool, st: WrapState, c: char): WrapState
    requires Baked(f)
  {
    if c == '\n' then
      if checkOnNewline then
        var p := PlaceWord(st, maxWidth);
        WrapState(p.lines + [p.line], [], 0.0, [], 0.0)
      else
        WrapState(st.lines + [st.line + st.word], [], 0.0, [], 0.0)
    else
      match GetGlyph(f, c)
      case None => st
      case Some(g) =>
        if c == ' ' || c == '\t' then
          var p := PlaceWord(st, maxWidth);
          if p.lineWidth + g.xadvance <= maxWidth then
            p.(line := p.line + [c], lineWidth := p.lineWidth + g.xadvance)
          else p
        else
          st.(word := st.word + [c], wordWidth := st.wordWidth + g.xadvance)
  }

  /** The state after the characters of `text`, one step each. */
  function WrapRun(f: Font, maxWidth: real, checkOnNewline: bool, text: string): WrapState
    requires Baked(f)
  {
    if text == [] then WrapInit
    else WrapStep(f, maxWidth, checkOnNewline, WrapRun(f, maxWidth, checkOnNewline, text[..|text| - 1]), text[|text| - 1])
  }

  /** After the loop: place the last word, flush a non-empty line, and never return no lines. */
  function WrapFinish(st: WrapState, maxWidth: real): (lines: seq<string>)
    ensures |lines| >= 1
  {
    var p := PlaceWord(st, maxWidth);
    var ls := if p.line != [] then p.lines + [p.line] else p.lines;
    if ls == [] then [[]] else ls
  }

  /** wrapText exactly as written in the source. */
  function WrapAsWritten(font: Option<Font>, text: string, maxWidth: real): seq<string>
    requires font.Some? ==> Baked(font.value)
  {
    if font.None? then [] else WrapFinish(WrapRun(font.value, maxWidth, false, text), maxWidth)
  }

  /** wrapText with the width test applied to the word a '\n' closes. */
  function Wrap(font: Option<Font>, text: string, maxWidth: real): seq<string>
    requires font.Some? ==> Baked(font.value)
  {
    if font.None? then [] else WrapFinish(WrapRun(font.value, maxWidth, true, text), maxWidth)
  }

  /** No font gives no lines; with a font there is always at least one line. */
  lemma WrapLineCount(font: Option<Font>, text: string, maxWidth: real)
    requires font.Some? ==> Baked(font.value)
    ensures font.None? ==> Wrap(font, text, maxWidth) == [] && WrapAsWritten(font, text, maxWidth) == []
    ensures font.Some? ==> |Wrap(font, text, maxWidth)| >= 1 && |WrapAsWritten(font, text, maxWidth)| >= 1
  {
  }

  /** On a text without '\n' the two wraps run through the same states. */
  lemma {:induction false} WrapRunNoNewline(f: Font, maxWidth: real, text: string)
    requires Baked(f) && '\n' !in text
    ensures WrapRun(f, maxWidth, false, text) == WrapRun(f, maxWidth, true, text)
  {
    if text != [] {
      var prefix := text[..|text| - 1];
      assert forall c :: c in prefix ==> c in text;
      WrapRunNoNewline(f, maxWidth, prefix);
    }
  }

  /**
   * The wrap as written and the corrected one differ only through '\n': on
   * a text without one they give the same lines, so the width rule of the
   * corrected wrap holds for the source's too.
   */
  lemma WrapAgreesWithoutNewline(font: Option<Font>, text: string, maxWidth: real)
    requires font.Some? ==> Baked(font.value)
    requires '\n' !in text
    ensures WrapAsWritten(font, text, maxWidth) == Wrap(font, text, maxWidth)
  {
    if font.Some? {
      WrapRunNoNewline(font.value, maxWidth, text);
    }
  }

  /** WrapRun one character further. */
  lemma WrapRunStep(f: Font, maxWidth: real, check: bool, text: string, i: nat)
    requires Baked(f) && i < |text|
    ensures WrapRun(f, maxWidth, check, text[..i + 1]) == WrapStep(f, maxWidth, check, WrapRun(f, maxWidth, check, text[..i]), text[i])
  {
    assert text[..i + 1][..i] == text[..i];
  }

  /**
   * wrapText, character by character over local state, as written: a '\n'
   * joins the pending word to the line with no width test.
   */
  method WrapText(font: Option<Font>, text: string, maxWidth: real) returns (lines: seq<string>)
    requires font.Some? ==> Baked(font.value)
    ensures lines == WrapAsWritten(font, text, maxWidth)
  {
    lines := [];
    if font.None? {
      return;
    }
    var f := font.value;
    var currentLine: string := [];
    var currentWidth: real := 0.0;
    var word: string := [];
    var wordWidth: real := 0.0;
    var i := 0;
    while i < |text|
      invariant 0 <= i <= |text|
      invariant WrapState(lines, currentLine, currentWidth, word, wordWidth) == WrapRun(f, maxWidth, false, text[..i])
      invariant word == [] ==> wordWidth == 0.0
    {
      WrapRunStep(f, maxWidth, false, text, i);
      var c := text[i];
      if c == '\n' {
        if word != [] {
          currentLine := currentLine + word;
          word := [];
          wordWidth := 0.0;
        } else {
          assert currentLine + word == currentLine;
        }
        lines := lines + [currentLine];
        currentLine := [];
        currentWidth := 0.0;
      } else {
        var glyph := GetGlyph(f, c);
        if glyph.Some? {
          var charAdvance := glyph.value.xadvance;
          if c == ' ' || c == '\t' {
            if word != [] {
              if currentWidth + wordWidth > maxWidth && currentLine != [] {
                lines := lines + [currentLine];
                currentLine := word;
                currentWidth := wordWidth;
              } else {
                currentLine := currentLine + word;
                currentWidth := currentWidth + wordWidth;
              }
              word := [];
              wordWidth := 0.0;
            }
            if currentWidth + charAdvance <= maxWidth {
              currentLine := currentLine + [c];
              currentWidth := currentWidth + charAdvance;
            }
          } else {
            word := word + [c];
            wordWidth := wordWidth + charAdvance;
          }
        }
      }
      i := i + 1;
    }
    assert text[..i] == text;
    if word != [] {
      if currentWidth + wordWidth > maxWidth && currentLine != [] {
        lines := lines + [currentLine];
        currentLine := word;
      } else {
        currentLine := currentLine + word;
      }
    }
    if currentLine != [] {
      lines := lines + [currentLine];
    }
    if lines == [] {
      lines := [[]];
    }
  }

  // ---------------------------------------------------------- wrap: glyphs

  /** Every character of `s` has a baked glyph. */
  predicate GlyphsOnly(f: Font, s: string)
    requires Baked(f)
  {
    forall i :: 0 <= i < |s| ==> GetGlyph(f, s[i]).Some?
  }

  predicate StateGlyphsOnly(f: Font, st: WrapState)
    requires Baked(f)
  {
    (forall k :: 0 <= k < |st.lines| ==> GlyphsOnly(f, st.lines[k]))
    && GlyphsOnly(f, st.line) && GlyphsOnly(f, st.word)
  }

  lemma GlyphsOnlyConcat(f: Font, a: string, b: string)
    requires Baked(f) && GlyphsOnly(f, a) && GlyphsOnly(f, b)
    ensures GlyphsOnly(f, a + b)
  {
    forall i | 0 <= i < |a + b|
      ensures GetGlyph(f, (a + b)[i]).Some?
    {
      if i < |a| { assert (a + b)[i] == a[i]; } else { assert (a + b)[i] == b[i - |a|]; }
    }
  }

  lemma PlaceWordGlyphsOnly(f: Font, st: WrapState, maxWidth: real)
    requires Baked(f) && StateGlyphsOnly(f, st)
    ensures StateGlyphsOnly(f, PlaceWord(st, maxWidth))
  {
    GlyphsOnlyConcat(f, st.line, st.word);
  }

  lemma {:induction false} WrapRunGlyphsOnly(f: Font, maxWidth: real, check: bool, text: string)
    requires Baked(f)
    ensures StateGlyphsOnly(f, WrapRun(f, maxWidth, check, text))
  {
    if text != [] {
      var prefix := text[..|text| - 1];
      var c := text[|text| - 1];
      var st := WrapRun(f, maxWidth, check, prefix);
      WrapRunGlyphsOnly(f, maxWidth, check, prefix);
      PlaceWordGlyphsOnly(f, st, maxWidth);
      GlyphsOnlyConcat(f, st.line, st.word);
      var p := PlaceWord(st, maxWidth);
      if c != '\n' && GetGlyph(f, c).Some? {
        GlyphsOnlyConcat(f, p.line, [c]);
        GlyphsOnlyConcat(f, st.word, [c]);
      }
    }
  }

  /**
   * Characters without a glyph never reach a line, so neither '\n' nor '\t'
   * appears in any wrapped line.
   */
  lemma WrapDropsGlyphless(font: Option<Font>, text: string, maxWidth: real)
    requires font.Some? && Baked(font.value)
    ensures forall k :: 0 <= k < |Wrap(font, text, maxWidth)| ==> GlyphsOnly(font.value, Wrap(font, text, maxWidth)[k])
    ensures forall k, i :: 0 <= k < |Wrap(font, text, maxWidth)| && 0 <= i < |Wrap(font, text, maxWidth)[k]| ==>
              Wrap(font, text, maxWidth)[k][i] != '\n' && Wrap(font, text, maxWidth)[k][i] != '\t'
  {
    var f := font.value;
    var st := WrapRun(f, maxWidth, true, text);
    WrapRunGlyphsOnly(f, maxWidth, true, text);
    PlaceWordGlyphsOnly(f, st, maxWidth);
    var lines := Wrap(font, text, maxWidth);
    assert forall k :: 0 <= k < |lines| ==> GlyphsOnly(f, lines[k]);
    forall k, i | 0 <= k < |lines| && 0 <= i < |lines[k]|
      ensures lines[k][i] != '\n' && lines[k][i] != '\t'
    {
      assert GetGlyph(f, lines[k][i]).Some?;
    }
  }

  // ----------------------------------------------------------- wrap: width

  /** A line fits: its width is within the limit, or it is a single word (no space). */
  predicate LineFits(f: Font, maxWidth: real, s: string)
    requires Baked(f)
  {
    AdvanceSum(f, s) <= maxWidth || ' ' !in s
  }

  predicate StateFits(f: Font, maxWidth: real, st: WrapState)
    requires Baked(f)
  {
    st.lineWidth == AdvanceSum(f, st.line) && st.wordWidth == AdvanceSum(f, st.word)
    && ' ' !in st.word && LineFits(f, maxWidth, st.line)
    && forall k :: 0 <= k < |st.lines| ==> LineFits(f, maxWidth, st.lines[k])
  }

  lemma PlaceWordFits(f: Font, maxWidth: real, st: WrapState)
    requires Baked(f) && StateFits(f, maxWidth, st)
    ensures StateFits(f, maxWidth, PlaceWord(st, maxWidth))
  {
    AdvanceSumAppend(f, st.line, st.word);
    if st.line == [] {
      assert st.line + st.word == st.word;
    }
  }

  /** One character keeps the state fitting (with the corrected '\n' branch). */
  lemma WrapStepFits(f: Font, maxWidth: real, st: WrapState, c: char)
    requires Baked(f) && StateFits(f, maxWidth, st)
    ensures StateFits(f, maxWidth, WrapStep(f, maxWidth, true, st, c))
  {
    PlaceWordFits(f, maxWidth, st);
    var p := PlaceWord(st, maxWidth);
    if c == '\n' {
      assert ' ' !in [];
    } else if GetGlyph(f, c).Some? {
      var g := GetGlyph(f, c).value;
      if c == ' ' || c == '\t' {
        assert c == ' ';
        if p.lineWidth + g.xadvance <= maxWidth {
          AdvanceSumSnoc(f, p.line, c);
        }
      } else {
        AdvanceSumSnoc(f, st.word, c);
        assert ' ' !in st.word + [c];
      }
    }
  }

  lemma {:induction false} WrapRunFits(f: Font, maxWidth: real, text: string)
    requires Baked(f)
    ensures StateFits(f, maxWidth, WrapRun(f, maxWidth, true, text))
  {
    if text != [] {
      WrapRunFits(f, maxWidth, text[..|text| - 1]);
      WrapStepFits(f, maxWidth, WrapRun(f, maxWidth, true, text[..|text| - 1]), text[|text| - 1]);
    }
  }

  /**
   * With the '\n' branch placing its word like the others, every wrapped
   * line is within maxWidth unless it is a single over-wide word.
   */
  lemma {:induction false} WrapRespectsWidth(font: Option<Font>, text: string, maxWidth: real)
    requires font.Some? && Baked(font.value)
    ensures forall k :: 0 <= k < |Wrap(font, text, maxWidth)| ==>
              LineFits(font.value, maxWidth, Wrap(font, text, maxWidth)[k])
  {
    var f := font.value;
    var st := WrapRun(f, maxWidth, true, text);
    WrapRunFits(f, maxWidth, text);
    PlaceWordFits(f, maxWidth, st);
    assert ' ' !in [];
  }

  // --------------------------------------------------------- wrap: newline

  /**
   * A '\n' always closes the current line: afterwards the line, its width
   * and the pending word are empty, and at least one more line is finished.
   * As written, exactly the old line followed by the pending word is pushed.
   */
  lemma NewlineClosesLine(f: Font, maxWidth: real, check: bool, text: string)
    requires Baked(f)
    ensures var before := WrapRun(f, maxWidth, check, text);
            var after := WrapRun(f, maxWidth, check, text + ['\n']);
            after.line == [] && after.lineWidth == 0.0 && after.word == []
            && |after.lines| > |before.lines|
            && (!check ==> after.lines == before.lines + [before.line + before.word])
  {
    assert (text + ['\n'])[..|text|] == text;
  }

  // -------------------------------------------------------- wrap: examples

  /** A font in which every baked glyph advances by `adv` and has no ink. */
  function MonoFont(adv: real): (f: Font)
    ensures Baked(f)
  {
    Font([], 0.0, true, 0.0, 0.0, 0.0,
         seq(NumChars, _ => BakedGlyph(0.0, 0.0, 0.0, 0.0, 0.0, 0.0, 0.0, 0.0, adv, 0, 0)))
  }

  /** Every printable character of MonoFont(adv) advances by adv. */
  lemma MonoAdvance(adv: real, c: char)
    requires 32 <= c as int < 128
    ensures GetGlyph(MonoFont(adv), c).Some? && Advance(MonoFont(adv), c) == adv
  {
  }

  /** Every printable character of `f` has a glyph advancing by `adv`. */
  ghost predicate Uniform(f: Font, adv: real)
  {
    Baked(f) && forall c: char :: 32 <= c as int < 128 ==> GetGlyph(f, c).Some? && Advance(f, c) == adv
  }

  lemma MonoUniform(adv: real)
    ensures Uniform(MonoFont(adv), adv)
  {
    forall c: char | 32 <= c as int < 128
      ensures GetGlyph(MonoFont(adv), c).Some? && Advance(MonoFont(adv), c) == adv
    {
      MonoAdvance(adv, c);
    }
  }

  /** In a uniform font a printable non-space character extends the pending word. */
  lemma UniformWordStep(f: Font, adv: real, maxWidth: real, check: bool, st: WrapState, c: char)
    requires Uniform(f, adv) && 32 <= c as int < 128 && c != ' '
    ensures WrapStep(f, maxWidth, check, st, c) == st.(word := st.word + [c], wordWidth := st.wordWidth + adv)
  {
    assert GetGlyph(f, c).Some? && Advance(f, c) == adv;
  }

  /** WrapRun over a text with one more character is one more WrapStep. */
  lemma WrapRunSnoc(f: Font, maxWidth: real, check: bool, text: string, c: char)
    requires Baked(f)
    ensures WrapRun(f, maxWidth, check, text + [c]) == WrapStep(f, maxWidth, check, WrapRun(f, maxWidth, check, text), c)
  {
    assert (text + [c])[..|text|] == text;
  }

  /** The width of `n` characters of a font whose every glyph advances by `adv`. */
  function MonoWidth(n: nat, adv: real): real
  {
    if n == 0 then 0.0 else MonoWidth(n - 1, adv) + adv
  }

  /** In a uniform font a word of printable non-space characters only extends the pending word. */
  lemma {:induction false} UniformRunAppendWord(f: Font, adv: real, maxWidth: real, check: bool, prefix: string, w: string,
                                                st: WrapState)
    requires Uniform(f, adv)
    requires forall k :: 0 <= k < |w| ==> 32 <= w[k] as int < 128 && w[k] != ' '
    requires WrapRun(f, maxWidth, check, prefix) == st
    ensures WrapRun(f, maxWidth, check, prefix + w)
              == st.(word := st.word + w, wordWidth := st.wordWidth + MonoWidth(|w|, adv))
    decreases |w|
  {
    if w == [] {
      assert prefix + w == prefix && st.word + w == st.word;
    } else {
      var front, c := w[..|w| - 1], w[|w| - 1];
      var mid := st.(word := st.word + front, wordWidth := st.wordWidth + MonoWidth(|front|, adv));
      UniformRunAppendWord(f, adv, maxWidth, check, prefix, front, st);
      WrapRunSnoc(f, maxWidth, check, prefix + front, c);
      UniformWordStep(f, adv, maxWidth, check, mid, c);
      SnocSplit(prefix, w);
      SnocSplit(st.word, w);
    }
  }

  /** A non-empty word is its front followed by its last character. */
  lemma SnocSplit(p: string, w: string)
    requires |w| > 0
    ensures p + w == (p + w[..|w| - 1]) + [w[|w| - 1]]
  {
    assert w == w[..|w| - 1] + [w[|w| - 1]];
  }

  /** The space after "AAAAA" places the word, which exactly fills 50 px, and is itself dropped. */
  lemma TwoWordsRunFirstWord(a: string)
    requires a == "AAAAA"
    ensures WrapRun(MonoFont(10.0), 50.0, true, a + " ") == WrapState([], a, 50.0, [], 0.0)
  {
    var none: string := [];
    MonoUniform(10.0);
    UniformRunAppendWord(MonoFont(10.0), 10.0, 50.0, true, none, a, WrapInit);
    assert none + a == a;
    assert MonoWidth(5, 10.0) == 50.0;
    MonoAdvance(10.0, ' ');
    WrapRunSnoc(MonoFont(10.0), 50.0, true, a, ' ');
    assert a + [' '] == a + " ";
  }

  /** "AAAAA BBBBB" at 10 px per character in a 50 px box wraps into its two words. */
  lemma WrapExampleTwoWords(a: string, b: string)
    requires a == "AAAAA" && b == "BBBBB"
    ensures Wrap(Some(MonoFont(10.0)), a + " " + b, 50.0) == [a, b]
  {
    TwoWordsRunFirstWord(a);
    MonoUniform(10.0);
    UniformRunAppendWord(MonoFont(10.0), 10.0, 50.0, true, a + " ", b, WrapState([], a, 50.0, [], 0.0));
    assert MonoWidth(5, 10.0) == 50.0;
    var st := WrapRun(MonoFont(10.0), 50.0, true, a + " " + b);
    assert st == WrapState([], a, 50.0, b, 50.0);
    assert PlaceWord(st, 50.0) == WrapState([a], b, 50.0, [], 0.0);
  }

  /** The space after "AAAA" places the word and still fits: the line is "AAAA " at 50 px. */
  lemma OverflowRunFirstWord(check: bool, a: string)
    requires a == "AAAA"
    ensures WrapRun(MonoFont(10.0), 50.0, check, a + " ") == WrapState([], a + " ", 50.0, [], 0.0)
  {
    var none: string := [];
    MonoUniform(10.0);
    UniformRunAppendWord(MonoFont(10.0), 10.0, 50.0, check, none, a, WrapInit);
    assert none + a == a;
    assert MonoWidth(4, 10.0) == 40.0;
    MonoAdvance(10.0, ' ');
    WrapRunSnoc(MonoFont(10.0), 50.0, check, a, ' ');
    assert a + [' '] == a + " ";
  }

  /** The '\n' counterexample up to the newline, in both readings. */
  lemma OverflowRunBeforeNewline(check: bool, a: string, b: string)
    requires a == "AAAA" && b == "BBBB"
    ensures WrapRun(MonoFont(10.0), 50.0, check, a + " " + b) == WrapState([], a + " ", 50.0, b, 40.0)
  {
    OverflowRunFirstWord(check, a);
    MonoUniform(10.0);
    UniformRunAppendWord(MonoFont(10.0), 10.0, 50.0, check, a + " ", b, WrapState([], a + " ", 50.0, [], 0.0));
    assert MonoWidth(4, 10.0) == 40.0;
  }

  /**
   * The source as written lets a '\n' glue the pending word onto the line
   * without the width test: "AAAA BBBB\n" at 10 px per character in a 50 px
   * box gives the single line "AAAA BBBB".
   */
  lemma WrapNewlineOverflow(a: string, b: string)
    requires a == "AAAA" && b == "BBBB"
    ensures WrapAsWritten(Some(MonoFont(10.0)), a + " " + b + "\n", 50.0) == [a + " " + b]
  {
    OverflowRunBeforeNewline(false, a, b);
    WrapRunSnoc(MonoFont(10.0), 50.0, false, a + " " + b, '\n');
    assert a + " " + b + ['\n'] == a + " " + b + "\n";
  }

  /** That line is 90 px wide and has a space, so it does not fit the 50 px box. */
  lemma OverflowLineTooWide(a: string, b: string)
    requires a == "AAAA" && b == "BBBB"
    ensures AdvanceSum(MonoFont(10.0), a + " " + b) == 90.0
    ensures !LineFits(MonoFont(10.0), 50.0, a + " " + b)
  {
    var f := MonoFont(10.0);
    var s := a + " " + b;
    var k := 0;
    while k < |s|
      invariant 0 <= k <= |s|
      invariant AdvanceSum(f, s[..k]) == 10.0 * k as real
    {
      AdvanceSumSnoc(f, s[..k], s[k]);
      MonoAdvance(10.0, s[k]);
      assert s[..k + 1] == s[..k] + [s[k]];
      k := k + 1;
    }
    assert s[..9] == s;
    assert s[4] == ' ';
  }

  /** The corrected wrap splits the same text into "AAAA " and "BBBB". */
  lemma WrapNewlineCorrected(a: string, b: string)
    requires a == "AAAA" && b == "BBBB"
    ensures Wrap(Some(MonoFont(10.0)), a + " " + b + "\n", 50.0) == [a + " ", b]
  {
    OverflowRunBeforeNewline(true, a, b);
    WrapRunSnoc(MonoFont(10.0), 50.0, true, a + " " + b, '\n');
    assert a + " " + b + ['\n'] == a + " " + b + "\n";
  }

  // ================================================================ splitting

  /** The '\n'-separated pieces of a text (one more piece than newlines). */
  function NewlinePieces(text: string): (ps: seq<string>)
    ensures |ps| >= 1
  {
    if text == [] then [[]]
    else
      var ps := NewlinePieces(text[..|text| - 1]);
      var c := text[|text| - 1];
      if c == '\n' then ps + [[]] else ps[..|ps| - 1] + [ps[|ps| - 1] + [c]]
  }

  /** Joining lines with '\n' between them. */
  function JoinLines(ls: seq<string>): string
  {
    if ls == [] then []
    else if |ls| == 1 then ls[0]
    else JoinLines(ls[..|ls| - 1]) + "\n" + ls[|ls| - 1]
  }

  lemma JoinLinesSnoc(ls: seq<string>, s: string)
    requires |ls| >= 1
    ensures JoinLines(ls + [s]) == JoinLines(ls) + "\n" + s
  {
    assert (ls + [s])[..|ls|] == ls;
  }

  /** Extending the last line extends the joined text. */
  lemma JoinLinesExtendLast(ls: seq<string>, c: char)
    requires |ls| >= 1
    ensures JoinLines(ls[..|ls| - 1] + [ls[|ls| - 1] + [c]]) == JoinLines(ls) + [c]
  {
    var n := |ls|;
    var ls' := ls[..n - 1] + [ls[n - 1] + [c]];
    if n > 1 {
      assert ls'[..n - 1] == ls[..n - 1];
    }
  }

  /** Splitting and joining are inverse: the pieces rejoined give the text back. */
  lemma {:induction false} NewlinePiecesJoin(text: string)
    ensures JoinLines(NewlinePieces(text)) == text
  {
    if text != [] {
      var prefix := text[..|text| - 1];
      var c := text[|text| - 1];
      NewlinePiecesJoin(prefix);
      assert text == prefix + [c];
      if c == '\n' {
        JoinLinesSnoc(NewlinePieces(prefix), []);
      } else {
        JoinLinesExtendLast(NewlinePieces(prefix), c);
      }
    }
  }

  /** No piece holds a '\n'. */
  lemma {:induction false} NewlinePiecesNoNewline(text: string)
    ensures forall k :: 0 <= k < |NewlinePieces(text)| ==> '\n' !in NewlinePieces(text)[k]
  {
    if text != [] {
      var prefix := text[..|text| - 1];
      var c := text[|text| - 1];
      NewlinePiecesNoNewline(prefix);
      var ps := NewlinePieces(prefix);
      if c != '\n' {
        var n := |ps|;
        var ps' := ps[..n - 1] + [ps[n - 1] + [c]];
        forall k | 0 <= k < |ps'| ensures '\n' !in ps'[k] {
          if k < n - 1 { assert ps'[k] == ps[k]; } else { assert '\n' !in ps[n - 1]; }
        }
      }
    }
  }

  /** The unwrapped lines: the pieces, minus a trailing empty piece unless it is the only one. */
  function UnwrappedLines(text: string): seq<string>
  {
    var ps := NewlinePieces(text);
    if |ps| > 1 && ps[|ps| - 1] == [] then ps[..|ps| - 1] else ps
  }

  /**
   * The unwrapped lines hold no '\n', there is at least one, and rejoining
   * them gives the text back, minus one trailing '\n' when there is one.
   */
  lemma UnwrappedLinesJoin(text: string)
    ensures |UnwrappedLines(text)| >= 1
    ensures forall k :: 0 <= k < |UnwrappedLines(text)| ==> '\n' !in UnwrappedLines(text)[k]
    ensures JoinLines(UnwrappedLines(text)) ==
              if text != [] && text[|text| - 1] == '\n' then text[..|text| - 1] else text
  {
    NewlinePiecesJoin(text);
    NewlinePiecesNoNewline(text);
    var ps := NewlinePieces(text);
    if text != [] {
      var prefix := text[..|text| - 1];
      NewlinePiecesJoin(prefix);
      if text[|text| - 1] == '\n' {
        assert ps == NewlinePieces(prefix) + [[]];
        assert ps[..|ps| - 1] == NewlinePieces(prefix);
      } else {
        assert ps[|ps| - 1] != [];
      }
    }
  }

  /** The splitting loop of rebuild when wrapping is off. */
  method SplitLines(text: string) returns (lines: seq<string>)
    ensures lines == UnwrappedLines(text)
  {
    lines := [];
    var line: string := [];
    var i := 0;
    while i < |text|
      invariant 0 <= i <= |text|
      invariant lines + [line] == NewlinePieces(text[..i])
    {
      assert text[..i + 1][..i] == text[..i];
      if text[i] == '\n' {
        lines := lines + [line];
        line := [];
      } else {
        line := line + [text[i]];
      }
      i := i + 1;
    }
    assert text[..i] == text;
    assert (lines + [line])[..|lines|] == lines;
    if line != [] || lines == [] {
      lines := lines + [line];
    }
  }

  // ======================================================== visible count

  function VisibleChars(s: string): nat
  {
    if s == [] then 0
    else VisibleChars(s[..|s| - 1]) + (if s[|s| - 1] != ' ' && s[|s| - 1] != '\t' then 1 else 0)
  }

  function VisibleInLines(ls: seq<string>): nat
  {
    if ls == [] then 0 else VisibleInLines(ls[..|ls| - 1]) + VisibleChars(ls[|ls| - 1])
  }

  predicate Blank(s: string)
  {
    forall i :: 0 <= i < |s| ==> s[i] == ' ' || s[i] == '\t'
  }

  lemma {:induction false} VisibleCharsZero(s: string)
    ensures VisibleChars(s) == 0 <==> Blank(s)
  {
    if s != [] {
      VisibleCharsZero(s[..|s| - 1]);
      if Blank(s) {
        assert Blank(s[..|s| - 1]);
      }
    }
  }

  /** No visible characters exactly when every line holds only spaces and tabs. */
  lemma {:induction false} VisibleInLinesZero(ls: seq<string>)
    ensures VisibleInLines(ls) == 0 <==> forall k :: 0 <= k < |ls| ==> Blank(ls[k])
  {
    if ls != [] {
      VisibleInLinesZero(ls[..|ls| - 1]);
      VisibleCharsZero(ls[|ls| - 1]);
      var pre := ls[..|ls| - 1];
      if forall k :: 0 <= k < |ls| ==> Blank(ls[k]) {
        assert forall k :: 0 <= k < |pre| ==> pre[k] == ls[k];
      }
    }
  }

  /** The counting loops of rebuild. */
  method CountVisible(lines: seq<string>) returns (count: nat)
    ensures count == VisibleInLines(lines)
  {
    count := 0;
    var k := 0;
    while k < |lines|
      invariant 0 <= k <= |lines|
      invariant count == VisibleInLines(lines[..k])
    {
      assert lines[..k + 1][..k] == lines[..k];
      var line := lines[k];
      var j := 0;
      ghost var before := count;
      while j < |line|
        invariant 0 <= j <= |line|
        invariant count == before + VisibleChars(line[..j])
      {
        assert line[..j + 1][..j] == line[..j];
        if line[j] != ' ' && line[j] != '\t' {
          count := count + 1;
        }
        j := j + 1;
      }
      assert line[..j] == line;
      k := k + 1;
    }
    assert lines[..k] == lines;
  }

  // ======================================================== pen positions

  /** Where the text sits: position, optional box, alignment and justification. */
  datatype TextFrame = TextFrame(x: real, y: real, hasBox: bool, boxWidth: real, boxHeight: real,
                                 align: TextAlign, justify: TextJustify)

  /** The x at which a line of width `lineWidth` starts. */
  function PenStartX(fr: TextFrame, lineWidth: real): real
  {
    if !fr.hasBox then fr.x
    else match fr.align
      case AlignStart => fr.x
      case AlignCenter => fr.x + (fr.boxWidth - lineWidth) / 2.0
      case AlignEnd => fr.x + fr.boxWidth - lineWidth
  }

  /** The baseline y of the first of `lineCount` lines. */
  function PenStartY(fr: TextFrame, lineCount: nat, lineHeight: real): real
  {
    if !fr.hasBox then fr.y
    else match fr.justify
      case JustifyStart => fr.y + fr.boxHeight - lineHeight
      case JustifyCenter => fr.y + (fr.boxHeight + lineCount as real * lineHeight) / 2.0 - lineHeight
      case JustifyEnd => fr.y + lineCount as real * lineHeight - lineHeight
  }

  /**
   * Horizontal alignment inside a box: Start puts the line at the box's left
   * edge, End makes it finish exactly at the right edge, and Center lies
   * halfway between the two.
   */
  lemma AlignmentGeometry(fr: TextFrame, lineWidth: real)
    requires fr.hasBox
    ensures PenStartX(fr.(align := AlignStart), lineWidth) == fr.x
    ensures PenStartX(fr.(align := AlignEnd), lineWidth) + lineWidth == fr.x + fr.boxWidth
    ensures PenStartX(fr.(align := AlignCenter), lineWidth) ==
              (PenStartX(fr.(align := AlignStart), lineWidth) + PenStartX(fr.(align := AlignEnd), lineWidth)) / 2.0
  {
  }

  /**
   * Vertical justification inside a box: Start puts the first baseline one
   * line below the box top, End puts the last baseline on y, and Center lies
   * halfway between the two.
   */
  lemma JustificationGeometry(fr: TextFrame, n: nat, lh: real)
    requires fr.hasBox && n >= 1
    ensures PenStartY(fr.(justify := JustifyStart), n, lh) + lh == fr.y + fr.boxHeight
    ensures PenStartY(fr.(justify := JustifyEnd), n, lh) - (n - 1) as real * lh == fr.y
    ensures PenStartY(fr.(justify := JustifyCenter), n, lh) ==
              (PenStartY(fr.(justify := JustifyStart), n, lh) + PenStartY(fr.(justify := JustifyEnd), n, lh)) / 2.0
  {
  }

  /** Without a box the pen starts at (x, y) whatever the modes. */
  lemma NoBoxStart(fr: TextFrame, lineWidth: real, n: nat, lh: real)
    requires !fr.hasBox
    ensures PenStartX(fr, lineWidth) == fr.x && PenStartY(fr, n, lh) == fr.y
  {
  }

  // ======================================================== quad emission

  /** A glyph with positive width and height gets a quad. */
  predicate HasQuad(g: BakedGlyph)
  {
    g.xoff2 - g.xoff > 0.0 && g.yoff2 - g.yoff > 0.0
  }

  /** The four corners of a glyph quad with the pen at (penX, penY). */
  function GlyphQuad(g: BakedGlyph, penX: real, penY: real, col: Color): seq<Vertex>
  {
    var x0, y0 := penX + g.xoff, penY - g.yoff2;
    var x1, y1 := penX + g.xoff2, penY - g.yoff;
    [FlatVertex(x0, y1, col.r, col.g, col.b, g.x0, g.y0),
     FlatVertex(x1, y1, col.r, col.g, col.b, g.x1, g.y0),
     FlatVertex(x1, y0, col.r, col.g, col.b, g.x1, g.y1),
     FlatVertex(x0, y0, col.r, col.g, col.b, g.x0, g.y1)]
  }

  /** The quad a character contributes at a given pen position (none without a glyph or ink). */
  function CharQuad(f: Font, c: char, penX: real, penY: real, col: Color): seq<Vertex>
    requires Baked(f)
  {
    match GetGlyph(f, c)
    case Some(g) => if HasQuad(g) then GlyphQuad(g, penX, penY, col) else []
    case None => []
  }

  /** The vertices of one line, the pen advancing by each found glyph's advance. */
  function LineVertices(f: Font, line: string, startX: real, penY: real, col: Color): seq<Vertex>
    requires Baked(f)
  {
    if line == [] then []
    else
      var prefix := line[..|line| - 1];
      LineVertices(f, prefix, startX, penY, col)
        + CharQuad(f, line[|line| - 1], startX + AdvanceSum(f, prefix), penY, col)
  }

  /** The baseline of line k: the start baseline dropped k times by the line height. */
  function Baseline(startY: real, k: nat, lineHeight: real): real
  {
    if k == 0 then startY else Baseline(startY, k - 1, lineHeight) - lineHeight
  }

  /** The vertices of the lines, each dropping by one line height. */
  function BlockVertices(f: Font, lines: seq<string>, fr: TextFrame, startY: real, col: Color): seq<Vertex>
    requires Baked(f)
  {
    if lines == [] then []
    else
      var k := |lines| - 1;
      BlockVertices(f, lines[..k], fr, startY, col)
        + LineVertices(f, lines[k], PenStartX(fr, AdvanceSum(f, lines[k])), Baseline(startY, k, f.lineHeight), col)
  }

  function TextVertices(f: Font, lines: seq<string>, fr: TextFrame, col: Color): seq<Vertex>
    requires Baked(f)
  {
    BlockVertices(f, lines, fr, PenStartY(fr, |lines|, f.lineHeight), col)
  }

  /** The six indices of quad q, cast to ushort. */
  function QuadAt(q: nat): seq<int>
  {
    var v := 4 * q;
    [U16(v), U16(v + 1), U16(v + 2), U16(v + 2), U16(v + 3), U16(v)]
  }

  function QuadIndices(k: nat): seq<int>
  {
    if k == 0 then [] else QuadIndices(k - 1) + QuadAt(k - 1)
  }

  /** Characters that produce a quad. */
  function InkedChars(f: Font, s: string): nat
    requires Baked(f)
  {
    if s == [] then 0
    else InkedChars(f, s[..|s| - 1])
           + (match GetGlyph(f, s[|s| - 1]) case Some(g) => (if HasQuad(g) then 1 else 0) case None => 0)
  }

  function InkedInLines(f: Font, ls: seq<string>): nat
    requires Baked(f)
  {
    if ls == [] then 0 else InkedInLines(f, ls[..|ls| - 1]) + InkedChars(f, ls[|ls| - 1])
  }

  /** Exactly four vertices per inked glyph. */
  lemma {:induction false} LineVerticesCount(f: Font, line: string, startX: real, penY: real, col: Color)
    requires Baked(f)
    ensures |LineVertices(f, line, startX, penY, col)| == 4 * InkedChars(f, line)
  {
    if line != [] {
      LineVerticesCount(f, line[..|line| - 1], startX, penY, col);
    }
  }

  lemma {:induction false} BlockVerticesCount(f: Font, lines: seq<string>, fr: TextFrame, startY: real, col: Color)
    requires Baked(f)
    ensures |BlockVertices(f, lines, fr, startY, col)| == 4 * InkedInLines(f, lines)
  {
    if lines != [] {
      var k := |lines| - 1;
      var startX := PenStartX(fr, AdvanceSum(f, lines[k]));
      var penY := Baseline(startY, k, f.lineHeight);
      BlockVerticesCount(f, lines[..k], fr, startY, col);
      LineVerticesCount(f, lines[k], startX, penY, col);
      assert BlockVertices(f, lines, fr, startY, col)
        == BlockVertices(f, lines[..k], fr, startY, col) + LineVertices(f, lines[k], startX, penY, col);
      assert InkedInLines(f, lines) == InkedInLines(f, lines[..k]) + InkedChars(f, lines[k]);
    }
  }

  /**
   * k quads have 6k indices; quad q's are v, v+1, v+2, v+2, v+3, v with
   * v = 4q (as ushort), and every index is below the vertex count 4k.
   */
  lemma {:induction false} QuadIndicesShape(k: nat)
    ensures |QuadIndices(k)| == 6 * k
    ensures forall q, j :: 0 <= q < k && 0 <= j < 6 ==> QuadIndices(k)[6 * q + j] == QuadAt(q)[j]
    ensures forall i :: 0 <= i < 6 * k ==> 0 <= QuadIndices(k)[i] < 4 * k
  {
    if k > 0 {
      QuadIndicesShape(k - 1);
      var prev := QuadIndices(k - 1);
      assert QuadIndices(k) == prev + QuadAt(k - 1);
      forall q, j | 0 <= q < k && 0 <= j < 6
        ensures QuadIndices(k)[6 * q + j] == QuadAt(q)[j]
      {
        if q < k - 1 {
          assert 6 * q + j < 6 * (k - 1);
        } else {
          assert 6 * q + j == 6 * (k - 1) + j;
        }
      }
      forall i | 0 <= i < 6 * k
        ensures 0 <= QuadIndices(k)[i] < 4 * k
      {
        if i < 6 * (k - 1) {
          assert QuadIndices(k)[i] == prev[i];
        } else {
          assert QuadIndices(k)[i] == QuadAt(k - 1)[i - 6 * (k - 1)];
        }
      }
    }
  }

  /** Below 16384 quads the ushort cast changes nothing. */
  lemma QuadAtExact(q: nat)
    requires 4 * q + 3 < 65536
    ensures QuadAt(q) == [4 * q, 4 * q + 1, 4 * q + 2, 4 * q + 2, 4 * q + 3, 4 * q]
  {
  }

  /** LineVertices one character further. */
  lemma LineVerticesSnoc(f: Font, line: string, j: nat, startX: real, penY: real, col: Color, before: seq<Vertex>)
    requires Baked(f) && j < |line|
    ensures before + LineVertices(f, line[..j + 1], startX, penY, col)
              == before + LineVertices(f, line[..j], startX, penY, col) + CharQuad(f, line[j], startX + AdvanceSum(f, line[..j]), penY, col)
    ensures startX + AdvanceSum(f, line[..j + 1]) == startX + AdvanceSum(f, line[..j]) + Advance(f, line[j])
  {
    assert line[..j + 1][..j] == line[..j];
    AdvanceSumSnoc(f, line[..j], line[j]);
    assert line[..j + 1] == line[..j] + [line[j]];
  }

  /** Appending the six indices of the next quad. */
  lemma QuadIndicesNext(v: nat)
    requires v % 4 == 0
    ensures QuadIndices(v / 4) + [U16(v + 0), U16(v + 1), U16(v + 2), U16(v + 2), U16(v + 3), U16(v + 0)]
              == QuadIndices((v + 4) / 4)
  {
    assert (v + 4) / 4 == v / 4 + 1;
    assert 4 * (v / 4) == v;
  }

  /**
   * The four vertices and six indices of one glyph quad, pushed after the
   * vertices already emitted.
   */
  method PushQuad(g: BakedGlyph, penX: real, penY: real, col: Color, vertices0: seq<Vertex>, indices0: seq<int>)
    returns (vertices: seq<Vertex>, indices: seq<int>)
    requires |vertices0| % 4 == 0 && indices0 == QuadIndices(|vertices0| / 4)
    ensures vertices == vertices0 + GlyphQuad(g, penX, penY, col)
    ensures |vertices| % 4 == 0 && indices == QuadIndices(|vertices| / 4)
  {
    var vertexIndex := |vertices0|;
    var x0 := penX + g.xoff;
    var y0 := penY - g.yoff2;
    var x1 := penX + g.xoff2;
    var y1 := penY - g.yoff;
    vertices := vertices0 + [FlatVertex(x0, y1, col.r, col.g, col.b, g.x0, g.y0),
                             FlatVertex(x1, y1, col.r, col.g, col.b, g.x1, g.y0),
                             FlatVertex(x1, y0, col.r, col.g, col.b, g.x1, g.y1),
                             FlatVertex(x0, y0, col.r, col.g, col.b, g.x0, g.y1)];
    indices := indices0 + [U16(vertexIndex + 0), U16(vertexIndex + 1), U16(vertexIndex + 2),
                           U16(vertexIndex + 2), U16(vertexIndex + 3), U16(vertexIndex + 0)];
    QuadIndicesNext(vertexIndex);
  }

  /**
   * One character of the glyph loop: a found glyph with ink appends its
   * quad and six indices, and a found glyph advances the pen.
   */
  method EmitChar(f: Font, c: char, penX: real, penY: real, col: Color, vertices0: seq<Vertex>, indices0: seq<int>)
    returns (vertices: seq<Vertex>, indices: seq<int>, nextX: real)
    requires Baked(f)
    requires |vertices0| % 4 == 0 && indices0 == QuadIndices(|vertices0| / 4)
    ensures vertices == vertices0 + CharQuad(f, c, penX, penY, col)
    ensures |vertices| % 4 == 0 && indices == QuadIndices(|vertices| / 4)
    ensures nextX == penX + Advance(f, c)
  {
    vertices, indices, nextX := vertices0, indices0, penX;
    var glyph := GetGlyph(f, c);
    if glyph.Some? {
      var g := glyph.value;
      var glyphWidth := g.xoff2 - g.xoff;
      var glyphHeight := g.yoff2 - g.yoff;
      if glyphWidth > 0.0 && glyphHeight > 0.0 {
        vertices, indices := PushQuad(g, penX, penY, col, vertices, indices);
      }
      nextX := penX + g.xadvance;
    }
  }

  /** Character j of a line, emitted after the characters before it. */
  method EmitNext(f: Font, line: string, j: nat, startX: real, penX: real, penY: real, col: Color,
                  prefix: seq<Vertex>, vertices0: seq<Vertex>, indices0: seq<int>)
    returns (vertices: seq<Vertex>, indices: seq<int>, nextX: real)
    requires Baked(f) && j < |line|
    requires vertices0 == prefix + LineVertices(f, line[..j], startX, penY, col)
    requires penX == startX + AdvanceSum(f, line[..j])
    requires |vertices0| % 4 == 0 && indices0 == QuadIndices(|vertices0| / 4)
    ensures vertices == prefix + LineVertices(f, line[..j + 1], startX, penY, col)
    ensures nextX == startX + AdvanceSum(f, line[..j + 1])
    ensures |vertices| % 4 == 0 && indices == QuadIndices(|vertices| / 4)
  {
    LineVerticesSnoc(f, line, j, startX, penY, col, prefix);
    vertices, indices, nextX := EmitChar(f, line[j], penX, penY, col, vertices0, indices0);
  }

  /**
   * The glyph loop of rebuild for one line: the pen starts at startX and
   * advances by each found glyph; inked glyphs append a quad and its six
   * indices, numbered from the current vertex count.
   */
  method EmitLine(f: Font, line: string, startX: real, penY: real, col: Color,
                  vertices0: seq<Vertex>, indices0: seq<int>)
    returns (vertices: seq<Vertex>, indices: seq<int>)
    requires Baked(f)
    requires |vertices0| % 4 == 0 && indices0 == QuadIndices(|vertices0| / 4)
    ensures vertices == vertices0 + LineVertices(f, line, startX, penY, col)
    ensures |vertices| % 4 == 0 && indices == QuadIndices(|vertices| / 4)
  {
    vertices, indices := vertices0, indices0;
    var currentX := startX;
    var j := 0;
    while j < |line|
      invariant 0 <= j <= |line|
      invariant vertices == vertices0 + LineVertices(f, line[..j], startX, penY, col)
      invariant currentX == startX + AdvanceSum(f, line[..j])
      invariant |vertices| % 4 == 0 && indices == QuadIndices(|vertices| / 4)
    {
      vertices, indices, currentX := EmitNext(f, line, j, startX, currentX, penY, col, vertices0, vertices, indices);
      j := j + 1;
    }
    assert line[..j] == line;
  }

  /**
   * The emission loops of rebuild: per line, the line width, its start x
   * and the glyph loop, then the baseline drops by one line height.
   */
  method EmitQuads(f: Font, lines: seq<string>, fr: TextFrame, col: Color) returns (vertices: seq<Vertex>, indices: seq<int>)
    requires Baked(f)
    ensures vertices == TextVertices(f, lines, fr, col)
    ensures |vertices| % 4 == 0 && indices == QuadIndices(|vertices| / 4)
  {
    vertices := [];
    indices := [];
    var lineHeight := f.lineHeight;
    var startY := PenStartY(fr, |lines|, lineHeight);
    var currentY := startY;
    var i := 0;
    while i < |lines|
      invariant 0 <= i <= |lines|
      invariant vertices == BlockVertices(f, lines[..i], fr, startY, col)
      invariant |vertices| % 4 == 0 && indices == QuadIndices(|vertices| / 4)
      invariant currentY == Baseline(startY, i, lineHeight)
    {
      assert lines[..i + 1][..i] == lines[..i];
      var line := lines[i];
      var lineWidth, _ := MeasureText(f, line);
      var currentX := PenStartX(fr, lineWidth);
      vertices, indices := EmitLine(f, line, currentX, currentY, col, vertices, indices);
      currentY := currentY - lineHeight;
      i := i + 1;
    }
    assert lines[..i] == lines;
  }
}
