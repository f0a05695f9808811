/** The meme canvas (components/CanvasEditor.tsx): the integer size formulas,
    the greedy word wrap of a long caption, and the draw routine that runs
    once the image has loaded, with the canvas and its 2D context as an
    object whose fields the routine assigns and whose drawing surface is a
    list of emitted draw commands. */
module CanvasEditor {
  import opened Wrappers
  import opened Text

  /** `ctx.measureText(s).width` when the context's font is `900 <size>px
      Impact`; glyph metrics are not modelled, so any function will do. */
  type Measure = (nat, string) -> real

  datatype Baseline = Alphabetic | Top | Bottom

  /** The context's `font`: the default `10px sans-serif`, or the routine's
      `900 <size>px Impact`. */
  datatype Font = SansSerif(size: nat) | Impact(size: nat)

  /** One operation on the drawing surface. A text command stands for the
      stroke pass (black, round joins, `lineWidth`) followed by the fill pass
      (white) of `drawText`, both centred on `x` (`textAlign = 'center'`). */
  datatype Command =
    | DrawImage(source: string)
    | DrawText(text: string, x: real, y: real, baseline: Baseline, fontSize: nat, lineWidth: nat)

  /** The decoded image's natural size. */
  datatype Dimensions = Dimensions(width: nat, height: nat)

  /** An image load the draw effect started: its source and the texts of
      the render that started it, as its `onload` closure sees them. */
  datatype PendingLoad = PendingLoad(source: string, topText: string, bottomText: string, caption: string)

  // ---------------------------------------------------------------------------
  // Size formulas (all `Math.floor` of a non-negative quotient)

  function FontSize(width: nat): (f: nat)
    ensures 10 * f <= width < 10 * f + 10
  {
    width / 10
  }

  function StrokeWidth(fontSize: nat): (w: nat)
    ensures 8 * w <= fontSize < 8 * w + 8
  {
    fontSize / 8
  }

  function Padding(height: nat): (p: nat)
    ensures 20 * p <= height < 20 * p + 20
  {
    height / 20
  }

  function CaptionFontSize(width: nat): (f: nat)
    ensures 15 * f <= width < 15 * f + 15
  {
    width / 15
  }

  /** Assigning `n` to `ctx.lineWidth`: a 2D context ignores zero (as it
      ignores negative, infinite and NaN values) and keeps the width it
      had. */
  function AssignLineWidth(current: nat, n: nat): nat {
    if n > 0 then n else current
  }

  /** The stroke of the top and bottom text: the context's line width is 1
      after the resize, and `Math.floor(fontSize / 8)` replaces it unless it
      is 0. */
  function BaseStroke(width: nat): nat {
    AssignLineWidth(1, StrokeWidth(FontSize(width)))
  }

  /** The stroke of the caption lines: the caption's `Math.floor(captionFontSize
      / 8)` replaces the base stroke unless it is 0. */
  function CaptionStroke(width: nat): nat {
    AssignLineWidth(BaseStroke(width), StrokeWidth(CaptionFontSize(width)))
  }

  /** The strokes actually drawn with: the assigned floor once the image is
      at least 80 (base) or 120 (caption) pixels wide, and otherwise the
      default 1 the zero assignment leaves in place. */
  lemma StrokeValues(width: nat)
    ensures BaseStroke(width) == (if width >= 80 then StrokeWidth(FontSize(width)) else 1)
    ensures CaptionStroke(width) == (if width >= 120 then StrokeWidth(CaptionFontSize(width)) else 1)
    ensures BaseStroke(width) >= 1 && CaptionStroke(width) >= 1
  {
    if 80 <= width < 120 {
      assert 8 <= FontSize(width) < 12;
    }
  }

  /** The height of one caption line, exact rather than a double. */
  function LineHeight(captionFont: nat): real {
    1.2 * captionFont as real
  }

  /** The width a wrapped caption line should not exceed; negative when the
      paddings are wider than the image. */
  function MaxLineWidth(width: nat, padding: nat): int {
    width - padding * 2
  }

  // ---------------------------------------------------------------------------
  // Greedy word wrap

  /** A caption line as the wrap loop builds it: each word followed by one
      space. */
  function Spaced(ws: seq<string>): string {
    if ws == [] then "" else Spaced(ws[..|ws| - 1]) + ws[|ws| - 1] + " "
  }

  lemma SpacedSnoc(ws: seq<string>, w: string)
    ensures Spaced(ws + [w]) == Spaced(ws) + w + " "
  {
    assert (ws + [w])[..|ws|] == ws;
  }

  lemma {:induction false} SpacedAppend(a: seq<string>, b: seq<string>)
    ensures Spaced(a + b) == Spaced(a) + Spaced(b)
    decreases |b|
  {
    if b == [] {
      assert a + b == a;
    } else {
      var b' := b[..|b| - 1];
      SpacedAppend(a, b');
      assert a + b == (a + b') + [b[|b| - 1]];
      SpacedSnoc(a + b', b[|b| - 1]);
    }
  }

  /** The words of consecutive lines, concatenated. */
  function Flatten(groups: seq<seq<string>>): seq<string> {
    if groups == [] then [] else groups[0] + Flatten(groups[1..])
  }

  function Concat(ls: seq<string>): string {
    if ls == [] then "" else ls[0] + Concat(ls[1..])
  }

  /** The text of each line, given the words of each line. */
  function Lines(groups: seq<seq<string>>): seq<string> {
    seq(|groups|, i requires 0 <= i < |groups| => Spaced(groups[i]))
  }

  /** The loop's break test: the line so far is non-empty (the loop index is
      past the first word) and appending the next word makes it too wide. */
  predicate Breaks(cur: seq<string>, w: string, maxWidth: int, font: nat, measure: Measure) {
    cur != [] && measure(font, Spaced(cur) + w + " ") > maxWidth as real
  }

  /** The lines, as word groups, that greedy wrapping of `rest` produces when
      the line being built holds the words `cur`. */
  function WrapFrom(cur: seq<string>, rest: seq<string>, maxWidth: int, font: nat, measure: Measure): seq<seq<string>>
    decreases |rest|
  {
    if rest == [] then [cur]
    else if Breaks(cur, rest[0], maxWidth, font, measure) then
      [cur] + WrapFrom([rest[0]], rest[1..], maxWidth, font, measure)
    else
      WrapFrom(cur + [rest[0]], rest[1..], maxWidth, font, measure)
  }

  /** The word groups of the caption's lines. */
  function Wrap(words: seq<string>, maxWidth: int, font: nat, measure: Measure): seq<seq<string>> {
    WrapFrom([], words, maxWidth, font, measure)
  }

  lemma {:induction false} WrapFromPartition(cur: seq<string>, rest: seq<string>, maxWidth: int, font: nat, measure: Measure)
    ensures Flatten(WrapFrom(cur, rest, maxWidth, font, measure)) == cur + rest
    decreases |rest|
  {
    if rest == [] {
      assert [cur][1..] == [];
      assert cur + [] == cur;
    } else if Breaks(cur, rest[0], maxWidth, font, measure) {
      var tail := WrapFrom([rest[0]], rest[1..], maxWidth, font, measure);
      WrapFromPartition([rest[0]], rest[1..], maxWidth, font, measure);
      assert ([cur] + tail)[0] == cur && ([cur] + tail)[1..] == tail;
      assert [rest[0]] + rest[1..] == rest;
    } else {
      WrapFromPartition(cur + [rest[0]], rest[1..], maxWidth, font, measure);
      assert cur + [rest[0]] + rest[1..] == cur + rest;
    }
  }

  lemma {:induction false} WrapFromShape(cur: seq<string>, rest: seq<string>, maxWidth: int, font: nat, measure: Measure)
    ensures |WrapFrom(cur, rest, maxWidth, font, measure)| >= 1
    ensures cur != [] ==> forall i :: 0 <= i < |WrapFrom(cur, rest, maxWidth, font, measure)| ==>
                            WrapFrom(cur, rest, maxWidth, font, measure)[i] != []
    ensures cur != [] ==> WrapFrom(cur, rest, maxWidth, font, measure)[0][0] == cur[0]
    decreases |rest|
  {
    if rest == [] {
    } else if Breaks(cur, rest[0], maxWidth, font, measure) {
      WrapFromShape([rest[0]], rest[1..], maxWidth, font, measure);
    } else {
      WrapFromShape(cur + [rest[0]], rest[1..], maxWidth, font, measure);
    }
  }

  lemma {:induction false} WrapFromFits(cur: seq<string>, rest: seq<string>, maxWidth: int, font: nat, measure: Measure)
    requires |cur| >= 2 ==> measure(font, Spaced(cur)) <= maxWidth as real
    ensures forall i :: 0 <= i < |WrapFrom(cur, rest, maxWidth, font, measure)| &&
                        |WrapFrom(cur, rest, maxWidth, font, measure)[i]| >= 2 ==>
                        measure(font, Spaced(WrapFrom(cur, rest, maxWidth, font, measure)[i])) <= maxWidth as real
    decreases |rest|
  {
    if rest == [] {
    } else if Breaks(cur, rest[0], maxWidth, font, measure) {
      WrapFromFits([rest[0]], rest[1..], maxWidth, font, measure);
    } else {
      SpacedSnoc(cur, rest[0]);
      WrapFromFits(cur + [rest[0]], rest[1..], maxWidth, font, measure);
    }
  }

  lemma {:induction false} WrapFromGreedy(cur: seq<string>, rest: seq<string>, maxWidth: int, font: nat, measure: Measure)
    ensures forall i :: 0 < i < |WrapFrom(cur, rest, maxWidth, font, measure)| ==>
                        WrapFrom(cur, rest, maxWidth, font, measure)[i] != [] &&
                        Breaks(WrapFrom(cur, rest, maxWidth, font, measure)[i - 1],
                               WrapFrom(cur, rest, maxWidth, font, measure)[i][0], maxWidth, font, measure)
    decreases |rest|
  {
    if rest == [] {
    } else if Breaks(cur, rest[0], maxWidth, font, measure) {
      var tail := WrapFrom([rest[0]], rest[1..], maxWidth, font, measure);
      var all := [cur] + tail;
      WrapFromGreedy([rest[0]], rest[1..], maxWidth, font, measure);
      WrapFromShape([rest[0]], rest[1..], maxWidth, font, measure);
      forall i | 0 < i < |all|
        ensures all[i] != [] && Breaks(all[i - 1], all[i][0], maxWidth, font, measure)
      {
        assert all[i] == tail[i - 1];
        if i > 1 {
          assert all[i - 1] == tail[i - 2];
        }
      }
    } else {
      WrapFromGreedy(cur + [rest[0]], rest[1..], maxWidth, font, measure);
    }
  }

  /** What greedy wrapping promises. There is at least one line. The lines
      partition the words: their concatenation is the word list, in order.
      With at least one word every line is non-empty and the first line starts
      with the first word, however wide it is. A line of two or more words
      fits in `maxWidth`, while a single over-wide word still gets a line of
      its own. Every break is forced: a line followed by the next line's
      first word does not fit. */
  lemma WrapCorrect(words: seq<string>, maxWidth: int, font: nat, measure: Measure)
    ensures |Wrap(words, maxWidth, font, measure)| >= 1
    ensures Flatten(Wrap(words, maxWidth, font, measure)) == words
    ensures words != [] ==>
              && (forall i :: 0 <= i < |Wrap(words, maxWidth, font, measure)| ==> Wrap(words, maxWidth, font, measure)[i] != [])
              && Wrap(words, maxWidth, font, measure)[0][0] == words[0]
    ensures forall i :: 0 <= i < |Wrap(words, maxWidth, font, measure)| &&
                        |Wrap(words, maxWidth, font, measure)[i]| >= 2 ==>
                        measure(font, Spaced(Wrap(words, maxWidth, font, measure)[i])) <= maxWidth as real
    ensures forall i :: 0 < i < |Wrap(words, maxWidth, font, measure)| ==>
                        Breaks(Wrap(words, maxWidth, font, measure)[i - 1],
                               Wrap(words, maxWidth, font, measure)[i][0], maxWidth, font, measure)
  {
    WrapFromPartition([], words, maxWidth, font, measure);
    WrapFromFits([], words, maxWidth, font, measure);
    WrapFromGreedy([], words, maxWidth, font, measure);
    WrapFromShape([], words, maxWidth, font, measure);
    if words != [] {
      assert [] + [words[0]] == [words[0]];
      WrapFromShape([words[0]], words[1..], maxWidth, font, measure);
    }
  }

  lemma WrapNonEmpty(words: seq<string>, maxWidth: int, font: nat, measure: Measure)
    ensures |Wrap(words, maxWidth, font, measure)| >= 1
  {
    WrapFromShape([], words, maxWidth, font, measure);
  }

  lemma {:induction false} ConcatLines(groups: seq<seq<string>>)
    ensures Concat(Lines(groups)) == Spaced(Flatten(groups))
  {
    if groups != [] {
      ConcatLines(groups[1..]);
      assert Lines(groups)[1..] == Lines(groups[1..]);
      SpacedAppend(groups[0], Flatten(groups[1..]));
    }
  }

  /** Concatenating the wrapped lines gives every word of the caption, in
      order, each followed by one space. */
  lemma WrapConcat(words: seq<string>, maxWidth: int, font: nat, measure: Measure)
    ensures Concat(Lines(Wrap(words, maxWidth, font, measure))) == Spaced(words)
  {
    WrapCorrect(words, maxWidth, font, measure);
    ConcatLines(Wrap(words, maxWidth, font, measure));
  }

  /** Re-wrapping is idempotent: joining the words of the committed lines
      with single spaces and wrapping that text again, at the same width
      and font, gives the same lines. */
  lemma RewrapIdempotent(caption: string, maxWidth: int, font: nat, measure: Measure)
    ensures var groups := Wrap(Split(caption), maxWidth, font, measure);
            Wrap(Split(Join(Flatten(groups))), maxWidth, font, measure) == groups
  {
    WrapCorrect(Split(caption), maxWidth, font, measure);
    SplitJoin(Split(caption));
  }

  /** The wrap loop of the draw routine: `line` is the line being built and
      `lines` the committed ones. The text measured is the line so far plus
      the next word and a space, in the caption font. */
  method WrapLines(words: seq<string>, maxWidth: int, font: nat, measure: Measure) returns (lines: seq<string>)
    ensures lines == Lines(Wrap(words, maxWidth, font, measure))
  {
    var line := "";
    lines := [];
    ghost var done: seq<seq<string>> := [];
    ghost var cur: seq<string> := [];
    for n := 0 to |words|
      invariant line == Spaced(cur)
      invariant lines == Lines(done)
      invariant (cur != []) == (n > 0)
      invariant done + WrapFrom(cur, words[n..], maxWidth, font, measure) == Wrap(words, maxWidth, font, measure)
    {
      assert words[n..][0] == words[n] && words[n..][1..] == words[n + 1..];
      var testLine := line + words[n] + " ";
      var testWidth := measure(font, testLine);
      if testWidth > maxWidth as real && n > 0 {
        assert done + [cur] + WrapFrom([words[n]], words[n + 1..], maxWidth, font, measure)
            == done + WrapFrom(cur, words[n..], maxWidth, font, measure);
        lines := lines + [line];
        done := done + [cur];
        line := words[n] + " ";
        cur := [words[n]];
        assert Spaced(cur) == Spaced([]) + words[n] + " ";
      } else {
        line := testLine;
        SpacedSnoc(cur, words[n]);
        cur := cur + [words[n]];
      }
    }
    assert words[|words|..] == [];
    lines := lines + [line];
    done := done + [cur];
    assert done == Wrap(words, maxWidth, font, measure);
  }

  // ---------------------------------------------------------------------------
  // What one render draws

  /** The caption is drawn only when it is non-empty and there is neither top
      nor bottom text. */
  predicate CaptionMode(topText: string, bottomText: string, caption: string) {
    caption != "" && topText == "" && bottomText == ""
  }

  /** The caption's lines: `caption.split(' ')` wrapped to the image width
      less both paddings, measured in the caption font. */
  function CaptionLines(width: nat, height: nat, caption: string, measure: Measure): seq<string> {
    Lines(Wrap(Split(caption), MaxLineWidth(width, Padding(height)), CaptionFontSize(width), measure))
  }

  /** Where the first caption line goes: the whole block ends at the bottom
      padding. */
  function CaptionStartY(height: nat, lineCount: nat, lineHeight: real): (y: real)
    ensures y + lineCount as real * lineHeight == height as real - Padding(height) as real
  {
    height as real - lineCount as real * lineHeight - Padding(height) as real
  }

  /** Where line `i` of a block starting at `startY` is hung. */
  function LineY(startY: real, i: nat, lineHeight: real): real {
    startY + i as real * lineHeight
  }

  /** Line `i` drawn trimmed and hung from `LineY(startY, i, lineHeight)`. */
  function Stack(lines: seq<string>, x: real, startY: real, lineHeight: real, font: nat, lineWidth: nat): seq<Command> {
    seq(|lines|, i requires 0 <= i < |lines| =>
      DrawText(ToUpper(Trim(lines[i])), x, LineY(startY, i, lineHeight), Top, font, lineWidth))
  }

  /** The caption block, stroked with `lineWidth`. */
  function CaptionCommands(width: nat, height: nat, caption: string, measure: Measure, lineWidth: nat): seq<Command> {
    var font := CaptionFontSize(width);
    var lines := CaptionLines(width, height, caption, measure);
    var lh := LineHeight(font);
    Stack(lines, width as real / 2.0, CaptionStartY(height, |lines|, lh), lh, font, lineWidth)
  }

  /** The text draws of one render of an image of the given size, in order:
      top text, bottom text, then the caption lines. */
  function TextCommands(width: nat, height: nat, topText: string, bottomText: string, caption: string, measure: Measure): seq<Command> {
    var font := FontSize(width);
    var x := width as real / 2.0;
    var pad := Padding(height);
    (if topText != "" then [DrawText(ToUpper(topText), x, pad as real, Top, font, BaseStroke(width))] else [])
    + (if bottomText != "" then [DrawText(ToUpper(bottomText), x, height as real - pad as real, Bottom, font, BaseStroke(width))] else [])
    + (if CaptionMode(topText, bottomText, caption) then CaptionCommands(width, height, caption, measure, CaptionStroke(width)) else [])
  }

  /** Top text hangs from the top padding, bottom text stands on the bottom
      padding, both upper-cased, in the base font and with the base stroke
      (1 for images narrower than 80); nothing else is drawn when either is
      present. */
  lemma TopBottomPlacement(width: nat, height: nat, topText: string, bottomText: string, caption: string, measure: Measure)
    requires topText != "" || bottomText != ""
    ensures var cmds := TextCommands(width, height, topText, bottomText, caption, measure);
            var font := FontSize(width);
            var stroke := if width >= 80 then StrokeWidth(font) else 1;
            && |cmds| == (if topText != "" then 1 else 0) + (if bottomText != "" then 1 else 0)
            && (topText != "" ==>
                  cmds[0] == DrawText(ToUpper(topText), width as real / 2.0, Padding(height) as real, Top, font, stroke))
            && (bottomText != "" ==>
                  cmds[|cmds| - 1] == DrawText(ToUpper(bottomText), width as real / 2.0,
                                               height as real - Padding(height) as real, Bottom, font, stroke))
  {
    StrokeValues(width);
  }

  /** With no text at all only the image is drawn. */
  lemma NoTextNoDraws(width: nat, height: nat, measure: Measure)
    ensures TextCommands(width, height, "", "", "", measure) == []
  {
  }

  /** In caption mode there is one draw per wrapped line, at least one, in
      the caption font and stroke (1 for images narrower than 120): line `i`
      drawn trimmed and upper-cased, hung from `height - n*lh - padding +
      i*lh`. */
  lemma CaptionStack(width: nat, height: nat, topText: string, bottomText: string, caption: string, measure: Measure)
    requires CaptionMode(topText, bottomText, caption)
    ensures |TextCommands(width, height, topText, bottomText, caption, measure)| == |CaptionLines(width, height, caption, measure)| >= 1
    ensures forall i :: 0 <= i < |CaptionLines(width, height, caption, measure)| ==>
              TextCommands(width, height, topText, bottomText, caption, measure)[i]
              == DrawText(ToUpper(Trim(CaptionLines(width, height, caption, measure)[i])), width as real / 2.0,
                          LineY(CaptionStartY(height, |CaptionLines(width, height, caption, measure)|, LineHeight(CaptionFontSize(width))),
                                i, LineHeight(CaptionFontSize(width))),
                          Top, CaptionFontSize(width), if width >= 120 then StrokeWidth(CaptionFontSize(width)) else 1)
  {
    WrapNonEmpty(Split(caption), MaxLineWidth(width, Padding(height)), CaptionFontSize(width), measure);
    StrokeValues(width);
    assert TextCommands(width, height, topText, bottomText, caption, measure) == CaptionCommands(width, height, caption, measure, CaptionStroke(width));
  }

  /** In a stacked block each line is one line height below the previous
      one, and a block of `n` lines starting `n` line heights above `bottom`
      ends at `bottom`. */
  lemma StackSpacing(lines: seq<string>, x: real, startY: real, lh: real, font: nat, lw: nat, bottom: real)
    requires startY + |lines| as real * lh == bottom
    ensures var cmds := Stack(lines, x, startY, lh, font, lw);
            && (forall i :: 0 < i < |cmds| ==> cmds[i].y == cmds[i - 1].y + lh)
            && (|cmds| >= 1 ==> cmds[|cmds| - 1].y + lh == bottom)
  {
    var cmds := Stack(lines, x, startY, lh, font, lw);
    var n := |lines|;
    forall i | 0 < i < n
      ensures cmds[i].y == cmds[i - 1].y + lh
    {
      assert i as real * lh == (i - 1) as real * lh + lh;
    }
    if n >= 1 {
      assert (n - 1) as real * lh + lh == n as real * lh;
    }
  }

  /** In caption mode only the caption block is drawn. */
  lemma CaptionOnly(width: nat, height: nat, topText: string, bottomText: string, caption: string, measure: Measure)
    requires CaptionMode(topText, bottomText, caption)
    ensures TextCommands(width, height, topText, bottomText, caption, measure) == CaptionCommands(width, height, caption, measure, CaptionStroke(width))
  {
  }

  /** The caption lines are one line height apart and the last one ends
      exactly at `height - padding`. */
  lemma CaptionBottomEdge(width: nat, height: nat, caption: string, measure: Measure, lineWidth: nat)
    ensures var cmds := CaptionCommands(width, height, caption, measure, lineWidth);
            var lh := LineHeight(CaptionFontSize(width));
            && |cmds| >= 1
            && (forall i :: 0 < i < |cmds| ==> cmds[i].y == cmds[i - 1].y + lh)
            && cmds[|cmds| - 1].y + lh == height as real - Padding(height) as real
  {
    var font := CaptionFontSize(width);
    var lines := CaptionLines(width, height, caption, measure);
    var lh := LineHeight(font);
    WrapNonEmpty(Split(caption), MaxLineWidth(width, Padding(height)), font, measure);
    StackSpacing(lines, width as real / 2.0, CaptionStartY(height, |lines|, lh), lh, font, lineWidth,
                 height as real - Padding(height) as real);
  }

  /** Every drawn string is upper-case, centred on `width / 2`, and hung from
      or stood on a chosen baseline, never the alphabetic default. */
  lemma DrawsCentredUpper(width: nat, height: nat, topText: string, bottomText: string, caption: string, measure: Measure)
    ensures forall c :: c in TextCommands(width, height, topText, bottomText, caption, measure) ==>
              c.DrawText? && c.x == width as real / 2.0 && NoLowerAscii(c.text) && c.baseline != Alphabetic
  {
  }

  // ---------------------------------------------------------------------------
  // The canvas element and its 2D context

  class Canvas {
    var width: nat
    var height: nat
    var font: Font
    var lineWidth: nat
    var baseline: Baseline
    /** What has been drawn since the bitmap was last cleared. */
    var surface: seq<Command>

    /** A fresh canvas: 300 by 150, blank, default context state. */
    constructor ()
      ensures width == 300 && height == 150 && surface == []
      ensures font == SansSerif(10) && lineWidth == 1 && baseline == Alphabetic
    {
      width, height := 300, 150;
      surface := [];
      font, lineWidth, baseline := SansSerif(10), 1, Alphabetic;
    }

    /** Assigning `canvas.width`: the bitmap is cleared and the context
        state goes back to its defaults, even when the value is the same. */
    method SetWidth(w: nat)
      modifies this
      ensures width == w && height == old(height) && surface == []
      ensures font == SansSerif(10) && lineWidth == 1 && baseline == Alphabetic
    {
      width := w;
      surface := [];
      font, lineWidth, baseline := SansSerif(10), 1, Alphabetic;
    }

    /** Assigning `canvas.height`, with the same effect on bitmap and state. */
    method SetHeight(h: nat)
      modifies this
      ensures height == h && width == old(width) && surface == []
      ensures font == SansSerif(10) && lineWidth == 1 && baseline == Alphabetic
    {
      height := h;
      surface := [];
      font, lineWidth, baseline := SansSerif(10), 1, Alphabetic;
    }

    /** `drawText`: sets the baseline, then strokes and fills the upper-cased
        text in the current font and line width. */
    method DrawTextPass(text: string, x: real, y: real, b: Baseline)
      modifies this`baseline, this`surface
      ensures baseline == b
      ensures surface == old(surface) + [DrawText(ToUpper(text), x, y, b, font.size, lineWidth)]
    {
      baseline := b;
      surface := surface + [DrawText(ToUpper(text), x, y, b, font.size, lineWidth)];
    }

    /** `lines.forEach(...)`: each line drawn trimmed, one line height below
        the previous one. */
    method DrawLines(lines: seq<string>, x: real, startY: real, lineHeight: real)
      modifies this`baseline, this`surface
      ensures baseline == (if lines == [] then old(baseline) else Top)
      ensures surface == old(surface) + Stack(lines, x, startY, lineHeight, font.size, lineWidth)
    {
      ghost var base := surface;
      ghost var expected := Stack(lines, x, startY, lineHeight, font.size, lineWidth);
      for i := 0 to |lines|
        invariant surface == base + expected[..i]
        invariant baseline == (if i == 0 then old(baseline) else Top)
      {
        DrawTextPass(Trim(lines[i]), x, LineY(startY, i, lineHeight), Top);
        assert expected[..i + 1] == expected[..i] + [expected[i]];
      }
      assert expected[..|lines|] == expected;
    }

    /** `ctx.lineWidth = n`: a zero is ignored and the width is kept. */
    method SetLineWidth(n: nat)
      modifies this`lineWidth
      ensures n > 0 ==> lineWidth == n
      ensures n == 0 ==> lineWidth == old(lineWidth)
    {
      if n > 0 {
        lineWidth := n;
      }
    }

    /** The caption branch of the draw effect: the caption font, the greedy
        wrap of `caption.split(' ')`, and the lines stacked up from the
        bottom padding, stroked with the line width the caption's
        assignment leaves. */
    method DrawCaption(caption: string, measure: Measure)
      modifies this`font, this`lineWidth, this`baseline, this`surface
      ensures font == Impact(CaptionFontSize(width)) && baseline == Top
      ensures lineWidth == AssignLineWidth(old(lineWidth), StrokeWidth(CaptionFontSize(width)))
      ensures surface == old(surface) + CaptionCommands(width, height, caption, measure, lineWidth)
    {
      var padding := Padding(height);
      var maxWidth := width - padding * 2;
      var words := Split(caption);
      var captionFontSize := CaptionFontSize(width);
      font := Impact(captionFontSize);
      SetLineWidth(StrokeWidth(captionFontSize));
      var lines := WrapLines(words, maxWidth, captionFontSize, measure);
      WrapNonEmpty(words, maxWidth, captionFontSize, measure);
      var lineHeight := LineHeight(captionFontSize);
      var startY := height as real - |lines| as real * lineHeight - padding as real;
      assert lines == CaptionLines(width, height, caption, measure);
      assert startY == CaptionStartY(height, |lines|, lineHeight);
      DrawLines(lines, width as real / 2.0, startY, lineHeight);
    }

    /** `img.onload` for a load the effect started: the canvas takes the
        image's size, shows the image, and then the text draws of
        TextCommands for the texts that render captured; the context keeps
        the last font, line width and baseline set. The outcome depends on
        this load alone, so a load that completes after a later render's
        load leaves its own, older, picture and texts on the canvas. */
    method ImageLoaded(load: PendingLoad, decoded: Dimensions, measure: Measure)
      modifies this
      ensures width == decoded.width && height == decoded.height
      ensures surface == [DrawImage(load.source)] + TextCommands(width, height, load.topText, load.bottomText, load.caption, measure)
      ensures font == Impact(if CaptionMode(load.topText, load.bottomText, load.caption) then CaptionFontSize(width) else FontSize(width))
      ensures lineWidth == (if CaptionMode(load.topText, load.bottomText, load.caption) then CaptionStroke(width) else BaseStroke(width))
      ensures baseline == (if load.bottomText != "" then Bottom
                           else if load.topText != "" || CaptionMode(load.topText, load.bottomText, load.caption) then Top
                           else Alphabetic)
    {
      SetWidth(decoded.width);
      SetHeight(decoded.height);
      surface := surface + [DrawImage(load.source)];

      var fontSize := FontSize(width);
      font := Impact(fontSize);
      SetLineWidth(StrokeWidth(fontSize));
      assert lineWidth == BaseStroke(width);
      var padding := Padding(height);
      var x := width as real / 2.0;
      ghost var startSurface := surface;

      if load.topText != "" {
        DrawTextPass(load.topText, x, padding as real, Top);
      }
      if load.bottomText != "" {
        DrawTextPass(load.bottomText, x, height as real - padding as real, Bottom);
      }
      ghost var top := if load.topText != "" then [DrawText(ToUpper(load.topText), x, padding as real, Top, fontSize, BaseStroke(width))] else [];
      ghost var bottom := if load.bottomText != "" then [DrawText(ToUpper(load.bottomText), x, height as real - padding as real, Bottom, fontSize, BaseStroke(width))] else [];
      assert surface == startSurface + top + bottom;

      if load.caption != "" && load.topText == "" && load.bottomText == "" {
        DrawCaption(load.caption, measure);
      }
    }
  }

  /** The draw effect itself, run on every change of the image or the texts:
      without a truthy `imageSrc` or a 2D context it does nothing; otherwise
      it starts loading the image, and the `onload` closure captures this
      render's texts. The canvas is not touched until ImageLoaded. */
  method Render(imageSrc: Option<string>, hasContext: bool, topText: string, bottomText: string, caption: string)
    returns (pending: Option<PendingLoad>)
    ensures pending.Some? <==> Truthy(imageSrc) && hasContext
    ensures pending.Some? ==> pending.value == PendingLoad(imageSrc.value, topText, bottomText, caption)
  {
    if !Truthy(imageSrc) {
      return None;
    }
    if !hasContext {
      return None;
    }
    pending := Some(PendingLoad(imageSrc.value, topText, bottomText, caption));
  }
}
