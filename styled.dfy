/**
 * Styled text as the terminal UI library represents it: a span is a piece of
 * text with a style, a line is a sequence of spans and a slide a sequence of
 * lines. Only the colours and modifiers the slide builder uses are modelled.
 */
module Styled {
  import opened Options

  type Byte = x: int | 0 <= x < 256

  datatype Color = White | Cyan | Blue | Green | Yellow | Gray | Rgb(r: Byte, g: Byte, b: Byte)

  /** Foreground, background, and the BOLD and ITALIC modifiers. */
  datatype Style = Style(fg: Option<Color>, bg: Option<Color>, bold: bool, italic: bool)

  datatype Span = Span(content: string, style: Style)

  type Line = seq<Span>

  type Slide = seq<Line>

  /** The default style: no colour, no modifier (what a raw span carries). */
  const Plain: Style := Style(None, None, false, false)

  /** The default style with a foreground colour. */
  function Fg(c: Color): Style {
    Style(Some(c), None, false, false)
  }

  /** Total number of characters in the spans (the width the builder measures). */
  function Width(spans: seq<Span>): nat {
    if spans == [] then 0 else Width(spans[..|spans| - 1]) + |spans[|spans| - 1].content|
  }

  lemma {:induction false} WidthAppend(a: seq<Span>, b: seq<Span>)
    ensures Width(a + b) == Width(a) + Width(b)
    decreases |b|
  {
    if b != [] {
      assert (a + b)[..|a + b| - 1] == a + b[..|b| - 1];
      WidthAppend(a, b[..|b| - 1]);
    } else {
      assert a + b == a;
    }
  }

  /** A line whose last span carries a foreground colour: every line the builder emits has this form. */
  predicate EndsColored(line: Line) {
    line != [] && line[|line| - 1].style.fg.Some?
  }

  /** A string of `n` spaces. */
  function Spaces(n: nat): (s: string)
    ensures |s| == n && forall i :: 0 <= i < n ==> s[i] == ' '
  {
    seq(n, _ => ' ')
  }
}
