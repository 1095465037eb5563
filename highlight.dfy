/**
 * How a finished code block becomes lines. The block's language tag is
 * mapped to a grammar extension through a fixed table ("rust" to "rs",
 * "python" and "py" to "py"); when that extension has a grammar the buffer is
 * highlighted piece by piece, otherwise every line of the buffer becomes one
 * green span. The highlighting engine (syntect with the "base16-ocean.dark"
 * theme) is an input value: which extensions it has a grammar for, and the
 * ranges it returns for a piece given the pieces highlighted before it.
 */
module Highlight {
  import opened Options
  import opened Styled
  import StrLines

  /** The colour and font flags of one highlighted range. */
  datatype RangeStyle = RangeStyle(r: Byte, g: Byte, b: Byte, bold: bool, italic: bool)

  datatype Range = Range(style: RangeStyle, text: string)

  /**
   * `hasSyntax(ext)` says whether a grammar is found by extension.
   * `highlight(ext, before, piece)` gives the ranges of `piece`, where
   * `before` are the pieces of the same block highlighted earlier (the
   * highlighter carries parse state from one piece to the next); a
   * highlighting error yields no ranges.
   */
  datatype SyntaxEngine = SyntaxEngine(
    hasSyntax: string -> bool,
    highlight: (string, seq<string>, string) -> seq<Range>)

  /** The fixed language table of the code-block handler. */
  function SyntaxExtension(lang: string): (ext: Option<string>)
    ensures ext.Some? <==> lang == "rust" || lang == "python" || lang == "py"
    ensures ext == Some("rs") <==> lang == "rust"
    ensures ext == Some("py") <==> lang == "python" || lang == "py"
  {
    if lang == "rust" then Some("rs")
    else if lang == "python" || lang == "py" then Some("py")
    else None
  }

  /** The extension whose grammar highlights a block tagged `lang`, if any. */
  function Grammar(engine: SyntaxEngine, lang: Option<string>): (ext: Option<string>)
    ensures ext.Some? <==> lang.Some? && SyntaxExtension(lang.value).Some? && engine.hasSyntax(SyntaxExtension(lang.value).value)
    ensures ext.Some? ==> ext == SyntaxExtension(lang.value)
    ensures ext.Some? ==> ext.value == "rs" || ext.value == "py"
  {
    match lang
    case None => None
    case Some(l) =>
      match SyntaxExtension(l)
      case None => None
      case Some(e) => if engine.hasSyntax(e) then Some(e) else None
  }

  /** A line of code in the fallback colour. */
  function CodeSpan(text: string): Span {
    Span(text, Fg(Green))
  }

  /** A highlighted range as a span: its RGB foreground, BOLD and ITALIC as the range says. */
  function RangeSpan(range: Range): (span: Span)
    ensures span.content == range.text
    ensures span.style.fg == Some(Rgb(range.style.r, range.style.g, range.style.b)) && span.style.bg == None
    ensures span.style.bold == range.style.bold && span.style.italic == range.style.italic
  {
    Span(range.text, Style(Some(Rgb(range.style.r, range.style.g, range.style.b)), None, range.style.bold, range.style.italic))
  }

  function RangeSpans(ranges: seq<Range>): (spans: seq<Span>)
    ensures |spans| == |ranges|
    ensures forall i :: 0 <= i < |ranges| ==> spans[i] == RangeSpan(ranges[i])
  {
    if ranges == [] then [] else RangeSpans(ranges[..|ranges| - 1]) + [RangeSpan(ranges[|ranges| - 1])]
  }

  /** The line for one piece: its ranges as spans, or the piece itself in green when there are none. */
  function HighlightLine(engine: SyntaxEngine, ext: string, before: seq<string>, piece: string): (line: Line)
    ensures EndsColored(line)
    ensures engine.highlight(ext, before, piece) == [] ==> line == [CodeSpan(piece)]
    ensures engine.highlight(ext, before, piece) != [] ==> line == RangeSpans(engine.highlight(ext, before, piece))
  {
    var ranges := engine.highlight(ext, before, piece);
    if ranges == [] then [CodeSpan(piece)] else RangeSpans(ranges)
  }

  /** The lines of the first `n` pieces. */
  function HighlightedLines(engine: SyntaxEngine, ext: string, pieces: seq<string>, n: nat): (lines: seq<Line>)
    requires n <= |pieces|
    ensures |lines| == n
    ensures forall i :: 0 <= i < n ==> lines[i] == HighlightLine(engine, ext, pieces[..i], pieces[i])
  {
    if n == 0 then [] else HighlightedLines(engine, ext, pieces, n - 1) + [HighlightLine(engine, ext, pieces[..n - 1], pieces[n - 1])]
  }

  /** One green single-span line per text line. */
  function FallbackLines(texts: seq<string>): (lines: seq<Line>)
    ensures |lines| == |texts|
    ensures forall i :: 0 <= i < |texts| ==> lines[i] == [CodeSpan(texts[i])]
  {
    if texts == [] then [] else FallbackLines(texts[..|texts| - 1]) + [[CodeSpan(texts[|texts| - 1])]]
  }

  /** Everything a finished code block adds to the slide. */
  function CodeBlockLines(engine: SyntaxEngine, lang: Option<string>, content: string): (lines: seq<Line>)
    ensures forall i :: 0 <= i < |lines| ==> EndsColored(lines[i])
  {
    match Grammar(engine, lang)
    case Some(ext) =>
      var pieces := StrLines.SplitInclusive(content);
      HighlightedLines(engine, ext, pieces, |pieces|)
    case None => FallbackLines(StrLines.Lines(content))
  }

  /**
   * Without a grammar (no tag, a tag outside the table, or no grammar for the
   * extension) a block yields exactly one green single-span line per line of
   * its buffer, one per terminator plus one for an unterminated last line.
   */
  lemma FallbackBlock(engine: SyntaxEngine, lang: Option<string>, content: string)
    requires lang.None? || SyntaxExtension(lang.value).None? || !engine.hasSyntax(SyntaxExtension(lang.value).value)
    ensures var lines := CodeBlockLines(engine, lang, content);
      && |lines| == StrLines.NewlineCount(content) + StrLines.OpenTail(content)
      && forall i :: 0 <= i < |lines| ==> lines[i] == [CodeSpan(StrLines.Lines(content)[i])]
  {
    StrLines.LinesCount(content);
  }

  /**
   * With a grammar, a block yields one line per piece of its buffer (each
   * piece keeps its terminator), and a piece the engine returns no ranges for
   * is kept whole as one green span.
   */
  lemma HighlightedBlock(engine: SyntaxEngine, lang: Option<string>, content: string)
    requires Grammar(engine, lang).Some?
    ensures var lines := CodeBlockLines(engine, lang, content);
      var pieces := StrLines.SplitInclusive(content);
      var ext := Grammar(engine, lang).value;
      && |lines| == StrLines.NewlineCount(content) + StrLines.OpenTail(content)
      && forall i :: 0 <= i < |lines| && engine.highlight(ext, pieces[..i], pieces[i]) == [] ==> lines[i] == [CodeSpan(pieces[i])]
  {
    StrLines.SplitInclusiveCount(content);
  }
}
