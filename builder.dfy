/**
 * The slide builder as the program runs it: the conversion's local
 * variables are the fields of a `Builder`, its two helper closures and the
 * per-event handlers are methods that update those fields in place, and
 * `ParseMarkdownToSlides` feeds the events to a fresh builder one at a time.
 * Every method is proved to do to the builder's state what the matching
 * function of module SlideFold says, so the driver computes `Parse`.
 */
module SlideBuilder {
  import opened Options
  import opened Markdown
  import opened Styled
  import opened Highlight
  import opened SlideFold
  import StrLines

  class Builder {
    const engine: SyntaxEngine
    var slides: seq<Slide>
    var lines: seq<Line>
    var spans: seq<Span>
    var inHeading: bool
    var headingLevel: HeadingLevel
    var inStrong: bool
    var inEmphasis: bool
    var inCodeBlock: bool
    var codeLang: Option<string>
    var codeContent: string
    var inTable: bool

    /** The builder's fields as a value of the fold's state type. */
    function State(): FoldState
      reads this
    {
      FoldState(slides, lines, spans, inHeading, headingLevel, inStrong, inEmphasis, inCodeBlock, codeLang, codeContent, inTable)
    }

    constructor(engine: SyntaxEngine)
      ensures this.engine == engine && State() == Initial
    {
      this.engine := engine;
      slides := [];
      lines := [];
      spans := [];
      inHeading := false;
      headingLevel := H1;
      inStrong := false;
      inEmphasis := false;
      inCodeBlock := false;
      codeLang := None;
      codeContent := "";
      inTable := false;
    }

    /** Moves the pending spans into a new line of the current slide, centring it when it is a level-1 heading. */
    method PushCurrentLine(isH1: bool)
      modifies this
      ensures State() == Commit(old(State()), isH1)
    {
      if spans != [] {
        var line := spans;
        spans := [];
        if isH1 {
          var width := TextWidth(line);
          var padding := if TerminalWidth > width then (TerminalWidth - width) / 2 else 0;
          if padding > 0 {
            line := [Span(Spaces(padding), Plain)] + line;
          }
        }
        lines := lines + [line];
      }
    }

    /** Moves the current slide's lines, if any, into a new slide. */
    method FinishSlide()
      modifies this
      ensures State() == SlideFold.FinishSlide(old(State()))
    {
      if lines != [] {
        slides := slides + [lines];
        lines := [];
      }
    }

    method StartHeading(level: HeadingLevel)
      modifies this
      ensures State() == OnHeadingStart(old(State()), level)
    {
      PushCurrentLine(false);
      if level == H1 && lines != [] {
        FinishSlide();
      }
      inHeading := true;
      headingLevel := level;
    }

    method EndHeading()
      modifies this
      ensures State() == OnHeadingEnd(old(State()))
    {
      PushCurrentLine(headingLevel == H1);
      inHeading := false;
    }

    method AddText(t: string)
      modifies this
      ensures State() == OnText(old(State()), t)
    {
      if inCodeBlock {
        codeContent := codeContent + t;
      } else {
        var style := Fg(White);
        if inHeading {
          style := HeadingStyle(headingLevel);
        } else if inStrong {
          style := style.(bold := true);
        } else if inEmphasis {
          style := style.(italic := true);
        } else if inTable {
          style := Fg(Cyan);
        }
        spans := spans + [Span(t, style)];
      }
    }

    /** A paragraph boundary or a line break. */
    method Break()
      modifies this
      ensures State() == OnBreak(old(State()))
    {
      if !inTable {
        PushCurrentLine(false);
      }
    }

    method StartCodeBlock(kind: CodeBlockKind)
      modifies this
      ensures State() == OnCodeBlockStart(old(State()), kind)
    {
      PushCurrentLine(false);
      inCodeBlock := true;
      match kind {
        case Indented => codeLang := None;
        case Fenced(info) => codeLang := if info == "" then None else Some(info);
      }
      codeContent := "";
    }

    /** Adds one green line per line of the code buffer. */
    method PushFallbackLines()
      modifies this
      ensures State() == old(State()).(lines := old(lines) + FallbackLines(StrLines.Lines(codeContent)))
    {
      var texts := StrLines.Lines(codeContent);
      var i := 0;
      while i < |texts|
        invariant 0 <= i <= |texts|
        invariant State() == old(State()).(lines := old(lines) + FallbackLines(texts[..i]))
      {
        assert texts[..i + 1][..i] == texts[..i];
        lines := lines + [[CodeSpan(texts[i])]];
        i := i + 1;
      }
      assert texts[..i] == texts;
    }

    /** Adds one line per piece of the code buffer, highlighted with the grammar of `ext`. */
    method PushHighlightedLines(ext: string)
      modifies this
      ensures var pieces := StrLines.SplitInclusive(old(codeContent));
        State() == old(State()).(lines := old(lines) + HighlightedLines(engine, ext, pieces, |pieces|))
    {
      var added := HighlightPieces(engine, ext, StrLines.SplitInclusive(codeContent));
      lines := lines + added;
    }

    /** Turns the buffered code into lines of the current slide and clears the buffer and the tag. */
    method EndCodeBlock()
      modifies this
      ensures State() == OnCodeBlockEnd(engine, old(State()))
    {
      inCodeBlock := false;
      match codeLang {
        case Some(lang) =>
          match SyntaxExtension(lang) {
            case Some(ext) =>
              if engine.hasSyntax(ext) {
                PushHighlightedLines(ext);
              } else {
                PushFallbackLines();
              }
            case None => PushFallbackLines();
          }
        case None => PushFallbackLines();
      }
      codeContent := "";
      codeLang := None;
    }

    method HandleStart(tag: Tag)
      modifies this
      ensures State() == OnStart(old(State()), tag)
    {
      match tag
      case Heading(level) => StartHeading(level);
      case Paragraph => Break();
      case List => PushCurrentLine(false);
      case Item => spans := spans + [Bullet];
      case Strong => inStrong := true;
      case Emphasis => inEmphasis := true;
      case CodeBlock(kind) => StartCodeBlock(kind);
      case Table =>
        PushCurrentLine(false);
        inTable := true;
      case TableHead =>
      case TableRow =>
      case TableCell =>
        if spans != [] {
          spans := spans + [CellSeparator];
        }
      case OtherTag =>
    }

    method HandleEnd(tagEnd: TagEnd)
      modifies this
      ensures State() == OnEnd(engine, old(State()), tagEnd)
    {
      match tagEnd
      case HeadingEnd(_) => EndHeading();
      case ParagraphEnd => Break();
      case ListEnd =>
      case ItemEnd => PushCurrentLine(false);
      case StrongEnd => inStrong := false;
      case EmphasisEnd => inEmphasis := false;
      case CodeBlockEnd => EndCodeBlock();
      case TableEnd =>
        PushCurrentLine(false);
        inTable := false;
      case TableHeadEnd => PushCurrentLine(false);
      case TableRowEnd => PushCurrentLine(false);
      case TableCellEnd =>
      case OtherTagEnd =>
    }

    method Handle(e: Event)
      modifies this
      ensures State() == Step(engine, old(State()), e)
    {
      match e
      case Start(tag) => HandleStart(tag);
      case End(tagEnd) => HandleEnd(tagEnd);
      case Text(t) => AddText(t);
      case Code(code) => spans := spans + [InlineCode(code)];
      case SoftBreak => Break();
      case HardBreak => Break();
      case Other =>
    }
  }

  /** The lines of the pieces of a code block, each highlighted after the pieces before it. */
  method HighlightPieces(engine: SyntaxEngine, ext: string, pieces: seq<string>) returns (added: seq<Line>)
    ensures added == HighlightedLines(engine, ext, pieces, |pieces|)
  {
    added := [];
    var i := 0;
    while i < |pieces|
      invariant 0 <= i <= |pieces|
      invariant added == HighlightedLines(engine, ext, pieces, i)
    {
      var lineSpans := HighlightPiece(engine, ext, pieces[..i], pieces[i]);
      added := added + [lineSpans];
      i := i + 1;
    }
  }

  /** The spans of one piece of code: its highlighted ranges, or the piece in green when there are none. */
  method HighlightPiece(engine: SyntaxEngine, ext: string, before: seq<string>, piece: string) returns (lineSpans: Line)
    ensures lineSpans == HighlightLine(engine, ext, before, piece)
  {
    var ranges := engine.highlight(ext, before, piece);
    if ranges == [] {
      lineSpans := [CodeSpan(piece)];
    } else {
      lineSpans := [];
      var j := 0;
      while j < |ranges|
        invariant 0 <= j <= |ranges|
        invariant lineSpans == RangeSpans(ranges[..j])
      {
        assert ranges[..j + 1][..j] == ranges[..j];
        lineSpans := lineSpans + [RangeSpan(ranges[j])];
        j := j + 1;
      }
      assert ranges[..j] == ranges;
    }
  }

  /** The summed character counts of the spans of a line. */
  method TextWidth(spans: seq<Span>) returns (width: nat)
    ensures width == Width(spans)
  {
    width := 0;
    var i := 0;
    while i < |spans|
      invariant 0 <= i <= |spans|
      invariant width == Width(spans[..i])
    {
      WidthAppend(spans[..i], [spans[i]]);
      assert spans[..i + 1] == spans[..i] + [spans[i]];
      assert [spans[i]][..0] == [];
      width := width + |spans[i].content|;
      i := i + 1;
    }
    assert spans[..i] == spans;
  }

  /**
   * Converts the events of a markdown document into slides: every event is
   * handled in order, then the pending line is committed and the last slide
   * finished; a document that produced nothing gets the placeholder slide.
   */
  method ParseMarkdownToSlides(engine: SyntaxEngine, events: seq<Event>) returns (deck: seq<Slide>)
    ensures deck == Parse(engine, events)
    ensures |deck| >= 1 && forall i :: 0 <= i < |deck| ==> deck[i] != []
  {
    var b := new Builder(engine);
    var i := 0;
    while i < |events|
      invariant 0 <= i <= |events|
      invariant b.engine == engine
      invariant b.State() == Fold(engine, Initial, events[..i])
    {
      assert events[..i + 1][..i] == events[..i];
      b.Handle(events[i]);
      i := i + 1;
    }
    assert events[..i] == events;
    b.PushCurrentLine(false);
    b.FinishSlide();
    deck := b.slides;
    if deck == [] {
      deck := [PlaceholderSlide];
    }
  }
}
