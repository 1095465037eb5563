/**
 * The slide builder as a fold over the markdown events: `Step` is what one
 * event does to the builder's state, `Fold` runs a sequence of events and
 * `Parse` is the whole conversion, including the final commit and the
 * placeholder slide for a document that produced nothing. The imperative
 * builder in module SlideBuilder is proved to compute exactly this.
 */
module SlideFold {
  import opened Options
  import opened Markdown
  import opened Styled
  import opened Highlight

  /** The width a level-1 heading is centred in. */
  const TerminalWidth: nat := 80

  const PlaceholderText: string := "No slides found in markdown file"

  /** The one slide of a document that produced no line: the text as a raw span. */
  const PlaceholderSlide: Slide := [[Span(PlaceholderText, Plain)]]

  /** The marker a list item starts with. */
  const Bullet: Span := Span("• ", Fg(Yellow))

  /** What goes between two cells of a table row. */
  const CellSeparator: Span := Span(" | ", Fg(Gray))

  /** Inline code: the code between backticks, green on dark grey. */
  function InlineCode(code: string): Span {
    Span("`" + code + "`", Style(Some(Green), Some(Rgb(40, 40, 40)), false, false))
  }

  /** The builder's state: finished slides, the current slide's lines, the pending spans, the flags and the code buffer. */
  datatype FoldState = FoldState(
    slides: seq<Slide>,
    lines: seq<Line>,
    spans: seq<Span>,
    inHeading: bool,
    headingLevel: HeadingLevel,
    inStrong: bool,
    inEmphasis: bool,
    inCodeBlock: bool,
    codeLang: Option<string>,
    codeContent: string,
    inTable: bool)

  const Initial: FoldState := FoldState([], [], [], false, H1, false, false, false, None, "", false)

  /** Spaces before a level-1 heading line of `width` characters. */
  function CenterPad(width: nat): (pad: nat)
    ensures width < TerminalWidth ==> pad <= TerminalWidth - width - pad <= pad + 1
    ensures width >= TerminalWidth ==> pad == 0
  {
    if TerminalWidth > width then (TerminalWidth - width) / 2 else 0
  }

  /** The line made of the pending spans; a heading line gets a run of spaces in front that centres it. */
  function CommittedLine(spans: seq<Span>, isH1: bool): (line: Line)
    requires spans != []
    ensures line == spans || (isH1 && |line| == |spans| + 1 && line == [Span(Spaces(|line[0].content|), Plain)] + spans && line[0].content != [])
    ensures !isH1 || Width(spans) >= TerminalWidth - 1 ==> line == spans
    ensures isH1 && Width(spans) < TerminalWidth ==>
      var left := Width(line) - Width(spans);
      left <= TerminalWidth - Width(line) <= left + 1
    ensures line[|line| - 1] == spans[|spans| - 1]
  {
    var pad := CenterPad(Width(spans));
    if isH1 && pad > 0 then
      WidthAppend([Span(Spaces(pad), Plain)], spans);
      assert Width([Span(Spaces(pad), Plain)]) == pad by {
        assert [Span(Spaces(pad), Plain)][..0] == [];
      }
      [Span(Spaces(pad), Plain)] + spans
    else spans
  }

  /** The current slide's lines after committing the pending spans: one more line exactly when there were spans. */
  function CommitLine(lines: seq<Line>, spans: seq<Span>, isH1: bool): (r: seq<Line>)
    ensures |r| == |lines| + (if spans == [] then 0 else 1)
    ensures r[..|lines|] == lines
    ensures spans != [] ==> r[|lines|] == CommittedLine(spans, isH1)
  {
    if spans == [] then lines else lines + [CommittedLine(spans, isH1)]
  }

  /** The builder's line-commit step: the pending spans become a line (if any) and the span buffer is emptied. */
  function Commit(st: FoldState, isH1: bool): FoldState {
    st.(lines := CommitLine(st.lines, st.spans, isH1), spans := [])
  }

  /** The builder's slide-finish step: a non-empty line buffer becomes a slide and is emptied. */
  function FinishSlide(st: FoldState): FoldState {
    if st.lines != [] then st.(slides := st.slides + [st.lines], lines := []) else st
  }

  function HeadingStyle(level: HeadingLevel): Style {
    match level
    case H1 => Style(Some(Cyan), None, true, false)
    case H2 => Style(Some(Blue), None, true, false)
    case H3 => Style(Some(Green), None, true, false)
    case _ => Style(Some(Yellow), None, true, false)
  }

  /**
   * The style of a text run: a heading's style wins over strong, strong over
   * emphasis, emphasis over a table cell, and plain text is white. Strong
   * and emphasis never combine.
   */
  function TextStyle(inHeading: bool, level: HeadingLevel, inStrong: bool, inEmphasis: bool, inTable: bool): (s: Style)
    ensures s.fg.Some? && s.bg == None
    ensures s.bold <==> inHeading || inStrong
    ensures s.italic <==> !inHeading && !inStrong && inEmphasis
    ensures !(s.bold && s.italic)
    ensures inHeading ==> s == HeadingStyle(level)
    ensures s.fg == Some(Cyan) <==> (inHeading && level == H1) || (!inHeading && !inStrong && !inEmphasis && inTable)
    ensures !inHeading ==> (s.fg == Some(White) <==> inStrong || inEmphasis || !inTable)
  {
    if inHeading then HeadingStyle(level)
    else if inStrong then Style(Some(White), None, true, false)
    else if inEmphasis then Style(Some(White), None, false, true)
    else if inTable then Fg(Cyan)
    else Fg(White)
  }

  /** The language tag of a code block: a fenced block's non-empty info string. */
  function LangOf(kind: CodeBlockKind): (lang: Option<string>)
    ensures lang.Some? <==> kind.Fenced? && kind.info != ""
    ensures lang.Some? ==> lang.value == kind.info
  {
    match kind
    case Indented => None
    case Fenced(info) => if info == "" then None else Some(info)
  }

  /** A level-1 heading finishes the current slide when, after the pending line is committed, it has lines. */
  function OnHeadingStart(st: FoldState, level: HeadingLevel): FoldState {
    var c := Commit(st, false);
    var c' := if level == H1 && c.lines != [] then FinishSlide(c) else c;
    c'.(inHeading := true, headingLevel := level)
  }

  function OnHeadingEnd(st: FoldState): FoldState {
    Commit(st, st.headingLevel == H1).(inHeading := false)
  }

  /** Text goes to the code buffer inside a code block, and otherwise becomes a span styled by the flags. */
  function OnText(st: FoldState, t: string): FoldState {
    if st.inCodeBlock then st.(codeContent := st.codeContent + t)
    else st.(spans := st.spans + [Span(t, TextStyle(st.inHeading, st.headingLevel, st.inStrong, st.inEmphasis, st.inTable))])
  }

  /** A paragraph boundary or a line break commits the pending line, except inside a table. */
  function OnBreak(st: FoldState): FoldState {
    if st.inTable then st else Commit(st, false)
  }

  function PushSpan(st: FoldState, span: Span): FoldState {
    st.(spans := st.spans + [span])
  }

  /** A table cell is separated from what is already pending on the row. */
  function OnTableCellStart(st: FoldState): FoldState {
    if st.spans != [] then PushSpan(st, CellSeparator) else st
  }

  function OnCodeBlockStart(st: FoldState, kind: CodeBlockKind): FoldState {
    Commit(st, false).(inCodeBlock := true, codeLang := LangOf(kind), codeContent := "")
  }

  /** The buffered code becomes lines of the current slide; the buffer and the tag are cleared. */
  function OnCodeBlockEnd(engine: SyntaxEngine, st: FoldState): FoldState {
    st.(inCodeBlock := false, lines := st.lines + CodeBlockLines(engine, st.codeLang, st.codeContent),
        codeContent := "", codeLang := None)
  }

  /** What an opening event does to the builder's state. */
  function OnStart(st: FoldState, tag: Tag): FoldState {
    match tag
    case Heading(level) => OnHeadingStart(st, level)
    case Paragraph => OnBreak(st)
    case List => Commit(st, false)
    case Item => PushSpan(st, Bullet)
    case Strong => st.(inStrong := true)
    case Emphasis => st.(inEmphasis := true)
    case CodeBlock(kind) => OnCodeBlockStart(st, kind)
    case Table => Commit(st, false).(inTable := true)
    case TableHead => st
    case TableRow => st
    case TableCell => OnTableCellStart(st)
    case OtherTag => st
  }

  /** What a closing event does to the builder's state. */
  function OnEnd(engine: SyntaxEngine, st: FoldState, tagEnd: TagEnd): FoldState {
    match tagEnd
    case HeadingEnd(_) => OnHeadingEnd(st)
    case ParagraphEnd => OnBreak(st)
    case ListEnd => st
    case ItemEnd => Commit(st, false)
    case StrongEnd => st.(inStrong := false)
    case EmphasisEnd => st.(inEmphasis := false)
    case CodeBlockEnd => OnCodeBlockEnd(engine, st)
    case TableEnd => Commit(st, false).(inTable := false)
    case TableHeadEnd => Commit(st, false)
    case TableRowEnd => Commit(st, false)
    case TableCellEnd => st
    case OtherTagEnd => st
  }

  /** What one event does to the builder's state. */
  function Step(engine: SyntaxEngine, st: FoldState, e: Event): FoldState {
    match e
    case Start(tag) => OnStart(st, tag)
    case End(tagEnd) => OnEnd(engine, st, tagEnd)
    case Text(t) => OnText(st, t)
    case Code(code) => PushSpan(st, InlineCode(code))
    case SoftBreak => OnBreak(st)
    case HardBreak => OnBreak(st)
    case Other => st
  }

  /** The state after the events, one at a time, from `st`. */
  function Fold(engine: SyntaxEngine, st: FoldState, events: seq<Event>): FoldState
    decreases |events|
  {
    if events == [] then st
    else Step(engine, Fold(engine, st, events[..|events| - 1]), events[|events| - 1])
  }

  /** The slides the events produce: after the last event the pending line is committed and the slide finished. */
  function Produced(engine: SyntaxEngine, events: seq<Event>): seq<Slide> {
    FinishSlide(Commit(Fold(engine, Initial, events), false)).slides
  }

  /**
   * The whole conversion. There is always at least one slide and no slide
   * is empty; the result is the placeholder slide exactly when the events
   * produced no slide, and otherwise the produced slides.
   */
  function Parse(engine: SyntaxEngine, events: seq<Event>): (deck: seq<Slide>)
    ensures |deck| >= 1
    ensures forall i :: 0 <= i < |deck| ==> deck[i] != []
    ensures deck == [PlaceholderSlide] <==> Produced(engine, events) == []
    ensures Produced(engine, events) != [] ==> deck == Produced(engine, events)
  {
    var produced := Produced(engine, events);
    ProducedWellFormed(engine, events);
    if produced == [] then [PlaceholderSlide]
    else
      assert !EndsColored(PlaceholderSlide[0]);
      assert produced != [PlaceholderSlide] by { assert EndsColored(produced[0][0]); }
      produced
  }

  // ---------------------------------------------------------------------------
  // The builder's invariant: every pending span is coloured, every committed
  // line ends with a coloured span, and every finished slide has lines.

  ghost predicate GoodSlide(slide: Slide) {
    slide != [] && forall j :: 0 <= j < |slide| ==> EndsColored(slide[j])
  }

  ghost predicate Inv(st: FoldState) {
    Good(st.slides, st.lines, st.spans)
  }

  ghost predicate Good(slides: seq<Slide>, lines: seq<Line>, spans: seq<Span>) {
    && (forall i :: 0 <= i < |spans| ==> spans[i].style.fg.Some?)
    && (forall i :: 0 <= i < |lines| ==> EndsColored(lines[i]))
    && (forall i :: 0 <= i < |slides| ==> GoodSlide(slides[i]))
  }

  lemma CommitKeepsInv(st: FoldState, isH1: bool)
    requires Inv(st)
    ensures Inv(Commit(st, isH1))
  {
    var lines := CommitLine(st.lines, st.spans, isH1);
    forall i | 0 <= i < |lines| ensures EndsColored(lines[i]) {
      if i < |st.lines| {
        assert lines[i] == lines[..|st.lines|][i];
      }
    }
  }

  lemma FinishKeepsInv(st: FoldState)
    requires Inv(st)
    ensures Inv(FinishSlide(st))
  {
    if st.lines != [] {
      assert GoodSlide(st.lines);
    }
  }

  lemma PushKeepsInv(st: FoldState, span: Span)
    requires Inv(st) && span.style.fg.Some?
    ensures Inv(PushSpan(st, span))
  {
  }

  lemma TextKeepsInv(st: FoldState, t: string)
    requires Inv(st)
    ensures Inv(OnText(st, t))
  {
    if !st.inCodeBlock {
      PushKeepsInv(st, Span(t, TextStyle(st.inHeading, st.headingLevel, st.inStrong, st.inEmphasis, st.inTable)));
    }
  }

  lemma HeadingStartKeepsInv(st: FoldState, level: HeadingLevel)
    requires Inv(st)
    ensures Inv(OnHeadingStart(st, level))
  {
    CommitKeepsInv(st, false);
    FinishKeepsInv(Commit(st, false));
  }

  lemma CodeBlockEndKeepsInv(engine: SyntaxEngine, st: FoldState)
    requires Inv(st)
    ensures Inv(OnCodeBlockEnd(engine, st))
  {
    var added := CodeBlockLines(engine, st.codeLang, st.codeContent);
    var lines := st.lines + added;
    forall i | 0 <= i < |lines| ensures EndsColored(lines[i]) {
      if i >= |st.lines| {
        assert lines[i] == added[i - |st.lines|];
      }
    }
  }

  lemma {:induction false} StartKeepsInv(st: FoldState, tag: Tag)
    requires Inv(st)
    ensures Inv(OnStart(st, tag))
  {
    match tag
    case Heading(level) => HeadingStartKeepsInv(st, level);
    case Item => PushKeepsInv(st, Bullet);
    case TableCell => PushKeepsInv(st, CellSeparator);
    case _ => CommitKeepsInv(st, false);
  }

  lemma {:induction false} EndKeepsInv(engine: SyntaxEngine, st: FoldState, tagEnd: TagEnd)
    requires Inv(st)
    ensures Inv(OnEnd(engine, st, tagEnd))
  {
    match tagEnd
    case HeadingEnd(_) => CommitKeepsInv(st, st.headingLevel == H1);
    case CodeBlockEnd => CodeBlockEndKeepsInv(engine, st);
    case _ => CommitKeepsInv(st, false);
  }

  lemma {:induction false} StepKeepsInv(engine: SyntaxEngine, st: FoldState, e: Event)
    requires Inv(st)
    ensures Inv(Step(engine, st, e))
  {
    match e
    case Start(tag) => StartKeepsInv(st, tag);
    case End(tagEnd) => EndKeepsInv(engine, st, tagEnd);
    case Text(t) => TextKeepsInv(st, t);
    case Code(code) => PushKeepsInv(st, InlineCode(code));
    case _ => CommitKeepsInv(st, false);
  }

  lemma {:induction false} FoldKeepsInv(engine: SyntaxEngine, st: FoldState, events: seq<Event>)
    requires Inv(st)
    ensures Inv(Fold(engine, st, events))
    decreases |events|
  {
    if events != [] {
      FoldKeepsInv(engine, st, events[..|events| - 1]);
      StepKeepsInv(engine, Fold(engine, st, events[..|events| - 1]), events[|events| - 1]);
    }
  }

  /** Every produced slide has lines, and each of its lines ends with a coloured span. */
  lemma ProducedWellFormed(engine: SyntaxEngine, events: seq<Event>)
    ensures forall i :: 0 <= i < |Produced(engine, events)| ==> GoodSlide(Produced(engine, events)[i])
  {
    FoldKeepsInv(engine, Initial, events);
    var st := Fold(engine, Initial, events);
    CommitKeepsInv(st, false);
    FinishKeepsInv(Commit(st, false));
  }
}
