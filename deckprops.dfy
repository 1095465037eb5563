/**
 * Properties of the slide builder's fold that relate several events:
 * slide segmentation at level-1 headings, table rows, code blocks and the
 * table context's effect on paragraph and line-break events.
 */
module DeckProperties {
  import opened Options
  import opened Markdown
  import opened Styled
  import opened Highlight
  import opened SlideFold

  lemma {:induction false} FoldAppend(engine: SyntaxEngine, st: FoldState, a: seq<Event>, b: seq<Event>)
    ensures Fold(engine, st, a + b) == Fold(engine, Fold(engine, st, a), b)
    decreases |b|
  {
    if b == [] {
      assert a + b == a;
    } else {
      assert (a + b)[..|a + b| - 1] == a + b[..|b| - 1];
      FoldAppend(engine, st, a, b[..|b| - 1]);
    }
  }

  lemma FoldSnoc(engine: SyntaxEngine, st: FoldState, events: seq<Event>, e: Event)
    ensures Fold(engine, st, events + [e]) == Step(engine, Fold(engine, st, events), e)
  {
    assert (events + [e])[..|events|] == events;
  }

  lemma Fold3(engine: SyntaxEngine, st: FoldState, a: Event, b: Event, c: Event)
    ensures Fold(engine, st, [a, b, c]) == Step(engine, Step(engine, Step(engine, st, a), b), c)
  {
    FoldSnoc(engine, st, [], a);
    assert [] + [a] == [a];
    FoldSnoc(engine, st, [a], b);
    assert [a] + [b] == [a, b];
    FoldSnoc(engine, st, [a, b], c);
    assert [a, b] + [c] == [a, b, c];
  }

  ghost predicate IsPrefix<T>(a: seq<T>, b: seq<T>) {
    |a| <= |b| && b[..|a|] == a
  }

  // ---------------------------------------------------------------------------
  // Slides are only finished at level-1 headings.

  lemma CommitExtends(st: FoldState, isH1: bool)
    ensures IsPrefix(st.lines, Commit(st, isH1).lines)
  {
  }

  lemma {:induction false} StartKeepsSlides(st: FoldState, tag: Tag)
    requires tag != Heading(H1)
    ensures OnStart(st, tag).slides == st.slides
    ensures IsPrefix(st.lines, OnStart(st, tag).lines)
  {
    match tag
    case Heading(level) => CommitExtends(st, false);
    case Paragraph => CommitExtends(st, false);
    case List => CommitExtends(st, false);
    case CodeBlock(kind) => CommitExtends(st, false);
    case Table => CommitExtends(st, false);
    case _ =>
  }

  lemma {:induction false} EndKeepsSlides(engine: SyntaxEngine, st: FoldState, tagEnd: TagEnd)
    ensures OnEnd(engine, st, tagEnd).slides == st.slides
    ensures IsPrefix(st.lines, OnEnd(engine, st, tagEnd).lines)
  {
    CommitExtends(st, false);
    CommitExtends(st, st.headingLevel == H1);
  }

  /** Any event other than the start of a level-1 heading keeps the finished slides and only appends lines. */
  lemma {:induction false} StepKeepsSlides(engine: SyntaxEngine, st: FoldState, e: Event)
    requires e != Start(Heading(H1))
    ensures Step(engine, st, e).slides == st.slides
    ensures IsPrefix(st.lines, Step(engine, st, e).lines)
  {
    match e
    case Start(tag) => StartKeepsSlides(st, tag);
    case End(tagEnd) => EndKeepsSlides(engine, st, tagEnd);
    case _ => CommitExtends(st, false);
  }

  /** Without a level-1 heading start, the events finish no slide, whatever else they do, and lines are only added. */
  lemma {:induction false} FoldKeepsSlides(engine: SyntaxEngine, st: FoldState, events: seq<Event>)
    requires forall i :: 0 <= i < |events| ==> events[i] != Start(Heading(H1))
    ensures Fold(engine, st, events).slides == st.slides
    ensures IsPrefix(st.lines, Fold(engine, st, events).lines)
    decreases |events|
  {
    if events != [] {
      var prev := events[..|events| - 1];
      FoldKeepsSlides(engine, st, prev);
      StepKeepsSlides(engine, Fold(engine, st, prev), events[|events| - 1]);
    }
  }

  /** A document without a level-1 heading is one slide. */
  lemma NoH1SingleSlide(engine: SyntaxEngine, events: seq<Event>)
    requires forall i :: 0 <= i < |events| ==> events[i] != Start(Heading(H1))
    ensures |Parse(engine, events)| == 1
  {
    FoldKeepsSlides(engine, Initial, events);
  }

  /**
   * The start of a level-1 heading commits the pending line and then
   * finishes the current slide exactly when that slide has a line: the new
   * slide is the old lines with the pending line committed, and the next
   * slide starts empty. A heading of another level only commits the pending
   * line and finishes no slide.
   */
  lemma HeadingStartSegments(st: FoldState, level: HeadingLevel)
    ensures var r := OnHeadingStart(st, level);
      && (level == H1 ==> (|r.slides| == |st.slides| + 1 <==> st.lines != [] || st.spans != []))
      && (level == H1 && (st.lines != [] || st.spans != []) ==> r.slides == st.slides + [CommitLine(st.lines, st.spans, false)])
      && (level == H1 && st.lines == [] && st.spans == [] ==> r.slides == st.slides)
      && (level == H1 ==> r.lines == [] && r.spans == [])
      && (level != H1 ==> r.slides == st.slides && r.lines == CommitLine(st.lines, st.spans, false) && r.spans == [])
      && r.inHeading && r.headingLevel == level
  {
  }

  // ---------------------------------------------------------------------------
  // One slide per level-1 section.

  /** The events end inside a code block: a code-block start with no code-block end after it. */
  function LeavesCodeOpen(events: seq<Event>): bool {
    if events == [] then false
    else match events[|events| - 1]
      case Start(CodeBlock(_)) => true
      case End(CodeBlockEnd) => false
      case _ => LeavesCodeOpen(events[..|events| - 1])
  }

  lemma StartCodeFlag(st: FoldState, tag: Tag)
    ensures OnStart(st, tag).inCodeBlock == (tag.CodeBlock? || st.inCodeBlock)
  {
    match tag
    case Heading(level) =>
    case CodeBlock(kind) =>
    case _ =>
  }

  lemma EndCodeFlag(engine: SyntaxEngine, st: FoldState, tagEnd: TagEnd)
    ensures OnEnd(engine, st, tagEnd).inCodeBlock == (!tagEnd.CodeBlockEnd? && st.inCodeBlock)
  {
    match tagEnd
    case HeadingEnd(_) =>
    case _ =>
  }

  lemma StepCodeFlag(engine: SyntaxEngine, st: FoldState, e: Event)
    ensures Step(engine, st, e).inCodeBlock ==
      match e
      case Start(CodeBlock(_)) => true
      case End(CodeBlockEnd) => false
      case _ => st.inCodeBlock
  {
    match e
    case Start(tag) => StartCodeFlag(st, tag);
    case End(tagEnd) => EndCodeFlag(engine, st, tagEnd);
    case _ =>
  }

  /** Only code-block events move the code-block flag. */
  lemma {:induction false} FoldCodeFlag(engine: SyntaxEngine, st: FoldState, events: seq<Event>)
    requires !st.inCodeBlock
    ensures Fold(engine, st, events).inCodeBlock == LeavesCodeOpen(events)
    decreases |events|
  {
    if events != [] {
      FoldCodeFlag(engine, st, events[..|events| - 1]);
      StepCodeFlag(engine, Fold(engine, st, events[..|events| - 1]), events[|events| - 1]);
    }
  }

  /**
   * A section: a level-1 heading holding one text, then a body with no
   * level-1 heading start that does not end inside a code block.
   */
  ghost predicate IsSection(sec: seq<Event>) {
    && |sec| >= 3
    && sec[0] == Start(Heading(H1))
    && sec[1].Text?
    && sec[2].End? && sec[2].tagEnd.HeadingEnd?
    && (forall i :: 3 <= i < |sec| ==> sec[i] != Start(Heading(H1)))
    && !LeavesCodeOpen(sec[3..])
  }

  /** The heading text of a section. */
  function Title(sec: seq<Event>): string {
    if |sec| >= 2 && sec[1].Text? then sec[1].text else ""
  }

  function Flatten(secs: seq<seq<Event>>): seq<Event> {
    if secs == [] then [] else Flatten(secs[..|secs| - 1]) + secs[|secs| - 1]
  }

  /** The centred line a level-1 heading with this text becomes. */
  function HeadLine(title: string): Line {
    CommittedLine([Span(title, HeadingStyle(H1))], true)
  }

  lemma HeadingPrefix(engine: SyntaxEngine, st: FoldState, title: string, level: HeadingLevel)
    requires !st.inCodeBlock
    ensures var r := Fold(engine, st, [Start(Heading(H1)), Text(title), End(HeadingEnd(level))]);
      && r.slides == FinishSlide(Commit(st, false)).slides
      && r.lines == [HeadLine(title)]
      && !r.inCodeBlock
  {
    Fold3(engine, st, Start(Heading(H1)), Text(title), End(HeadingEnd(level)));
    var s1 := OnHeadingStart(st, H1);
    var s2 := OnText(s1, title);
    assert s2.spans == [Span(title, HeadingStyle(H1))];
  }

  lemma {:induction false} SectionStep(engine: SyntaxEngine, st: FoldState, sec: seq<Event>)
    requires IsSection(sec) && !st.inCodeBlock
    ensures var r := Fold(engine, st, sec);
      && r.slides == FinishSlide(Commit(st, false)).slides
      && r.lines != [] && r.lines[0] == HeadLine(Title(sec))
      && !r.inCodeBlock
  {
    var head := [Start(Heading(H1)), Text(sec[1].text), End(HeadingEnd(sec[2].tagEnd.endLevel))];
    var body := sec[3..];
    assert sec == head + body;
    FoldAppend(engine, st, head, body);
    HeadingPrefix(engine, st, sec[1].text, sec[2].tagEnd.endLevel);
    var s3 := Fold(engine, st, head);
    FoldKeepsSlides(engine, s3, body);
    FoldCodeFlag(engine, s3, body);
  }

  lemma AppendSection(engine: SyntaxEngine, st: FoldState, sec: seq<Event>)
    requires IsSection(sec) && st.lines != [] && !st.inCodeBlock
    ensures var r := Fold(engine, st, sec);
      && |r.slides| == |st.slides| + 1 && r.slides[..|st.slides|] == st.slides
      && r.slides[|st.slides|] != [] && r.slides[|st.slides|][0] == st.lines[0]
      && r.lines != [] && r.lines[0] == HeadLine(Title(sec)) && !r.inCodeBlock
  {
    SectionStep(engine, st, sec);
    var c := Commit(st, false);
    assert c.lines[..|st.lines|] == st.lines;
  }

  ghost predicate AllSections(secs: seq<seq<Event>>) {
    secs != [] ==> AllSections(secs[..|secs| - 1]) && IsSection(secs[|secs| - 1])
  }

  lemma {:induction false} AllSectionsIntro(secs: seq<seq<Event>>)
    requires forall i :: 0 <= i < |secs| ==> IsSection(secs[i])
    ensures AllSections(secs)
    decreases |secs|
  {
    if secs != [] {
      AllSectionsIntro(secs[..|secs| - 1]);
    }
  }

  ghost predicate HeadsMatch(slides: seq<Slide>, secs: seq<seq<Event>>) {
    |slides| <= |secs| && forall i :: 0 <= i < |slides| ==> slides[i] != [] && slides[i][0] == HeadLine(Title(secs[i]))
  }

  lemma HeadsExtend(slides: seq<Slide>, slides': seq<Slide>, prev: seq<seq<Event>>, secs: seq<seq<Event>>)
    requires |prev| >= 1 && |secs| == |prev| + 1 && prev == secs[..|prev|]
    requires HeadsMatch(slides, prev) && |slides| == |prev| - 1
    requires |slides'| == |slides| + 1 && slides'[..|slides|] == slides
    requires slides'[|slides|] != [] && slides'[|slides|][0] == HeadLine(Title(prev[|prev| - 1]))
    ensures HeadsMatch(slides', secs)
  {
    forall i | 0 <= i < |slides'|
      ensures slides'[i] != [] && slides'[i][0] == HeadLine(Title(secs[i]))
    {
      assert prev[i] == secs[i];
      if i < |slides| {
        assert slides'[i] == slides[i];
      }
    }
  }

  lemma {:induction false} SectionsFold(engine: SyntaxEngine, secs: seq<seq<Event>>)
    requires |secs| >= 1 && AllSections(secs)
    ensures var st := Fold(engine, Initial, Flatten(secs));
      && |st.slides| == |secs| - 1 && st.lines != [] && !st.inCodeBlock
      && st.lines[0] == HeadLine(Title(secs[|secs| - 1]))
      && HeadsMatch(st.slides, secs)
    decreases |secs|
  {
    var n := |secs|;
    var prev := secs[..n - 1];
    FoldAppend(engine, Initial, Flatten(prev), secs[n - 1]);
    if n == 1 {
      SectionStep(engine, Initial, secs[0]);
    } else {
      SectionsFold(engine, prev);
      var st := Fold(engine, Initial, Flatten(prev));
      AppendSection(engine, st, secs[n - 1]);
      var r := Fold(engine, st, secs[n - 1]);
      HeadsExtend(st.slides, r.slides, prev, secs);
    }
  }

  lemma HeadsClose(slides: seq<Slide>, last: Slide, secs: seq<seq<Event>>)
    requires |secs| >= 1 && HeadsMatch(slides, secs) && |slides| == |secs| - 1
    requires last != [] && last[0] == HeadLine(Title(secs[|secs| - 1]))
    ensures HeadsMatch(slides + [last], secs)
  {
  }

  /**
   * N sections, with nothing before the first heading, make exactly N
   * slides, and slide i begins with the centred line of heading i.
   */
  lemma SlidePerSection(engine: SyntaxEngine, secs: seq<seq<Event>>)
    requires |secs| >= 1 && forall i :: 0 <= i < |secs| ==> IsSection(secs[i])
    ensures var deck := Parse(engine, Flatten(secs));
      && |deck| == |secs|
      && forall i :: 0 <= i < |secs| ==> deck[i] != [] && deck[i][0] == HeadLine(Title(secs[i]))
  {
    AllSectionsIntro(secs);
    SectionsFold(engine, secs);
    var st := Fold(engine, Initial, Flatten(secs));
    var c := Commit(st, false);
    assert c.lines[..|st.lines|] == st.lines;
    HeadsClose(st.slides, c.lines, secs);
    assert Produced(engine, Flatten(secs)) == st.slides + [c.lines];
  }

  /** The current slide has something to show: a committed line or a pending span. */
  ghost predicate HasContent(st: FoldState) {
    st.lines != [] || st.spans != []
  }

  lemma StartKeepsContent(st: FoldState, tag: Tag)
    requires tag != Heading(H1) && HasContent(st)
    ensures HasContent(OnStart(st, tag))
  {
    match tag
    case Heading(level) =>
    case CodeBlock(kind) =>
    case _ =>
  }

  lemma EndKeepsContent(engine: SyntaxEngine, st: FoldState, tagEnd: TagEnd)
    requires HasContent(st)
    ensures HasContent(OnEnd(engine, st, tagEnd))
  {
    match tagEnd
    case HeadingEnd(_) =>
    case CodeBlockEnd =>
    case _ =>
  }

  /** Only the start of a level-1 heading can leave the current slide with nothing to show. */
  lemma {:induction false} FoldKeepsContent(engine: SyntaxEngine, st: FoldState, events: seq<Event>)
    requires HasContent(st)
    requires forall i :: 0 <= i < |events| ==> events[i] != Start(Heading(H1))
    ensures HasContent(Fold(engine, st, events))
    decreases |events|
  {
    if events != [] {
      var prev := events[..|events| - 1];
      FoldKeepsContent(engine, st, prev);
      var mid := Fold(engine, st, prev);
      match events[|events| - 1]
      case Start(tag) => StartKeepsContent(mid, tag);
      case End(tagEnd) => EndKeepsContent(engine, mid, tagEnd);
      case _ =>
    }
  }

  /** The event at `j` shows something: inline code, or text outside a code block. */
  ghost predicate ShowsAt(sec: seq<Event>, j: nat)
    requires j < |sec|
  {
    sec[j].Code? || (sec[j].Text? && !LeavesCodeOpen(sec[..j]))
  }

  /**
   * A section in general: a level-1 heading start, then events with no
   * level-1 heading start, among which some text or inline code is shown,
   * not ending inside a code block.
   */
  ghost predicate IsShowingSection(sec: seq<Event>) {
    && |sec| >= 2
    && sec[0] == Start(Heading(H1))
    && (forall i :: 1 <= i < |sec| ==> sec[i] != Start(Heading(H1)))
    && (exists j :: 1 <= j < |sec| && ShowsAt(sec, j))
    && !LeavesCodeOpen(sec)
  }

  /** A level-1 heading start followed by events with no such start finishes exactly the slide the start finishes. */
  lemma H1RunSlides(engine: SyntaxEngine, st: FoldState, sec: seq<Event>)
    requires |sec| >= 1 && sec[0] == Start(Heading(H1))
    requires forall i :: 1 <= i < |sec| ==> sec[i] != Start(Heading(H1))
    ensures Fold(engine, st, sec).slides == FinishSlide(Commit(st, false)).slides
  {
    assert sec == [sec[0]] + sec[1..];
    FoldAppend(engine, st, [sec[0]], sec[1..]);
    FoldSnoc(engine, st, [], sec[0]);
    assert [] + [sec[0]] == [sec[0]];
    FoldKeepsSlides(engine, OnHeadingStart(st, H1), sec[1..]);
  }

  lemma ShownEvent(engine: SyntaxEngine, st: FoldState, e: Event)
    requires e.Code? || (e.Text? && !st.inCodeBlock)
    ensures HasContent(Step(engine, st, e))
  {
  }

  lemma ShownStays(engine: SyntaxEngine, st: FoldState, sec: seq<Event>, j: nat)
    requires j < |sec| && ShowsAt(sec, j) && !st.inCodeBlock
    requires forall i :: j < i < |sec| ==> sec[i] != Start(Heading(H1))
    ensures HasContent(Fold(engine, st, sec))
  {
    assert sec == sec[..j + 1] + sec[j + 1..];
    assert sec[..j + 1] == sec[..j] + [sec[j]];
    FoldAppend(engine, st, sec[..j + 1], sec[j + 1..]);
    FoldSnoc(engine, st, sec[..j], sec[j]);
    FoldCodeFlag(engine, st, sec[..j]);
    ShownEvent(engine, Fold(engine, st, sec[..j]), sec[j]);
    FoldKeepsContent(engine, Fold(engine, st, sec[..j + 1]), sec[j + 1..]);
  }

  lemma ShowingSectionStep(engine: SyntaxEngine, st: FoldState, sec: seq<Event>)
    requires IsShowingSection(sec) && !st.inCodeBlock
    ensures var r := Fold(engine, st, sec);
      && r.slides == FinishSlide(Commit(st, false)).slides
      && HasContent(r) && !r.inCodeBlock
  {
    var j :| 1 <= j < |sec| && ShowsAt(sec, j);
    H1RunSlides(engine, st, sec);
    ShownStays(engine, st, sec, j);
    FoldCodeFlag(engine, st, sec);
  }

  ghost predicate AllShowing(secs: seq<seq<Event>>) {
    secs != [] ==> AllShowing(secs[..|secs| - 1]) && IsShowingSection(secs[|secs| - 1])
  }

  lemma {:induction false} AllShowingIntro(secs: seq<seq<Event>>)
    requires forall i :: 0 <= i < |secs| ==> IsShowingSection(secs[i])
    ensures AllShowing(secs)
    decreases |secs|
  {
    if secs != [] {
      AllShowingIntro(secs[..|secs| - 1]);
    }
  }

  lemma {:induction false} ShowingSectionsFold(engine: SyntaxEngine, secs: seq<seq<Event>>)
    requires |secs| >= 1 && AllShowing(secs)
    ensures var st := Fold(engine, Initial, Flatten(secs));
      |st.slides| == |secs| - 1 && HasContent(st) && !st.inCodeBlock
    decreases |secs|
  {
    var n := |secs|;
    var prev := secs[..n - 1];
    FoldAppend(engine, Initial, Flatten(prev), secs[n - 1]);
    if n == 1 {
      ShowingSectionStep(engine, Initial, secs[0]);
    } else {
      ShowingSectionsFold(engine, prev);
      ShowingSectionStep(engine, Fold(engine, Initial, Flatten(prev)), secs[n - 1]);
    }
  }

  /**
   * N level-1 sections, with nothing before the first heading, make exactly
   * N slides, whatever the headings hold, as long as each section shows some
   * text or inline code somewhere.
   */
  lemma SlideCountPerSection(engine: SyntaxEngine, secs: seq<seq<Event>>)
    requires |secs| >= 1 && forall i :: 0 <= i < |secs| ==> IsShowingSection(secs[i])
    ensures |Parse(engine, Flatten(secs))| == |secs|
  {
    AllShowingIntro(secs);
    ShowingSectionsFold(engine, secs);
  }

  /**
   * A level-1 heading with nothing in it starts no slide of its own: an empty
   * heading followed by a heading "B" is one slide, not two.
   */
  lemma EmptyHeadingMerges(engine: SyntaxEngine)
    ensures var events := [Start(Heading(H1)), End(HeadingEnd(H1)), Start(Heading(H1)), Text("B"), End(HeadingEnd(H1))];
      |Parse(engine, events)| == 1
  {
    var first := [Start(Heading(H1)), End(HeadingEnd(H1))];
    var second := [Start(Heading(H1)), Text("B"), End(HeadingEnd(H1))];
    assert first + second == [Start(Heading(H1)), End(HeadingEnd(H1)), Start(Heading(H1)), Text("B"), End(HeadingEnd(H1))];
    FoldSnoc(engine, Initial, [], first[0]);
    assert [] + [first[0]] == [first[0]];
    FoldSnoc(engine, Initial, [first[0]], first[1]);
    assert [first[0]] + [first[1]] == first;
    var s := Fold(engine, Initial, first);
    assert s.slides == [] && s.lines == [] && s.spans == [];
    FoldAppend(engine, Initial, first, second);
    HeadingPrefix(engine, s, "B", H1);
  }

  /**
   * Something shown between two level-1 headings keeps them apart: an empty
   * heading, a paragraph "p" and a heading "B" give two slides.
   */
  lemma ShownTextSeparates(engine: SyntaxEngine)
    ensures var events := [Start(Heading(H1)), End(HeadingEnd(H1)), Start(Paragraph), Text("p"), End(ParagraphEnd),
                           Start(Heading(H1)), Text("B"), End(HeadingEnd(H1))];
      |Parse(engine, events)| == 2
  {
    var first := [Start(Heading(H1)), End(HeadingEnd(H1))];
    var para := [Start(Paragraph), Text("p"), End(ParagraphEnd)];
    var second := [Start(Heading(H1)), Text("B"), End(HeadingEnd(H1))];
    assert first + para + second == [Start(Heading(H1)), End(HeadingEnd(H1)), Start(Paragraph), Text("p"), End(ParagraphEnd),
                                     Start(Heading(H1)), Text("B"), End(HeadingEnd(H1))];
    FoldSnoc(engine, Initial, [], first[0]);
    assert [] + [first[0]] == [first[0]];
    FoldSnoc(engine, Initial, [first[0]], first[1]);
    assert [first[0]] + [first[1]] == first;
    var s := Fold(engine, Initial, first);
    assert s.slides == [] && s.lines == [] && s.spans == [] && !s.inCodeBlock && !s.inTable && !s.inHeading;
    Fold3(engine, s, para[0], para[1], para[2]);
    FoldAppend(engine, Initial, first, para);
    var t := Fold(engine, Initial, first + para);
    assert t.slides == [] && t.lines != [] && t.spans == [] && !t.inCodeBlock;
    FoldAppend(engine, Initial, first + para, second);
    HeadingPrefix(engine, t, "B", H1);
  }

  /**
   * A line break inside a level-1 heading commits the text before it
   * uncentred; only the heading's last line is centred.
   */
  lemma BrokenHeadingLines(engine: SyntaxEngine)
    ensures var r := Fold(engine, Initial, [Start(Heading(H1)), Text("Foo"), SoftBreak, Text("bar"), End(HeadingEnd(H1))]);
      && r.lines == [[Span("Foo", HeadingStyle(H1))], HeadLine("bar")]
      && |r.lines[1]| == 2
  {
    var foo, bar := Span("Foo", HeadingStyle(H1)), Span("bar", HeadingStyle(H1));
    var s1 := Step(engine, Initial, Start(Heading(H1)));
    assert s1 == Initial.(inHeading := true, headingLevel := H1);
    var s2 := Step(engine, s1, Text("Foo"));
    assert s2 == s1.(spans := [foo]);
    var s3 := Step(engine, s2, SoftBreak);
    assert s3 == s1.(lines := [[foo]]);
    var s4 := Step(engine, s3, Text("bar"));
    assert s4 == s3.(spans := [bar]);
    var s5 := Step(engine, s4, End(HeadingEnd(H1)));
    assert s5.lines == [[foo], HeadLine("bar")];
    Fold3(engine, Initial, Start(Heading(H1)), Text("Foo"), SoftBreak);
    FoldSnoc(engine, Initial, [Start(Heading(H1)), Text("Foo"), SoftBreak], Text("bar"));
    FoldSnoc(engine, Initial, [Start(Heading(H1)), Text("Foo"), SoftBreak, Text("bar")], End(HeadingEnd(H1)));
    assert [Start(Heading(H1)), Text("Foo"), SoftBreak] + [Text("bar")] == [Start(Heading(H1)), Text("Foo"), SoftBreak, Text("bar")];
    assert [Start(Heading(H1)), Text("Foo"), SoftBreak, Text("bar")] + [End(HeadingEnd(H1))]
      == [Start(Heading(H1)), Text("Foo"), SoftBreak, Text("bar"), End(HeadingEnd(H1))];
    assert Width([bar]) == 3 by {
      assert [bar][..0] == [];
    }
  }

  // ---------------------------------------------------------------------------
  // Tables.

  /** Inside a table, paragraph boundaries and line breaks leave the state alone; outside, they commit the pending line. */
  lemma TableSuppressesBreaks(engine: SyntaxEngine, st: FoldState, e: Event)
    requires e == Start(Paragraph) || e == End(ParagraphEnd) || e == SoftBreak || e == HardBreak
    ensures Step(engine, st, e) == st <==> st.inTable || st.spans == []
    ensures !st.inTable ==> Step(engine, st, e) == Commit(st, false)
  {
    if !st.inTable && st.spans != [] {
      assert |Step(engine, st, e).lines| == |st.lines| + 1;
    }
  }

  /** A text run in a table cell that is not in a heading, strong or emphasis. */
  ghost predicate PlainCellContext(st: FoldState) {
    st.inTable && !st.inCodeBlock && !st.inHeading && !st.inStrong && !st.inEmphasis
  }

  /** The events of a table row whose cells each hold one text. */
  function RowEvents(cells: seq<string>): seq<Event> {
    if cells == [] then []
    else RowEvents(cells[..|cells| - 1]) + [Start(TableCell), Text(cells[|cells| - 1]), End(TableCellEnd)]
  }

  /** The spans of such a row: cyan cell texts with a grey " | " between neighbours. */
  function RowSpans(cells: seq<string>): (spans: seq<Span>)
    requires cells != []
  {
    if |cells| == 1 then [Span(cells[0], Fg(Cyan))]
    else RowSpans(cells[..|cells| - 1]) + [CellSeparator, Span(cells[|cells| - 1], Fg(Cyan))]
  }

  function JoinCells(cells: seq<string>): string
    requires cells != []
  {
    if |cells| == 1 then cells[0] else JoinCells(cells[..|cells| - 1]) + " | " + cells[|cells| - 1]
  }

  /** The characters of a line, left to right. */
  function LineText(line: Line): string {
    if line == [] then [] else LineText(line[..|line| - 1]) + line[|line| - 1].content
  }

  lemma {:induction false} LineTextAppend(a: Line, b: Line)
    ensures LineText(a + b) == LineText(a) + LineText(b)
    decreases |b|
  {
    if b == [] {
      assert a + b == a;
    } else {
      assert (a + b)[..|a + b| - 1] == a + b[..|b| - 1];
      LineTextAppend(a, b[..|b| - 1]);
    }
  }

  lemma {:induction false} RowText(cells: seq<string>)
    requires cells != []
    ensures LineText(RowSpans(cells)) == JoinCells(cells)
    decreases |cells|
  {
    if |cells| == 1 {
      assert LineText([Span(cells[0], Fg(Cyan))]) == LineText([]) + cells[0];
    } else {
      var prev := cells[..|cells| - 1];
      var last := cells[|cells| - 1];
      RowText(prev);
      LineTextAppend(RowSpans(prev), [CellSeparator, Span(last, Fg(Cyan))]);
      var tail := [CellSeparator, Span(last, Fg(Cyan))];
      assert tail[..1] == [CellSeparator];
      assert [CellSeparator][..0] == [];
      assert LineText([CellSeparator]) == " | ";
      assert LineText(tail) == LineText([CellSeparator]) + last;
    }
  }

  lemma CellFold(engine: SyntaxEngine, st: FoldState, cell: string)
    requires PlainCellContext(st)
    ensures Fold(engine, st, [Start(TableCell), Text(cell), End(TableCellEnd)])
      == st.(spans := st.spans + (if st.spans != [] then [CellSeparator] else []) + [Span(cell, Fg(Cyan))])
  {
    Fold3(engine, st, Start(TableCell), Text(cell), End(TableCellEnd));
    assert st.spans + [] == st.spans;
  }

  lemma {:induction false} RowSpansFold(engine: SyntaxEngine, st: FoldState, cells: seq<string>)
    requires PlainCellContext(st) && st.spans == [] && cells != []
    ensures Fold(engine, st, RowEvents(cells)) == st.(spans := RowSpans(cells))
    decreases |cells|
  {
    var prev := cells[..|cells| - 1];
    var last := cells[|cells| - 1];
    FoldAppend(engine, st, RowEvents(prev), [Start(TableCell), Text(last), End(TableCellEnd)]);
    if |cells| == 1 {
      assert RowEvents(prev) == [];
      CellFold(engine, st, last);
    } else {
      RowSpansFold(engine, st, prev);
      CellFold(engine, st.(spans := RowSpans(prev)), last);
    }
  }

  /**
   * Within a table, a row whose cells each hold one text becomes exactly
   * one line: the cells, cyan, joined by grey " | " separators, so that the
   * line reads as the cells joined with " | ".
   */
  lemma TableRowLine(engine: SyntaxEngine, st: FoldState, cells: seq<string>)
    requires PlainCellContext(st) && st.spans == [] && cells != []
    ensures Fold(engine, st, [Start(TableRow)] + RowEvents(cells) + [End(TableRowEnd)]) == st.(lines := st.lines + [RowSpans(cells)])
    ensures LineText(RowSpans(cells)) == JoinCells(cells)
  {
    FoldSnoc(engine, st, [], Start(TableRow));
    assert [] + [Start(TableRow)] == [Start(TableRow)];
    FoldAppend(engine, st, [Start(TableRow)], RowEvents(cells));
    FoldSnoc(engine, st, [Start(TableRow)] + RowEvents(cells), End(TableRowEnd));
    RowSpansFold(engine, st, cells);
    RowText(cells);
  }

  /**
   * A row whose one cell holds no text adds no line: a separator only goes
   * after pending spans, and committing no spans adds nothing.
   */
  lemma EmptyRowAddsNothing(engine: SyntaxEngine, st: FoldState)
    requires PlainCellContext(st) && st.spans == []
    ensures Fold(engine, st, [Start(TableRow), Start(TableCell), End(TableCellEnd), End(TableRowEnd)]) == st
  {
    Fold3(engine, st, Start(TableRow), Start(TableCell), End(TableCellEnd));
    FoldSnoc(engine, st, [Start(TableRow), Start(TableCell), End(TableCellEnd)], End(TableRowEnd));
    assert [Start(TableRow), Start(TableCell), End(TableCellEnd)] + [End(TableRowEnd)]
      == [Start(TableRow), Start(TableCell), End(TableCellEnd), End(TableRowEnd)];
  }

  // ---------------------------------------------------------------------------
  // Code blocks.

  function TextEvents(texts: seq<string>): seq<Event> {
    if texts == [] then [] else TextEvents(texts[..|texts| - 1]) + [Text(texts[|texts| - 1])]
  }

  function JoinTexts(texts: seq<string>): string {
    if texts == [] then [] else JoinTexts(texts[..|texts| - 1]) + texts[|texts| - 1]
  }

  /** Inside a code block, text is only appended to the code buffer. */
  lemma {:induction false} TextBuffered(engine: SyntaxEngine, st: FoldState, texts: seq<string>)
    requires st.inCodeBlock
    ensures Fold(engine, st, TextEvents(texts)) == st.(codeContent := st.codeContent + JoinTexts(texts))
    decreases |texts|
  {
    if texts == [] {
      assert st.codeContent + [] == st.codeContent;
    } else {
      var prev := texts[..|texts| - 1];
      var last := texts[|texts| - 1];
      TextBuffered(engine, st, prev);
      FoldSnoc(engine, st, TextEvents(prev), Text(last));
      var mid := st.(codeContent := st.codeContent + JoinTexts(prev));
      assert st.codeContent + JoinTexts(texts) == mid.codeContent + last;
      assert Step(engine, mid, Text(last)) == OnText(mid, last);
    }
  }

  /** A code block's start commits the pending line and opens an empty buffer, into which all its text then goes. */
  lemma CodeOpenFold(engine: SyntaxEngine, st: FoldState, kind: CodeBlockKind, texts: seq<string>)
    ensures Fold(engine, st, [Start(CodeBlock(kind))] + TextEvents(texts))
      == OnCodeBlockStart(st, kind).(codeContent := JoinTexts(texts))
  {
    var open := OnCodeBlockStart(st, kind);
    FoldSnoc(engine, st, [], Start(CodeBlock(kind)));
    assert [] + [Start(CodeBlock(kind))] == [Start(CodeBlock(kind))];
    FoldAppend(engine, st, [Start(CodeBlock(kind))], TextEvents(texts));
    TextBuffered(engine, open, texts);
    assert "" + JoinTexts(texts) == JoinTexts(texts);
  }

  /**
   * A code block commits the pending line, buffers all its text, and at its
   * end adds the lines made from the whole buffer; afterwards the block's
   * flag, buffer and tag are cleared and nothing else has changed.
   */
  lemma CodeBlockFold(engine: SyntaxEngine, st: FoldState, kind: CodeBlockKind, texts: seq<string>)
    ensures Fold(engine, st, [Start(CodeBlock(kind))] + TextEvents(texts) + [End(CodeBlockEnd)])
      == st.(lines := CommitLine(st.lines, st.spans, false) + CodeBlockLines(engine, LangOf(kind), JoinTexts(texts)),
             spans := [], inCodeBlock := false, codeLang := None, codeContent := "")
  {
    CodeOpenFold(engine, st, kind, texts);
    FoldSnoc(engine, st, [Start(CodeBlock(kind))] + TextEvents(texts), End(CodeBlockEnd));
  }
}
