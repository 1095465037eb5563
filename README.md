# presentrs slide engine, modelled in Dafny

presentrs shows a markdown file as a deck of slides in the terminal. This
project models the core of that program: the conversion of the markdown
event stream into slides, and the navigation state of the viewer.

- **Conversion (`parse_markdown_to_slides`).** The function walks the event
  stream of the markdown tokenizer once. It keeps the pending styled spans
  of the current line, the lines of the current slide, the finished slides
  and a handful of flags: in a heading (and its level), in strong, in
  emphasis, in a code block (with its language tag and a text buffer), and
  in a table.
  - A level-1 heading finishes the current slide when that slide has
    something on it: a committed line or pending spans. A heading with
    nothing before it on its slide, such as the document's first heading
    or one right after an empty heading, starts no new slide.
  - The last line of a level-1 heading is centred in 80 columns. A line
    break inside the heading commits the text before it uncentred.
  - Code blocks are buffered. When a block ends, it is highlighted through
    a fixed language table ("rust" to "rs", "python" and "py" to "py"), or
    else printed as green lines.
  - Table cells are joined with a grey " | " placed before each cell that
    follows pending text.
  - A document that produces nothing gets a single placeholder slide.
- **Navigation (`App`).** This is the slide list, the slide on screen and
  the scroll offset within it. Next/previous slide and scroll up/down
  change them, and `slide_info` formats the counter "position/total".

The conversion is modelled twice:

- **The fold.** Module `SlideFold` states it as a fold over a state value.
  `Step` is one event, `Fold` is a sequence of events, and `Parse` is the
  whole conversion.
- **The builder.** Module `SlideBuilder` states it as the program runs it:
  a `Builder` class whose fields are the function's local variables. Its
  methods are the two helper closures and the event handlers, and they
  update those fields in place. The driver method `ParseMarkdownToSlides`
  loops over the events.

Every builder method is proved to do what the corresponding fold function
does, so the driver returns exactly `Parse(engine, events)`.

Module `DeckProperties` proves what the fold means:

- one slide per level-1 section that shows some text or inline code, each
  beginning with the centred heading when that heading is a single text;
- an empty level-1 heading starts no slide of its own;
- a document without a level-1 heading is one slide;
- how a table row becomes a line;
- that code-block text is buffered and emitted as a whole;
- that paragraph and line breaks are suppressed inside tables.

Module `Navigation` proves that every key keeps the view valid, that moves
undo each other, and that the counter text reads back as the two numbers.

Modules and files:

- `options.dfy`: `Option`.
- `markdown.dfy`: the tokenizer's events, tags and closing tags.
- `styled.dfy`: colours, styles, spans, lines and slides.
- `strlines.dfy`: the two line splitters the code-block emitter uses. These
  are syntect's `LinesWithEndings` and Rust's `str::lines`.
- `highlight.dfy`: the language table, and the lines a finished code block
  becomes.
- `slidefold.dfy`: the fold and the builder invariant.
- `deckprops.dfy`: properties of the fold over many events.
- `builder.dfy`: the imperative builder and the conversion driver.
- `app.dfy`: navigation and the slide counter.

The tokenizer and the highlighter are inputs:

- The events are a `seq<Event>`.
- The highlighter is a `SyntaxEngine` value. It says which extensions have
  a grammar. It also says which ranges a piece of code gets, given the
  pieces of the same block highlighted before it, because the real
  highlighter carries parse state from line to line. A highlighting error
  (`unwrap_or_default`) is an empty list of ranges.

## Model

| member | source | states |
|---|---|---|
| Styled.WidthAppend | src/main.rs:218-220 | the text width of a line is additive: the width of two span lists joined is the sum of their widths |
| Styled.Spaces | src/main.rs:229 | the padding text has exactly the requested length and consists only of spaces |
| StrLines.SplitInclusiveConcat | src/main.rs:363 | the pieces `LinesWithEndings` yields, concatenated, give back the whole code buffer |
| StrLines.SplitInclusiveShape | src/main.rs:363 | every piece is non-empty, has no "\n" before its end, and every piece but the last ends in "\n" |
| StrLines.SplitInclusiveCount | src/main.rs:363 | there are as many pieces as "\n" characters, plus one when the buffer ends in an unterminated line |
| StrLines.LinesCount | src/main.rs:406-411 | `str::lines` yields as many lines as there are "\n" characters, plus one for an unterminated last line (none for an empty buffer) |
| StrLines.LinesHaveNoNewline | src/main.rs:406-411 | no line yielded by `str::lines` contains a "\n" |
| StrLines.LinesRoundTrip | src/main.rs:406-411 | for a buffer without "\r", joining the lines, each followed by "\n", gives the buffer back, with a "\n" added after an unterminated last line |
| Highlight.SyntaxExtension | src/main.rs:352-357 | a tag has an extension exactly when it is "rust", "python" or "py"; the extension is "rs" exactly for "rust" and "py" exactly for "python" or "py" |
| Highlight.Grammar | src/main.rs:351-362 | a block is highlighted exactly when it has a tag, the tag is in the language table, and the engine has a grammar for the extension; the extension is then the one the table gives the tag: "rs" for "rust", "py" for "python" or "py" |
| Highlight.RangeSpan | src/main.rs:376-399 | a range becomes a span with the range's exact text, its RGB colour as foreground, no background, and bold and italic exactly as the range's font style says |
| Highlight.RangeSpans | src/main.rs:376-400 | the spans of a piece's ranges, one per range, in order |
| Highlight.HighlightLine | src/main.rs:364-401 | a piece with no ranges becomes the piece itself as one green span; otherwise the line is exactly the spans of its ranges, one per range in order; either way the line ends in a coloured span |
| Highlight.HighlightedLines | src/main.rs:363-403 | the i-th highlighted line is the line of the i-th piece, highlighted after the pieces before it |
| Highlight.FallbackLines | src/main.rs:406-411 | one line per text line, each a single green span holding that text |
| Highlight.CodeBlockLines | src/main.rs:349-432 | every line a code block adds ends in a coloured span |
| Highlight.FallbackBlock | src/main.rs:404-428 | without a grammar, a block adds one line per "\n" plus one for an unterminated last line, and line i is exactly the i-th line of `str::lines` in green |
| Highlight.HighlightedBlock | src/main.rs:363-403 | with a grammar, a block adds one line per piece of `LinesWithEndings`; a piece for which the highlighter gives no ranges is kept verbatim, in green |
| SlideFold.CenterPad | src/main.rs:221-226 | the padding leaves the text centred in 80 columns: the space left of it is at most the space right of it and at most one less; a line of 80 or more characters gets none |
| SlideFold.CommittedLine | src/main.rs:213-233 | a committed line is the pending spans; for a level-1 heading narrower than 79 columns, a single non-empty run of spaces comes first and centres it; the last span is kept |
| SlideFold.CommitLine | src/main.rs:213-235 | committing adds exactly one line when spans are pending and none otherwise, and keeps the earlier lines |
| SlideFold.TextStyle | src/main.rs:265-295 | text is bold exactly in a heading or strong, italic exactly in emphasis outside both, never both; a heading's style wins; cyan exactly in a level-1 heading or in a plain table cell |
| SlideFold.LangOf | src/main.rs:336-346 | a block has a language tag exactly when it is fenced with a non-empty info string, and the tag is that string |
| SlideFold.Parse | src/main.rs:471-478 | the deck has at least one slide and no empty slide; it is the placeholder slide exactly when the events produced nothing, and otherwise the produced slides |
| SlideFold.StepKeepsInv | src/main.rs:244-468 | every event handler keeps the builder invariant: pending spans are coloured, committed lines end in a coloured span, finished slides have lines |
| SlideFold.FoldKeepsInv | src/main.rs:243-469 | the invariant holds after any sequence of events from the initial state |
| SlideFold.ProducedWellFormed | src/main.rs:471-472 | after the final commit and finish, every produced slide has lines and every line ends in a coloured span |
| DeckProperties.FoldAppend | src/main.rs:243-469 | events are handled one at a time in order: handling a+b is handling a, then b from the resulting state |
| DeckProperties.StepKeepsSlides | src/main.rs:244-468 | every event other than the start of a level-1 heading leaves the finished slides alone and only appends lines to the current slide |
| DeckProperties.FoldKeepsSlides | src/main.rs:245-255 | a run of events with no level-1 heading start finishes no slide, and the earlier lines remain a prefix |
| DeckProperties.NoH1SingleSlide | src/main.rs:245-255 | a document without a level-1 heading is exactly one slide |
| DeckProperties.HeadingStartSegments | src/main.rs:245-260 | a level-1 heading start adds a slide exactly when a line was pending or committed; the added slide is the old lines with the pending line committed, and the new slide starts empty; a heading of another level adds no slide and only commits the pending line |
| DeckProperties.StepCodeFlag | src/main.rs:334-350 | only a code-block start sets, and only a code-block end clears, the in-code-block flag |
| DeckProperties.FoldCodeFlag | src/main.rs:334-350 | outside a code block, the flag after a run of events says exactly whether it ends inside an unclosed code block |
| DeckProperties.SectionStep | src/main.rs:245-264 | a section finishes the previous slide and starts a slide whose first line is its centred heading |
| DeckProperties.SlidePerSection | src/main.rs:245-264 | N level-1 sections whose headings are one text each make exactly N slides, and slide i begins with the centred heading of section i |
| DeckProperties.FoldKeepsContent | src/main.rs:244-468 | once the current slide has a line or a pending span, no event other than a level-1 heading start leaves it with neither |
| DeckProperties.SlideCountPerSection | src/main.rs:245-255 | N level-1 sections make exactly N slides, whatever their headings hold, when each section shows some text outside a code block or some inline code |
| DeckProperties.EmptyHeadingMerges | src/main.rs:245-264 | an empty level-1 heading followed by a heading "B" gives one slide, not two |
| DeckProperties.ShownTextSeparates | src/main.rs:245-262 | an empty level-1 heading, a paragraph "p" and a heading "B" give two slides, because the paragraph leaves a line on the first slide |
| DeckProperties.BrokenHeadingLines | src/main.rs:261-264 | a soft break (lines 462-466) inside a level-1 heading commits "Foo" uncentred; only the last line "bar", committed at the heading's end, gets the centring padding |
| DeckProperties.TableSuppressesBreaks | src/main.rs:297-306 | a paragraph boundary or line break changes nothing exactly when inside a table or with no span pending; outside a table it commits the line |
| DeckProperties.TableRowLine | src/main.rs:447-461 | a table row (row start, cells, row end) of single-text cells becomes exactly one line of cyan cells separated by grey " \| ", whose text is the cells joined with " \| " |
| DeckProperties.EmptyRowAddsNothing | src/main.rs:447-461 | a row whose one cell holds no text leaves the state unchanged: no separator, no line |
| DeckProperties.TextBuffered | src/main.rs:266-267 | inside a code block, text is only appended to the buffer |
| DeckProperties.CodeBlockFold | src/main.rs:334-432 | a whole code block commits the pending line, then adds the lines of its complete buffered text, and clears its flag, tag and buffer |
| SlideBuilder.Builder.constructor | src/main.rs:199-209 | a new builder has no slides, lines or spans, all flags off, no tag and an empty buffer |
| SlideBuilder.Builder.PushCurrentLine | src/main.rs:213-235 | the `push_current_line` closure does the fold's line commit |
| SlideBuilder.Builder.FinishSlide | src/main.rs:237-241 | the `finish_slide` closure does the fold's slide finish |
| SlideBuilder.Builder.StartHeading | src/main.rs:245-260 | the two heading-start arms do the fold's heading start |
| SlideBuilder.Builder.EndHeading | src/main.rs:261-264 | the heading-end arm commits the line, centred for a level-1 heading |
| SlideBuilder.Builder.AddText | src/main.rs:265-296 | the text arm buffers code or pushes a span styled as `TextStyle` says |
| SlideBuilder.Builder.Break | src/main.rs:297-306 | a paragraph boundary (here) or a soft or hard line break (lines 462-466) commits the line outside tables |
| SlideBuilder.Builder.StartCodeBlock | src/main.rs:334-348 | the code-block start arm commits the line, records the tag and clears the buffer |
| SlideBuilder.Builder.PushFallbackLines | src/main.rs:406-411 | the fallback loop appends exactly the green lines of `str::lines` of the buffer |
| SlideBuilder.Builder.PushHighlightedLines | src/main.rs:363-403 | the highlighting loop appends exactly the highlighted lines of the buffer's pieces |
| SlideBuilder.Builder.EndCodeBlock | src/main.rs:349-432 | the code-block end arm adds the block's lines as `CodeBlockLines` says and clears flag, tag and buffer |
| SlideBuilder.Builder.HandleStart | src/main.rs:244-468 | every opening-tag arm does what the fold's `OnStart` says |
| SlideBuilder.Builder.HandleEnd | src/main.rs:244-468 | every closing-tag arm does what the fold's `OnEnd` says |
| SlideBuilder.Builder.Handle | src/main.rs:244-468 | the event dispatch does what the fold's `Step` says |
| SlideBuilder.HighlightPieces | src/main.rs:363-403 | the loop over the pieces yields exactly `HighlightedLines` of them |
| SlideBuilder.HighlightPiece | src/main.rs:364-401 | the spans built for one piece are exactly `HighlightLine` of it |
| SlideBuilder.TextWidth | src/main.rs:218-220 | the summed character counts of the spans equal `Width` |
| SlideBuilder.ParseMarkdownToSlides | src/main.rs:191-479 | the conversion returns exactly `Parse` of the events, so at least one slide and no empty slide |
| Navigation.StepsKeepValid | src/main.rs:113-147 | next, previous, scroll down and scroll up keep the slide index in range and the offset at most the slide's last line |
| Navigation.SlideMovesUndo | src/main.rs:113-128 | next then previous (and previous then next) returns to the same slide at its top; next does nothing exactly on the last slide, previous exactly on the first |
| Navigation.ScrollsUndo | src/main.rs:133-147 | scroll down then up (and up then down) is undone whenever the first scroll moved; down does nothing exactly at the last line, up exactly at the top |
| Navigation.ForwardReaches | src/main.rs:113-118 | pressing next k times from the first slide shows slide min(k, last) from its top |
| Navigation.DownReaches | src/main.rs:133-138 | scrolling down k times from the top stops at min(k, lines - 1) |
| Navigation.Decimal | src/main.rs:163-165 | a number prints as a non-empty string of decimal digits without a leading zero |
| Navigation.DecimalRoundTrip | src/main.rs:163-165 | the printed digits read back as the number |
| Navigation.SlashIndex | src/main.rs:163-165 | the first "/" of a string is found, with none before it |
| Navigation.InfoRoundTrip | src/main.rs:163-165 | "position/total" reads back as the position and the total |
| Navigation.App.constructor | src/main.rs:97-107 | a new app shows the first slide unscrolled, over exactly the slides of the document, and is valid |
| Navigation.App.NextSlide | src/main.rs:113-118 | goes to the next slide at its top unless on the last slide, keeping the app valid |
| Navigation.App.PrevSlide | src/main.rs:123-128 | goes to the previous slide at its top unless on the first slide, keeping the app valid |
| Navigation.App.ScrollDown | src/main.rs:133-138 | scrolls one line down unless at the slide's last line (its line count minus one, saturating), keeping the app valid |
| Navigation.App.ScrollUp | src/main.rs:143-147 | scrolls one line up unless at the top, keeping the app valid |
| Navigation.App.CurrentSlideContent | src/main.rs:154-156 | the slide on screen, which always has a line and more lines than the scroll offset |
| Navigation.App.SlideInfo | src/main.rs:163-165 | the counter text is the one-based position and the number of slides, both in decimal without leading zeros, joined by "/"; it reads back as those two numbers |

Some facts about the converter that the model keeps as they are:

- **Tables.** A row with some cell text is one line. A grey " | " goes
  before each cell that follows pending text, so an empty first cell gets
  no separator, and a row with no cell text adds no line. No borders are
  drawn and no column widths are computed.
- **Spacing lines.** No empty spacing lines are added after paragraphs,
  lists, headings, code blocks or tables.
- **Language table.** Only "rust", "python" and "py" are mapped to a
  grammar extension. Any other tag prints the block as green lines.
- **Centring.** Level-1 headings are centred in a fixed 80 columns, counting
  characters (`chars().count()`). A Dafny `char` is likewise one Unicode
  scalar value. Display columns are not counted. Headings of other levels
  are not centred. A line break inside a level-1 heading commits the text
  before it uncentred, so only the heading's last line is centred.
  `DeckProperties.BrokenHeadingLines` shows this for a heading "Foo", a
  soft break and "bar": "Foo" stays as it is and "bar" gets the padding.
- **Closing heading tag.** The level carried by a closing heading tag is
  ignored. The level stored at the opening tag decides the centring.
- **Empty headings.** An empty level-1 heading leaves its slide with
  nothing on it. When nothing is shown before the next level-1 heading,
  that heading joins the same slide.
  `DeckProperties.EmptyHeadingMerges` shows this for an empty heading
  followed by a heading "B": the result is one slide. With a paragraph
  "p" in between, `DeckProperties.ShownTextSeparates` gives two slides.

## Left out

- The markdown tokenizer (pulldown-cmark with tables enabled) is not modelled. Its output is the input event sequence.
- Tags and events the converter ignores are merged. These are block quotes, links, images, footnotes, HTML, rules and task markers. They become `OtherTag`, `OtherTagEnd` and `Other`, because every one of them falls into the converter's do-nothing arm.
- A list's start number and a heading's id and classes are dropped. The converter never reads them.
- The syntect highlighter and the "base16-ocean.dark" theme are not modelled. They are an input function, because their grammars and colours are external data.
- The terminal UI is not modelled: `ui`, `run_app`, key handling, raw mode and the scrolled rendering. It is interactive I/O.
- `main`, the command-line arguments and reading the markdown file are not modelled. They are I/O glue.
- `App::new` takes the events and the highlighter instead of the file text. The theme and syntax sets it stores are used only by the converter.
- DeckProperties.SlidePerSection: the exact first line of each slide is proved only when every heading is a single text. For headings with inline markup (emphasis, strong, inline code, several text runs), only the slide count is proved, by `DeckProperties.SlideCountPerSection`.
- Navigation.App.NextSlide: `slides.len() - 1` would underflow on an empty deck. The model instead requires the app invariant, which includes a non-empty deck. `SlideFold.Parse` proves that the converter never returns an empty deck.
- Navigation.App.SlideInfo: `current_slide + 1` is unbounded here rather than a `usize`. A slide count near the `usize` limit cannot arise from a file.
- SlideBuilder.Builder.PushHighlightedLines: it collects the block's lines in a local sequence and appends them once, where the source pushes each line in turn. The lines and their order are the same.
