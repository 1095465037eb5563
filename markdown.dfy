/**
 * The events of the markdown tokenizer (pulldown-cmark with the table
 * extension enabled) as the slide builder consumes them. The tokenizer
 * itself is not modelled: the builder takes any finite sequence of events.
 */
module Markdown {
  datatype HeadingLevel = H1 | H2 | H3 | H4 | H5 | H6

  /** How a code block was written: indented, or fenced with an info string. */
  datatype CodeBlockKind = Indented | Fenced(info: string)

  /** The element an opening event starts. */
  datatype Tag =
    | Heading(level: HeadingLevel)
    | Paragraph
    | List
    | Item
    | Strong
    | Emphasis
    | CodeBlock(kind: CodeBlockKind)
    | Table
    | TableHead
    | TableRow
    | TableCell
      /** Links, images, block quotes, footnotes and the other elements the builder ignores. */
    | OtherTag

  /** The element a closing event ends. */
  datatype TagEnd =
    | HeadingEnd(endLevel: HeadingLevel)
    | ParagraphEnd
    | ListEnd
    | ItemEnd
    | StrongEnd
    | EmphasisEnd
    | CodeBlockEnd
    | TableEnd
    | TableHeadEnd
    | TableRowEnd
    | TableCellEnd
    | OtherTagEnd

  datatype Event =
    | Start(tag: Tag)
    | End(tagEnd: TagEnd)
    | Text(text: string)
    | Code(code: string)
    | SoftBreak
    | HardBreak
      /** Rules, HTML, footnote references, task-list markers and the other events the builder ignores. */
    | Other
}
