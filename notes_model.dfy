/** The values the scratch-notes parser produces (search.kt:306-334): styled
    text, the block kinds of the preview, the layout options and the parse
    result, plus the errors a parse can end in. */
module NotesModel {
  import opened Wrappers
  import Json
  import Colors

  /** A Compose `SpanStyle` as `makeSpan` builds it: an unset color or size
      is None; bold and italic are the only weights and styles it sets. */
  datatype SpanStyle = SpanStyle(color: Option<Colors.Argb>, fontSize: Option<real>, bold: bool, italic: bool)

  /** A stretch of text and the span style applied to it, if any. */
  datatype Run = Run(text: string, style: Option<SpanStyle>)

  /** An `AnnotatedString`, as the runs its builder appended, in order. */
  type AnnotatedString = seq<Run>

  /** The characters of an annotated string, without styles. */
  function PlainText(a: AnnotatedString): string
    decreases |a|
  {
    if |a| == 0 then "" else PlainText(a[..|a| - 1]) + a[|a| - 1].text
  }

  /** A row inside a rows stack: one line of text or a two-column line. */
  datatype StackRow =
    | TextRow(content: AnnotatedString)
    | ColumnsRow(left: AnnotatedString, right: AnnotatedString)

  /** `lineHeightSp: Float?` of a text stack: null, a number of sp, or the NaN
      that `optDouble("lineHeight")` gives for a non-numeric value. */
  datatype LineHeight = Unspecified | Sp(sp: real) | NotANumber

  /** `RichBlock` with its subclass `StackRowsBlock`. */
  datatype RichBlock =
    | TextBlock(content: AnnotatedString)
    | ColumnsBlock(left: AnnotatedString, right: AnnotatedString)
    | NewlineBlock(amount: real)
    | StackBlock(content: AnnotatedString, lineHeightSp: LineHeight)
    | StackRowsBlock(rows: seq<StackRow>, rowMult: real)

  datatype NotesLayout = NotesLayout(marginH: int, paddingH: int, paddingV: int)

  /** `NotesLayout()` with its default arguments. */
  const DefaultLayout := NotesLayout(0, 12, 6)

  datatype ParsedNotes = ParsedNotes(layout: NotesLayout, blocks: seq<RichBlock>)

  /** Why a parse was abandoned. */
  datatype ParseError =
    | RootNotArray                               // `JSONArray(json)` on a non-array
    | ItemNotObject                              // "Array items must be objects"
    | JsonAccess(access: Json.JsonError)         // a typed getter threw
    | ColumnsArity(nested: bool, length: nat)    // "`columns` [inside stack] must have exactly 2 items"
    | InvalidColor(color: Colors.ColorError)     // from parseColor
}
