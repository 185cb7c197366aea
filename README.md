# Scratch-notes markup: a Dafny model

The search screen of the rotary die-cutter app shows a "scratch notes" panel.
Its contents are a JSON array written in a small markup language, and
`parseRichNotes` in `search.kt` turns that array into:

- a `NotesLayout` (horizontal margin, horizontal and vertical padding);
- an ordered list of blocks: text spans, two-column lines, fractional
  newlines, text-only stacks and row stacks.

Each array element is classified by its marker key, tried in this order:
`layout`, `newline`, `columns`, `stack`, and otherwise a plain span.

- Layout nodes are merged field by field into the running layout.
- A span object carries `text`, `size`, `bold`, `italic` and `color`.
- A color is blank (none), one of nine names in any letter case, or 6 or 8
  hex digits after an optional `#`.
- A stack is a **rows stack** when some item has `columns`. Its rows are
  spaced by `rowMult`, else `lineMult`, else 1.
- Otherwise a stack is one **text stack**. Its items' spans are joined by
  unstyled line breaks, and its line height comes from `lineHeight`, else
  `lineMult` × the largest item size (at least 16), else is unset.

The preview draws a newline block as a spacer of 4 dp per unit. It packs the
rows of a rows stack with `TightStackRows`:

- each row moves the next one down by `roundToInt(height × rowMult)`;
- the reported height is the last row's start plus its full height.

Tapping the preview four times, each tap within 500 ms of the previous one,
opens the notes editor.

The model is organised as follows:

- `wrappers.dfy`: `Option`, `Result` and an in-order traversal with
  early exit.
- `json.dfy`: an already-decoded JSON value and the accessors of Android's
  built-in org.json that the parser calls: `has`, `optInt`, `optDouble`,
  `optBoolean`, `optString`, `getJSONObject` and `getJSONArray`.
- `colors.dfy`: `parseColor`, with its name table and hex decoding.
- `notes_model.dfy`: the result types: `RichBlock`, `StackRow`,
  `StackRowsBlock`, `NotesLayout`, `ParsedNotes` and annotated strings as
  runs of styled text. It also holds the parse errors.
- `notes_parser.dfy`: the meaning of each parse step as functions, plus the
  source's loops as methods proved equal to those functions:
  - `ParseRichNotes`, the pass over the array;
  - `ScanForColumns`, the scan with its early `break`;
  - `CollectRows`;
  - `BuildTextStack`, the builder loop with `maxSizeSp`.
- `notes_properties.dfy`: what the parse result satisfies, stated against
  independent definitions:
  - block order (`CountBlocks`);
  - the last writer of each layout field (`LastLayoutValue`);
  - the first failing node;
  - the shape of stacks;
  - the joined text (`JoinLines`).
- `preview.dfy`: the newline spacer and the two loops of `TightStackRows`
  (`PackRows`), proved against prefix sums of rounded advances.
- `quad_tap.dfy`: `onPreviewTapped`, as a class over the saveable state with
  the clock as a parameter, plus lemmas about bursts of taps.
- `default_notes.dfy`: the document seeded into the database on first launch,
  proved to parse to its exact layout and blocks.

Some consequences of the code are worth spelling out:

- **Several layout nodes.** Any number of layout nodes may appear; they are
  folded into the layout field by field, in order (`LayoutIsLastWriter`).
- **Rounding.** `height × rowMult` is rounded with Kotlin `roundToInt`,
  which is `floor(x + 0.5)`: ties go up, also below zero (`RoundHalfUp`,
  `RoundingExamples`).
- **Fallback on error.** When a parse fails, the screen shows an empty
  document with the default layout together with the error text
  (search.kt:62-69).
- **Lengths in code units.** The 6-or-8 rule of `parseColor` counts UTF-16
  code units, as Kotlin's `String.length` does, so a character outside the
  Basic Multilingual Plane counts twice (`SupplementaryCharacterExamples`).
- **Non-numeric `lineHeight`.** When `lineHeight` is present but not a number,
  the text stack's line height is NaN (`LineHeight.NotANumber`), not unset.
- **Error order in `columns`.** A malformed `columns` array is checked in a
  different order at the top level and inside a stack, so the same malformed
  array can report a different error in the two places (`ColumnsOf`).
  - At the top level, both entries are fetched before either span is built.
  - Inside a stack, each entry is fetched and turned into a span in turn.
- **Non-object items in a stack.** The scan for `columns` stops at the first
  item that has `columns`. A non-object item before that point fails the
  stack during the scan. A non-object item after it fails the stack when its
  row is built (`ScanMeaning`, `NestedColumnsArity`).
- **Clipping in row stacks.** With a small `rowMult`, an early tall row can
  reach below the reported height. Only the last row is always counted in
  full (`OverhangExample`).

## Model

| member | source | states |
|---|---|---|
| Json.TruncateToInt | app/src/main/java/com/tb/rotarydiecutter/ui/screens/search.kt:479-481 | the integer lies within 1 of the number, on the side of zero |
| Colors.ParseColor | app/src/main/java/com/tb/rotarydiecutter/ui/screens/search.kt:429-451 | null or blank gives no color; a name matched case-insensitively gives that name's color; any other color comes from 6/8 hex digits; it fails exactly when the value is not blank, not a name, and not 6 or 8 valid hex digits (counted in UTF-16 code units) after one optional '#' |
| Colors.HexForms | app/src/main/java/com/tb/rotarydiecutter/ui/screens/search.kt:441-447 | with no name match, 6 digits give 0xFF000000 + rgb, 8 digits give the value itself, 6 or 8 code units that are not all hex digits give a number-format error, and any other length is "Bad color" |
| Colors.CaseInsensitive | app/src/main/java/com/tb/rotarydiecutter/ui/screens/search.kt:431-447 | two strings that lower-case alike are both accepted with the same color, or both rejected |
| Colors.ArgbRoundTrip | app/src/main/java/com/tb/rotarydiecutter/ui/screens/search.kt:445 | every ARGB value written as 8 hex digits, with or without '#', parses back to itself |
| Colors.RgbRoundTrip | app/src/main/java/com/tb/rotarydiecutter/ui/screens/search.kt:444 | every RGB value written as 6 hex digits parses to the opaque color |
| Colors.NotANameHex | app/src/main/java/com/tb/rotarydiecutter/ui/screens/search.kt:431-441 | a 6–9 character string starting with a hex digit or '#' matches no color name |
| Colors.NamedColorExamples | app/src/main/java/com/tb/rotarydiecutter/ui/screens/search.kt:431-440 | "red" and "RED" are opaque red; "Grey" and "gray" are the same gray |
| Colors.HexColorExamples | app/src/main/java/com/tb/rotarydiecutter/ui/screens/search.kt:441-448 | "#FF0000" and "ff0000" are opaque red; "#80FF0000" is red at alpha 0x80 |
| Colors.RejectedColorExamples | app/src/main/java/com/tb/rotarydiecutter/ui/screens/search.kt:429-451 | "notacolor" and "#12" are bad colors, "#GG0000" a bad hex number, and "" and " \t" give no color |
| Colors.HexValueOfHexDigits | app/src/main/java/com/tb/rotarydiecutter/ui/screens/search.kt:444-445 | hex decoding inverts hex encoding for every value below 16^n |
| Colors.SupplementaryCharacterExamples | app/src/main/java/com/tb/rotarydiecutter/ui/screens/search.kt:442-446 | three emoji are six code units and so a bad hex number; "#12345" plus an emoji is seven code units and so a bad color |
| NotesParser.MakeSpan | app/src/main/java/com/tb/rotarydiecutter/ui/screens/search.kt:453-466 | a span fails exactly when its color fails, with that error; otherwise it is one run holding `text` (default ""), coloured by `parseColor`, with a font size exactly when `size` is a number, and bold/italic exactly when those keys hold `true` |
| NotesParser.ColumnsOf | app/src/main/java/com/tb/rotarydiecutter/ui/screens/search.kt:494-504 | a length other than 2 is an arity error; success exactly with two objects whose spans succeed, giving those spans |
| NotesParser.NewlineAmount | app/src/main/java/com/tb/rotarydiecutter/ui/screens/search.kt:487-491 | never negative; a missing or non-numeric amount is 1; a number is clamped at 0 |
| NotesParser.ScanForColumns | app/src/main/java/com/tb/rotarydiecutter/ui/screens/search.kt:511-515 | the loop with `break` equals `ScanHasColumns`, whose meaning `ScanMeaning` states |
| NotesParser.CollectRows | app/src/main/java/com/tb/rotarydiecutter/ui/screens/search.kt:517-532 | the rows loop computes the in-order traversal of the items, stopping at the first failing row |
| NotesParser.BuildTextStack | app/src/main/java/com/tb/rotarydiecutter/ui/screens/search.kt:540-552 | the builder loop fails exactly when some span fails, with the first error; otherwise it gives the joined spans and the largest size |
| NotesParser.ParseStack | app/src/main/java/com/tb/rotarydiecutter/ui/screens/search.kt:507-563 | the `stack` branch equals `StackSpec`, whose rows and text cases `RowsStackShape` and `TextStackShape` state |
| NotesParser.ParseRichNotes | app/src/main/java/com/tb/rotarydiecutter/ui/screens/search.kt:424-570 | the pass with its running layout and block list equals `ParseNotes`, including the early exits; the properties of `ParseNotes` are the `NotesProperties` rows |
| NotesParser.ParseNodesPrefixFailure | app/src/main/java/com/tb/rotarydiecutter/ui/screens/search.kt:471-474 | once a prefix fails, no later node changes the outcome |
| NotesProperties.LayoutNodesEmitNothing | app/src/main/java/com/tb/rotarydiecutter/ui/screens/search.kt:476-484 | a node changes the layout exactly when it has `layout`; every other node adds a block |
| NotesProperties.BlockCount | app/src/main/java/com/tb/rotarydiecutter/ui/screens/search.kt:471-569 | one block per non-layout node |
| NotesProperties.BlockOfNode | app/src/main/java/com/tb/rotarydiecutter/ui/screens/search.kt:471-569 | the block of non-layout node i is at the index counting the non-layout nodes before it |
| NotesProperties.BlocksInSourceOrder | app/src/main/java/com/tb/rotarydiecutter/ui/screens/search.kt:471-569 | a block count equal to the non-layout nodes, every node's step succeeding, and each block at its source position |
| NotesProperties.ParseFailsAsNodes | app/src/main/java/com/tb/rotarydiecutter/ui/screens/search.kt:471-567 | the parse fails exactly when the in-order check of the nodes fails, with the same error |
| NotesProperties.FirstBadNodeDecides | app/src/main/java/com/tb/rotarydiecutter/ui/screens/search.kt:471-567 | it fails exactly when some node fails, and then with the error of the first failing node |
| NotesProperties.LayoutIsLastWriter | app/src/main/java/com/tb/rotarydiecutter/ui/screens/search.kt:476-484 | each layout field is the value of the last layout node that sets it to a number, truncated, or its default 0/12/6 |
| NotesProperties.EmptyDocument | app/src/main/java/com/tb/rotarydiecutter/ui/screens/search.kt:424-427 | `[]` gives the default layout and no blocks |
| NotesProperties.LayoutMergeExample | app/src/main/java/com/tb/rotarydiecutter/ui/screens/search.kt:478-482 | `{marginH:10}` then `{paddingH:30}` gives (10, 30, 6) |
| NotesProperties.MarkerPrecedence | app/src/main/java/com/tb/rotarydiecutter/ui/screens/search.kt:476-566 | the first of `layout`, `newline`, `columns`, `stack` present decides the node, and later keys are ignored; with none of them the node is a span |
| NotesProperties.TopLevelColumnsArity | app/src/main/java/com/tb/rotarydiecutter/ui/screens/search.kt:494-496 | a top-level `columns` array whose length is not 2 fails with the top-level arity error and its length |
| NotesProperties.TopLevelColumns | app/src/main/java/com/tb/rotarydiecutter/ui/screens/search.kt:494-504 | two good span objects give a columns block of their spans |
| NotesProperties.ScanMeaning | app/src/main/java/com/tb/rotarydiecutter/ui/screens/search.kt:511-515 | the scan's true and false answers mean "some item has columns" and "none has", and it fails only on a non-object before the first columns item |
| NotesProperties.StackKind | app/src/main/java/com/tb/rotarydiecutter/ui/screens/search.kt:511-517 | a stack is a rows stack exactly when some item has `columns` |
| NotesProperties.RowsStackShape | app/src/main/java/com/tb/rotarydiecutter/ui/screens/search.kt:517-539 | one row per item in order; a row is a columns row exactly when its item has `columns`; the multiplier is `rowMult`, else `lineMult`, else 1 |
| NotesProperties.NestedColumnsArity | app/src/main/java/com/tb/rotarydiecutter/ui/screens/search.kt:522-524 | a stack item's `columns` of length other than 2 fails the stack, with the nested arity error when the rows before it are well formed |
| NotesProperties.PlainTextAppend | app/src/main/java/com/tb/rotarydiecutter/ui/screens/search.kt:550-551 | the text of two appended annotated strings is the two texts appended |
| NotesProperties.JoinedPlainText | app/src/main/java/com/tb/rotarydiecutter/ui/screens/search.kt:545-552 | the text of the joined spans is their texts joined by "\n", with no trailing separator |
| NotesProperties.MakeSpanText | app/src/main/java/com/tb/rotarydiecutter/ui/screens/search.kt:454 | a span's text is `text`, or "" |
| NotesProperties.SpansText | app/src/main/java/com/tb/rotarydiecutter/ui/screens/search.kt:545-550 | the texts of a text stack's spans are its items' `text` values, in order |
| NotesProperties.TextStackShape | app/src/main/java/com/tb/rotarydiecutter/ui/screens/search.kt:540-560 | no item has `columns`; the text is the items' texts joined by "\n"; the line height ignores `rowMult` |
| NotesProperties.TextStackUnfold | app/src/main/java/com/tb/rotarydiecutter/ui/screens/search.kt:540-560 | a text stack's content is the joined item spans and its line height follows `lineHeight`/`lineMult` of the largest size |
| NotesProperties.LineHeightIgnoresRowMult | app/src/main/java/com/tb/rotarydiecutter/ui/screens/search.kt:554-558 | `rowMult` has no effect on a text stack's line height |
| NotesProperties.MaxSizeIsLargest | app/src/main/java/com/tb/rotarydiecutter/ui/screens/search.kt:543-549 | `maxSizeSp` is at least 16 and every explicit size, and equals 16 or one of them |
| NotesProperties.TextStackExample | app/src/main/java/com/tb/rotarydiecutter/ui/screens/search.kt:540-560 | items "A" and "B" give one text stack "A", "\n", "B" with no trailing break and no line height |
| NotesProperties.MakeSpanDefaults | app/src/main/java/com/tb/rotarydiecutter/ui/screens/search.kt:453-466 | an empty object is "" unstyled but for an unset color and size; a blank color is no color; a null color is the bad color "null" |
| Preview.NewlineSpacer | app/src/main/java/com/tb/rotarydiecutter/ui/screens/search.kt:338-356 | a newline node's spacer is 4 dp × its amount, never negative, and 4 dp when the amount is not a number |
| Preview.NewlineExamples | app/src/main/java/com/tb/rotarydiecutter/ui/screens/search.kt:487-491 | -5 gives amount 0 and no space; 2.5 gives 10 dp; null gives 1 |
| Preview.RoundHalfUp | app/src/main/java/com/tb/rotarydiecutter/ui/screens/search.kt:405 | `roundToInt` is within one half of its input, halves rounding up |
| Preview.AdvanceBounds | app/src/main/java/com/tb/rotarydiecutter/ui/screens/search.kt:405 | a multiplier of at least 1 never advances less than the row height; one in [0, 1] never more |
| Preview.PackRows | app/src/main/java/com/tb/rotarydiecutter/ui/screens/search.kt:399-418 | the measure and place loops give the prefix sums of rounded advances as offsets, and the last row's start plus its height (0 for no rows) as total |
| Preview.UnitAdvanceSum | app/src/main/java/com/tb/rotarydiecutter/ui/screens/search.kt:403-406 | with multiplier 1 the advances add up to the heights |
| Preview.UnitMultiplier | app/src/main/java/com/tb/rotarydiecutter/ui/screens/search.kt:396-420 | `rowMult` 1 places each row where the rows above end, with the sum of the heights as the total |
| Preview.OffsetsMonotone | app/src/main/java/com/tb/rotarydiecutter/ui/screens/search.kt:414-418 | with a non-negative multiplier the offsets never decrease |
| Preview.NoOverlap | app/src/main/java/com/tb/rotarydiecutter/ui/screens/search.kt:374-420 | `rowMult` ≥ 1: no row overlaps the next, and the total covers every row |
| Preview.Overlap | app/src/main/java/com/tb/rotarydiecutter/ui/screens/search.kt:374-420 | `rowMult` in [0, 1]: each row starts at or above the previous row's bottom, and the offsets increase weakly |
| Preview.RoundingExamples | app/src/main/java/com/tb/rotarydiecutter/ui/screens/search.kt:405 | 2.5 → 3, 2.4 → 2, -2.5 → -2, -2.6 → -3, and a 5 px row at 0.5 advances 3 |
| Preview.HalfSpacingExample | app/src/main/java/com/tb/rotarydiecutter/ui/screens/search.kt:399-418 | rows of 40 and 40 at 0.5 are placed at 0 and 20, with total 60 |
| Preview.OverhangExample | app/src/main/java/com/tb/rotarydiecutter/ui/screens/search.kt:399-418 | rows of 100 and 10 at 0.1 are placed at 0 and 10, with total 20, below the first row's bottom |
| Preview.EmptyRows | app/src/main/java/com/tb/rotarydiecutter/ui/screens/search.kt:411 | no rows: nothing placed and height 0 |
| QuadTap.EditorTapState.constructor | app/src/main/java/com/tb/rotarydiecutter/ui/screens/search.kt:73-79 | the initial state: count 0, time 0, editor closed, draft = notes, no draft error |
| QuadTap.EditorTapState.OnPreviewTapped | app/src/main/java/com/tb/rotarydiecutter/ui/screens/search.kt:80-90 | keeps 0 ≤ count < 4 and records the tap time; the count follows the tap rule; an opening tap resets the draft and shows the editor, and no other tap changes them |
| QuadTap.ContinuedBurst | app/src/main/java/com/tb/rotarydiecutter/ui/screens/search.kt:80-90 | in a burst of taps ≤ 500 ms apart, every 4th tap opens the editor and the count wraps mod 4 |
| QuadTap.FreshBurst | app/src/main/java/com/tb/rotarydiecutter/ui/screens/search.kt:80-90 | after a pause, n quick taps open the editor n / 4 times and leave count n mod 4 |
| QuadTap.SlowTapsNeverOpen | app/src/main/java/com/tb/rotarydiecutter/ui/screens/search.kt:80-90 | taps more than 500 ms apart never open the editor and leave count 1 |
| QuadTap.QuadTapExample | app/src/main/java/com/tb/rotarydiecutter/ui/screens/search.kt:80-90 | four taps 100 ms apart open the editor once; three do not; a pause restarts the count |
| DefaultNotes.LayoutStep | app/src/main/java/com/tb/rotarydiecutter/database/sql_database.kt:64-70 | the seeded layout node sets margins 50, 20 and 10 |
| DefaultNotes.RowsStackBlock | app/src/main/java/com/tb/rotarydiecutter/database/sql_database.kt:71-155 | the seeded first stack is five bold two-column rows (orange 28 sp, then yellow, red, blue and uncolored at 19 sp) spaced at 0.9 |
| DefaultNotes.TextStackBlock | app/src/main/java/com/tb/rotarydiecutter/database/sql_database.kt:159-186 | the seeded second stack reads "Nip & Snub Wheels\nC: 150\nB: 120\nE: 106\nBC: 250" in grey with line height 12 sp |
| DefaultNotes.DefaultDocumentParses | app/src/main/java/com/tb/rotarydiecutter/database/sql_database.kt:63-188 | the seeded document parses to layout (50, 20, 10) and the blocks rows stack, 10-unit newline, text stack |

## Left out

- Decoding JSON text (`JSONArray(json)`) is not part of this model. The
  input is an already-decoded value, and a root that is not an array is the
  only decoding error left.
- Android org.json converts a string to a number or a bool in `optInt`,
  `optDouble` and `optBoolean`. The model treats a string there as absent.
- `optString` of a number, an array or an object renders that value as text
  in Android. The model treats it as absent.
- Kotlin `Float` and `Double` precision are not modelled: numbers are exact
  rationals. This covers the `toFloat()` conversions, NaN arithmetic and the
  rounding of `height × rowMult`. Truncation to `Int` ignores the 32-bit
  range.
- `toLong(16)` also accepts a leading sign and non-ASCII digits. The model
  accepts only ASCII hex digits and rejects the rest.
- Compose rendering is not modelled: measuring text, the `Row`/`Column`
  placement of non-stack blocks, span merging inside `AnnotatedString`, and
  the dp and sp units.
- QuadTap.EditorTapState.OnPreviewTapped: the clock is a parameter, and the
  `Long` overflow of `now - lastTapTimeMs` is not modelled.
- The screen's catch-all that turns a parse error into an empty document
  (search.kt:62-69) and `saveScratchNotes` (search.kt:284-294) are not
  modelled: they are UI plumbing around the parser.
- Error messages are not modelled. An error records its kind and key, not
  the text of the exception.
- The persistence layer, the other screens and navigation are not part of
  this model.
