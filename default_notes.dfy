/** The notes document the database seeds on first launch
    (sql_database.kt:63-188), as a test vector for the parser: a layout
    node, a five-row stack of two-column lines, a 10-unit newline, and a
    five-line text stack. */
module DefaultNotes {
  import opened Wrappers
  import opened Json
  import opened Colors
  import opened NotesModel
  import opened NotesParser
  import NotesProperties

  /** A bold span object with an explicit size and color. */
  function Cell(text: string, size: real, color: string): Json {
    Obj(map["text" := Str(text), "size" := Num(size), "bold" := Bool(true), "color" := Str(color)])
  }

  /** A bold span object with an explicit size and no color. */
  function PlainCell(text: string, size: real): Json {
    Obj(map["text" := Str(text), "size" := Num(size), "bold" := Bool(true)])
  }

  function ColumnsItem(left: Json, right: Json): Json {
    Obj(map["columns" := Arr([left, right])])
  }

  /** A grey line of text. */
  function GreyLine(text: string): Json {
    Obj(map["text" := Str(text), "color" := Str("grey")])
  }

  const LayoutNode: Json :=
    Obj(map["layout" := Obj(map["marginH" := Num(50.0), "paddingH" := Num(20.0), "paddingV" := Num(10.0)])])

  const HeaderItem: Json := ColumnsItem(Cell("Pull Roll", 28.0, "#FF7043"), Cell("Feed Gate", 28.0, "#FF7043"))
  const CItem: Json := ColumnsItem(Cell("C: .103", 19.0, "yellow"), Cell(".284", 19.0, "yellow"))
  const BItem: Json := ColumnsItem(Cell("B: .074", 19.0, "red"), Cell(".181", 19.0, "red"))
  const EItem: Json := ColumnsItem(Cell("E: .009", 19.0, "blue"), Cell(".118", 19.0, "blue"))
  const BCItem: Json := ColumnsItem(PlainCell("BC: .22", 19.0), PlainCell(".31", 19.0))

  const RowItems: seq<Json> := [HeaderItem, CItem, BItem, EItem, BCItem]

  const RowsStack: JsonObject := map["lineMult" := Num(0.9), "items" := Arr(RowItems)]

  const RowsStackNode: Json := Obj(map["stack" := Obj(RowsStack)])

  const NewlineNode: Json := Obj(map["newline" := Num(10.0)])

  const TextItems: seq<Json> := [
    Obj(map["text" := Str("Nip & Snub Wheels"), "size" := Num(20.0), "color" := Str("grey"), "bold" := Bool(true)]),
    GreyLine("C: 150"),
    GreyLine("B: 120"),
    GreyLine("E: 106"),
    GreyLine("BC: 250")]

  const TextStack: JsonObject := map["lineMult" := Num(0.6), "items" := Arr(TextItems)]

  const TextStackNode: Json := Obj(map["stack" := Obj(TextStack)])

  const DefaultDocument: Json := Arr([LayoutNode, RowsStackNode, NewlineNode, TextStackNode])

  /** "#FF7043", the orange of the header row. */
  const Orange: Argb := 0xFFFF_7043

  function BoldStyle(color: Option<Argb>, size: real): SpanStyle {
    SpanStyle(color, Some(size), true, false)
  }

  function GreyText(text: string): AnnotatedString {
    [Run(text, Some(SpanStyle(Some(Gray), None, false, false)))]
  }

  function BoldRow(left: string, right: string, color: Option<Argb>, size: real): StackRow {
    ColumnsRow([Run(left, Some(BoldStyle(color, size)))], [Run(right, Some(BoldStyle(color, size)))])
  }

  /** The rows the first stack becomes. */
  const ExpectedRows: seq<StackRow> := [
    BoldRow("Pull Roll", "Feed Gate", Some(Orange), 28.0),
    BoldRow("C: .103", ".284", Some(Yellow), 19.0),
    BoldRow("B: .074", ".181", Some(Red), 19.0),
    BoldRow("E: .009", ".118", Some(Blue), 19.0),
    BoldRow("BC: .22", ".31", None, 19.0)]

  /** The text the second stack becomes: the five lines, each its own span,
      with unstyled line breaks between them. */
  const ExpectedText: AnnotatedString :=
    [Run("Nip & Snub Wheels", Some(SpanStyle(Some(Gray), Some(20.0), true, false)))]
    + Separator + GreyText("C: 150") + Separator + GreyText("B: 120")
    + Separator + GreyText("E: 106") + Separator + GreyText("BC: 250")

  lemma HexValueOfFF7043()
    ensures HexValue("FF7043") == Some(0xFF7043)
  {
    assert HexValue("") == Some(0);
    HexValueSnoc("", 'F');
    assert "" + ['F'] == "F";
    HexValueSnoc("F", 'F');
    assert "F" + ['F'] == "FF";
    HexValueSnoc("FF", '7');
    assert "FF" + ['7'] == "FF7";
    HexValueSnoc("FF7", '0');
    assert "FF7" + ['0'] == "FF70";
    HexValueSnoc("FF70", '4');
    assert "FF70" + ['4'] == "FF704";
    HexValueSnoc("FF704", '3');
    assert "FF704" + ['3'] == "FF7043";
  }

  lemma OrangeHex()
    ensures ParseColor(Some("#FF7043")) == Success(Some(Orange))
  {
    assert !IsWhitespace("#FF7043"[0]);
    NotANameHex("#FF7043");
    assert StripHash("#FF7043") == "FF7043";
    Utf16LengthOfBmp("FF7043");
    HexValueOfFF7043();
  }

  lemma NamedColors()
    ensures ParseColor(Some("yellow")) == Success(Some(Yellow))
    ensures ParseColor(Some("red")) == Success(Some(Red))
    ensures ParseColor(Some("blue")) == Success(Some(Blue))
    ensures ParseColor(Some("grey")) == Success(Some(Gray))
  {
    assert Lower("yellow") == "yellow";
    assert Lower("red") == "red";
    assert Lower("blue") == "blue";
    assert Lower("grey") == "grey";
    assert !IsWhitespace("yellow"[0]);
    assert !IsWhitespace("red"[0]);
    assert !IsWhitespace("blue"[0]);
    assert !IsWhitespace("grey"[0]);
  }

  lemma CellSpan(text: string, size: real, color: string, argb: Argb)
    requires ParseColor(Some(color)) == Success(Some(argb))
    ensures MakeSpan(Cell(text, size, color).fields) == Success([Run(text, Some(BoldStyle(Some(argb), size)))])
  {
  }

  lemma PlainCellSpan(text: string, size: real)
    ensures MakeSpan(PlainCell(text, size).fields) == Success([Run(text, Some(BoldStyle(None, size)))])
  {
  }

  lemma ColumnsItemRow(left: Json, right: Json, l: AnnotatedString, r: AnnotatedString)
    requires left.Obj? && right.Obj?
    requires MakeSpan(left.fields) == Success(l) && MakeSpan(right.fields) == Success(r)
    ensures ItemRow(ColumnsItem(left, right)) == Success(ColumnsRow(l, r))
  {
  }

  lemma CellRow(left: string, right: string, size: real, color: string, argb: Argb)
    requires ParseColor(Some(color)) == Success(Some(argb))
    ensures ItemRow(ColumnsItem(Cell(left, size, color), Cell(right, size, color))) ==
      Success(BoldRow(left, right, Some(argb), size))
  {
    CellSpan(left, size, color, argb);
    CellSpan(right, size, color, argb);
    ColumnsItemRow(Cell(left, size, color), Cell(right, size, color),
      [Run(left, Some(BoldStyle(Some(argb), size)))], [Run(right, Some(BoldStyle(Some(argb), size)))]);
  }

  lemma HeaderRow()
    ensures ItemRow(HeaderItem) == Success(BoldRow("Pull Roll", "Feed Gate", Some(Orange), 28.0))
  {
    OrangeHex();
    CellRow("Pull Roll", "Feed Gate", 28.0, "#FF7043", Orange);
  }

  lemma NamedRows()
    ensures ItemRow(CItem) == Success(BoldRow("C: .103", ".284", Some(Yellow), 19.0))
    ensures ItemRow(BItem) == Success(BoldRow("B: .074", ".181", Some(Red), 19.0))
    ensures ItemRow(EItem) == Success(BoldRow("E: .009", ".118", Some(Blue), 19.0))
  {
    NamedColors();
    CellRow("C: .103", ".284", 19.0, "yellow", Yellow);
    CellRow("B: .074", ".181", 19.0, "red", Red);
    CellRow("E: .009", ".118", 19.0, "blue", Blue);
  }

  lemma UncoloredRow()
    ensures ItemRow(BCItem) == Success(BoldRow("BC: .22", ".31", None, 19.0))
  {
    PlainCellSpan("BC: .22", 19.0);
    PlainCellSpan(".31", 19.0);
    ColumnsItemRow(PlainCell("BC: .22", 19.0), PlainCell(".31", 19.0),
      [Run("BC: .22", Some(BoldStyle(None, 19.0)))], [Run(".31", Some(BoldStyle(None, 19.0)))]);
  }

  lemma RowItemRows()
    ensures forall j :: 0 <= j < |RowItems| ==> ItemRow(RowItems[j]) == Success(ExpectedRows[j])
  {
    forall j | 0 <= j < |RowItems| ensures ItemRow(RowItems[j]) == Success(ExpectedRows[j]) {
      if j == 0 {
        HeaderRow();
      } else if j == 4 {
        UncoloredRow();
      } else {
        NamedRows();
      }
    }
  }

  /** Mapping a function over a list whose every element succeeds. */
  lemma {:induction false} MapAllOfKnown<B>(xs: seq<Json>, f: Json -> Result<B, ParseError>, ys: seq<B>)
    requires |xs| == |ys|
    requires forall j :: 0 <= j < |xs| ==> f(xs[j]) == Success(ys[j])
    ensures MapAll(xs, f) == Success(ys)
    decreases |xs|
  {
    if |xs| > 0 {
      var n := |xs| - 1;
      assert forall j :: 0 <= j < n ==> xs[..n][j] == xs[j] && ys[..n][j] == ys[j];
      MapAllOfKnown(xs[..n], f, ys[..n]);
      assert ys[..n] + [ys[n]] == ys;
    }
  }

  lemma RowsMapped()
    ensures MapAll(RowItems, ItemRow) == Success(ExpectedRows)
  {
    RowItemRows();
    MapAllOfKnown(RowItems, ItemRow, ExpectedRows);
  }

  lemma RowsStackSpec()
    ensures StackSpec(RowsStack) == Success(StackRowsBlock(ExpectedRows, 0.9))
  {
    RowsMapped();
    assert GetArray(RowsStack, "items") == Success(RowItems);
    assert ScanHasColumns(RowItems) == Success(true);
    assert RowMult(RowsStack) == 0.9;
  }

  /** The first stack: five two-column rows, packed at 0.9 of a line. */
  lemma RowsStackBlock()
    ensures NodeOutcome(RowsStackNode) == Success(Emit(StackRowsBlock(ExpectedRows, 0.9)))
  {
    RowsStackSpec();
    StackNode(RowsStack, StackRowsBlock(ExpectedRows, 0.9));
  }

  /** A node holding only a `stack` becomes the block of that stack. */
  lemma StackNode(stack: JsonObject, b: RichBlock)
    requires StackSpec(stack) == Success(b)
    ensures NodeOutcome(Obj(map["stack" := Obj(stack)])) == Success(Emit(b))
  {
  }

  function TextSpans(): seq<AnnotatedString> {
    [[Run("Nip & Snub Wheels", Some(SpanStyle(Some(Gray), Some(20.0), true, false)))],
     GreyText("C: 150"), GreyText("B: 120"), GreyText("E: 106"), GreyText("BC: 250")]
  }

  lemma GreyLineSpan(text: string)
    ensures ItemSpan(GreyLine(text)) == Success(GreyText(text))
  {
    NamedColors();
  }

  lemma TitleSpan()
    ensures ItemSpan(TextItems[0]) == Success(TextSpans()[0])
  {
    NamedColors();
  }

  lemma TextItemSpans()
    ensures forall j :: 0 <= j < |TextItems| ==> ItemSpan(TextItems[j]) == Success(TextSpans()[j])
  {
    forall j | 0 <= j < |TextItems| ensures ItemSpan(TextItems[j]) == Success(TextSpans()[j]) {
      if j == 0 {
        TitleSpan();
      } else if j == 1 {
        GreyLineSpan("C: 150");
      } else if j == 2 {
        GreyLineSpan("B: 120");
      } else if j == 3 {
        GreyLineSpan("E: 106");
      } else {
        GreyLineSpan("BC: 250");
      }
    }
  }

  lemma TextItemsScan()
    ensures ScanHasColumns(TextItems) == Success(false)
  {
    var t := TextItems;
    assert t[1..][1..][1..][1..][1..] == [];
  }

  lemma TextItemsMaxSize()
    ensures MaxSize(TextItems) == 20.0
  {
    var t := TextItems;
    assert t[..0] == [] && t[..5] == t;
    MaxSizeStep(t, 0);
    MaxSizeStep(t, 1);
    MaxSizeStep(t, 2);
    MaxSizeStep(t, 3);
    MaxSizeStep(t, 4);
  }

  lemma TextItemsJoined()
    ensures Joined(TextSpans()) == ExpectedText
  {
    var s := TextSpans();
    assert s[..2][..1] == s[..1] && s[..1] == [s[0]];
    assert s[..3][..2] == s[..2];
    assert s[..4][..3] == s[..3];
    assert s[..4] == s[..|s| - 1];
    assert Joined(s[..2]) == s[0] + Separator + s[1];
    assert Joined(s[..3]) == s[0] + Separator + s[1] + Separator + s[2];
    assert Joined(s[..4]) == s[0] + Separator + s[1] + Separator + s[2] + Separator + s[3];
  }

  /** The second stack: the five lines joined by line breaks, with the line
      height 0.6 of its largest size, 20 sp. */
  lemma TextStackBlock()
    ensures NodeOutcome(TextStackNode) == Success(Emit(StackBlock(ExpectedText, Sp(12.0))))
    ensures PlainText(ExpectedText) == "Nip & Snub Wheels\nC: 150\nB: 120\nE: 106\nBC: 250"
  {
    TextItemSpans();
    MapAllOfKnown(TextItems, ItemSpan, TextSpans());
    TextItemsScan();
    TextItemsMaxSize();
    TextItemsJoined();
    assert LineHeightOf(TextStack, 20.0) == Sp(12.0);
    assert StackSpec(TextStack) == Success(StackBlock(ExpectedText, Sp(12.0)));
    StackNode(TextStack, StackBlock(ExpectedText, Sp(12.0)));
    TextStackPlain();
  }

  lemma TextStackPlain()
    ensures PlainText(ExpectedText) == "Nip & Snub Wheels\nC: 150\nB: 120\nE: 106\nBC: 250"
  {
    var title := [Run("Nip & Snub Wheels", Some(SpanStyle(Some(Gray), Some(20.0), true, false)))];
    PlainTextSingle(title[0]);
    var p1 := title + Separator + GreyText("C: 150");
    PlainTextLine(title, GreyText("C: 150"));
    assert PlainText(p1) == "Nip & Snub Wheels\nC: 150";
    var p2 := p1 + Separator + GreyText("B: 120");
    PlainTextLine(p1, GreyText("B: 120"));
    assert PlainText(p2) == "Nip & Snub Wheels\nC: 150\nB: 120";
    var p3 := p2 + Separator + GreyText("E: 106");
    PlainTextLine(p2, GreyText("E: 106"));
    assert PlainText(p3) == "Nip & Snub Wheels\nC: 150\nB: 120\nE: 106";
    PlainTextLine(p3, GreyText("BC: 250"));
  }

  /** The text of a single run. */
  lemma PlainTextSingle(r: Run)
    ensures PlainText([r]) == r.text
  {
    assert [r][..0] == [];
  }

  /** Appending a line break and a one-run line appends "\n" and its text. */
  lemma PlainTextLine(a: AnnotatedString, line: AnnotatedString)
    requires |line| == 1
    ensures PlainText(a + Separator + line) == PlainText(a) + "\n" + line[0].text
  {
    NotesProperties.PlainTextAppend(a, Separator);
    NotesProperties.PlainTextAppend(a + Separator, line);
    PlainTextSingle(Separator[0]);
    PlainTextSingle(line[0]);
    assert line == [line[0]];
  }

  lemma LayoutStep()
    ensures NodeOutcome(LayoutNode).Success? && NodeOutcome(LayoutNode).value.SetLayout?
    ensures MergeLayout(DefaultLayout, NodeOutcome(LayoutNode).value.layoutObj) == NotesLayout(50, 20, 10)
  {
    var lo := map["marginH" := Num(50.0), "paddingH" := Num(20.0), "paddingV" := Num(10.0)];
    assert LayoutNode == Obj(map["layout" := Obj(lo)]);
    assert NodeOutcome(LayoutNode) == Success(SetLayout(lo));
  }

  lemma NewlineStep()
    ensures NodeOutcome(NewlineNode) == Success(Emit(NewlineBlock(10.0)))
  {
  }

  /** A layout node followed by three block nodes. */
  lemma {:induction false} LayoutThenThreeBlocks(n0: Json, n1: Json, n2: Json, n3: Json,
                                                 lo: JsonObject, b1: RichBlock, b2: RichBlock, b3: RichBlock)
    requires NodeOutcome(n0) == Success(SetLayout(lo))
    requires NodeOutcome(n1) == Success(Emit(b1))
    requires NodeOutcome(n2) == Success(Emit(b2))
    requires NodeOutcome(n3) == Success(Emit(b3))
    ensures ParseNodes([n0, n1, n2, n3]) == Success(ParsedNotes(MergeLayout(DefaultLayout, lo), [b1, b2, b3]))
  {
    var d := [n0, n1, n2, n3];
    assert d[..1][..0] == [];
    assert d[..2][..1] == d[..1];
    assert d[..3][..2] == d[..2];
    assert d[..|d| - 1] == d[..3];
    var none: seq<RichBlock> := [];
    assert ParseNodes(d[..1]) == Success(ParsedNotes(MergeLayout(DefaultLayout, lo), none));
    assert ParseNodes(d[..2]) == Success(ParsedNotes(MergeLayout(DefaultLayout, lo), none + [b1]));
    assert none + [b1] == [b1];
    var one: seq<RichBlock> := [b1];
    assert ParseNodes(d[..3]) == Success(ParsedNotes(MergeLayout(DefaultLayout, lo), one + [b2]));
    assert one + [b2] == [b1, b2];
    var two: seq<RichBlock> := [b1, b2];
    assert ParseNodes(d) == Success(ParsedNotes(MergeLayout(DefaultLayout, lo), two + [b3]));
    assert two + [b3] == [b1, b2, b3];
  }

  /** The seeded document: layout margins 50, 20 and 10, then the rows
      stack, a spacer of 10 units and the text stack. */
  lemma DefaultDocumentParses()
    ensures ParseNotes(DefaultDocument) == Success(ParsedNotes(NotesLayout(50, 20, 10),
      [StackRowsBlock(ExpectedRows, 0.9), NewlineBlock(10.0), StackBlock(ExpectedText, Sp(12.0))]))
  {
    LayoutStep();
    RowsStackBlock();
    NewlineStep();
    TextStackBlock();
    LayoutThenThreeBlocks(LayoutNode, RowsStackNode, NewlineNode, TextStackNode,
      NodeOutcome(LayoutNode).value.layoutObj,
      StackRowsBlock(ExpectedRows, 0.9), NewlineBlock(10.0), StackBlock(ExpectedText, Sp(12.0)));
  }
}
