/** `parseRichNotes` (search.kt:424-570): one left-to-right pass over a JSON
    array that folds `layout` nodes into the running layout and turns every
    other node into a block. The functions give the meaning of each step;
    the methods are the source's loops, proved to compute those functions. */
module NotesParser {
  import opened Wrappers
  import opened Json
  import opened Colors
  import opened NotesModel

  function LiftJson<T>(r: Result<T, JsonError>): (l: Result<T, ParseError>)
    ensures l.Success? <==> r.Success?
    ensures r.Success? ==> l.value == r.value
    ensures r.Failure? ==> l.error == JsonAccess(r.error)
  {
    match r
    case Success(v) => Success(v)
    case Failure(e) => Failure(JsonAccess(e))
  }

  // ----- Spans -----

  /** `sizeOf(obj)`: the explicit numeric `size`, None for Kotlin's NaN. */
  function SizeOf(obj: JsonObject): Option<real> {
    OptNumber(obj, "size")
  }

  /** `makeSpan(obj)`: one run holding `text` (default "") under a style with
      the explicit size, bold, italic and color. Only the color can fail. */
  function MakeSpan(obj: JsonObject): (r: Result<AnnotatedString, ParseError>)
    ensures r.Failure? <==> ParseColor(OptString(obj, "color")).Failure?
    ensures r.Failure? ==> r.error == InvalidColor(ParseColor(OptString(obj, "color")).error)
    ensures r.Success? ==> |r.value| == 1 && r.value[0].style.Some?
    ensures r.Success? ==> r.value[0].text == OptString(obj, "text").GetOr("")
    ensures r.Success? ==> r.value[0].style.value.color == ParseColor(OptString(obj, "color")).value
    ensures r.Success? ==>
      (r.value[0].style.value.fontSize.Some? <==> "size" in obj && obj["size"].Num?)
    ensures r.Success? && r.value[0].style.value.fontSize.Some? ==> r.value[0].style.value.fontSize.value == obj["size"].n
    ensures r.Success? ==> (r.value[0].style.value.bold <==> "bold" in obj && obj["bold"] == Bool(true))
    ensures r.Success? ==> (r.value[0].style.value.italic <==> "italic" in obj && obj["italic"] == Bool(true))
  {
    var text := OptString(obj, "text").GetOr("");
    var bold := OptBoolean(obj, "bold", false);
    var italic := OptBoolean(obj, "italic", false);
    match ParseColor(OptString(obj, "color"))
    case Failure(e) => Failure(InvalidColor(e))
    case Success(color) => Success([Run(text, Some(SpanStyle(color, SizeOf(obj), bold, italic)))])
  }

  /** The two spans of a `columns` array. At the top level both entries are
      fetched before either span is built; inside a stack each entry is
      fetched and turned into its span in turn, so the two places report a
      different error for some malformed arrays. */
  function ColumnsOf(cols: seq<Json>, nested: bool): (r: Result<(AnnotatedString, AnnotatedString), ParseError>)
    ensures |cols| != 2 ==> r == Failure(ColumnsArity(nested, |cols|))
    ensures r.Success? <==>
      |cols| == 2 && cols[0].Obj? && cols[1].Obj? && MakeSpan(cols[0].fields).Success? && MakeSpan(cols[1].fields).Success?
    ensures r.Success? ==> r.value == (MakeSpan(cols[0].fields).value, MakeSpan(cols[1].fields).value)
  {
    if |cols| != 2 then Failure(ColumnsArity(nested, |cols|))
    else if !nested then
      var leftObj :- LiftJson(ElementObject(cols, 0));
      var rightObj :- LiftJson(ElementObject(cols, 1));
      var left :- MakeSpan(leftObj);
      var right :- MakeSpan(rightObj);
      Success((left, right))
    else
      var leftObj :- LiftJson(ElementObject(cols, 0));
      var left :- MakeSpan(leftObj);
      var rightObj :- LiftJson(ElementObject(cols, 1));
      var right :- MakeSpan(rightObj);
      Success((left, right))
  }

  // ----- Stacks -----

  /** The scan for a `columns` item: items are fetched as objects up to the
      first one that has `columns`, where the scan stops. */
  function ScanHasColumns(items: seq<Json>): (r: Result<bool, ParseError>)
    decreases |items|
  {
    if |items| == 0 then Success(false)
    else if !items[0].Obj? then Failure(JsonAccess(ElementTypeMismatch))
    else if "columns" in items[0].fields then Success(true)
    else ScanHasColumns(items[1..])
  }

  /** One row of a rows stack. */
  function ItemRow(item: Json): Result<StackRow, ParseError> {
    if !item.Obj? then Failure(JsonAccess(ElementTypeMismatch))
    else if "columns" in item.fields then
      var cols :- LiftJson(GetArray(item.fields, "columns"));
      var (left, right) :- ColumnsOf(cols, true);
      Success(ColumnsRow(left, right))
    else
      var span :- MakeSpan(item.fields);
      Success(TextRow(span))
  }

  /** The span of one item of a text-only stack. */
  function ItemSpan(item: Json): Result<AnnotatedString, ParseError> {
    if !item.Obj? then Failure(JsonAccess(ElementTypeMismatch))
    else MakeSpan(item.fields)
  }

  function ItemSize(item: Json): Option<real> {
    if item.Obj? then SizeOf(item.fields) else None
  }

  function Max(a: real, b: real): real {
    if a < b then b else a
  }

  /** `maxSizeSp`: 16 raised to every explicit item size. */
  function MaxSize(items: seq<Json>): real
    decreases |items|
  {
    if |items| == 0 then 16.0
    else
      var m := MaxSize(items[..|items| - 1]);
      match ItemSize(items[|items| - 1])
      case Some(sz) => Max(m, sz)
      case None => m
  }

  /** The unstyled "\n" the builder appends between two items. */
  const Separator: AnnotatedString := [Run("\n", None)]

  /** The spans of a text-only stack, one after another with a separator
      between neighbours and none after the last. */
  function Joined(spans: seq<AnnotatedString>): AnnotatedString
    decreases |spans|
  {
    if |spans| == 0 then []
    else if |spans| == 1 then spans[0]
    else Joined(spans[..|spans| - 1]) + Separator + spans[|spans| - 1]
  }

  /** The spacing multiplier of a rows stack: `rowMult` if the key is there,
      else `lineMult`, else 1; a key holding a non-number counts as 1. */
  function RowMult(stack: JsonObject): real {
    if "rowMult" in stack then OptNumber(stack, "rowMult").GetOr(1.0)
    else if "lineMult" in stack then OptNumber(stack, "lineMult").GetOr(1.0)
    else 1.0
  }

  /** The line height of a text-only stack. */
  function LineHeightOf(stack: JsonObject, maxSizeSp: real): LineHeight {
    if "lineHeight" in stack then
      match OptNumber(stack, "lineHeight")
      case Some(h) => Sp(h)
      case None => NotANumber
    else if "lineMult" in stack then Sp(maxSizeSp * OptNumber(stack, "lineMult").GetOr(1.0))
    else Unspecified
  }

  /** The block a `stack` node becomes. */
  function StackSpec(stack: JsonObject): Result<RichBlock, ParseError> {
    var items :- LiftJson(GetArray(stack, "items"));
    var hasColumns :- ScanHasColumns(items);
    if hasColumns then
      var rows :- MapAll(items, ItemRow);
      Success(StackRowsBlock(rows, RowMult(stack)))
    else
      var spans :- MapAll(items, ItemSpan);
      Success(StackBlock(Joined(spans), LineHeightOf(stack, MaxSize(items))))
  }

  // ----- Nodes and documents -----

  /** What one array element does: change the layout or add a block. */
  datatype Step = SetLayout(layoutObj: JsonObject) | Emit(block: RichBlock)

  /** `optDouble("newline", 1.0)` floored at 0. */
  function NewlineAmount(obj: JsonObject): (r: real)
    ensures r >= 0.0
    ensures OptNumber(obj, "newline").None? ==> r == 1.0
    ensures OptNumber(obj, "newline").Some? ==> r == Max(OptNumber(obj, "newline").value, 0.0)
  {
    match OptNumber(obj, "newline")
    case Some(x) => if x < 0.0 then 0.0 else x
    case None => 1.0
  }

  /** The marker keys, tried in the order `layout`, `newline`, `columns`,
      `stack`; an object with none of them is a span. */
  function NodeStep(obj: JsonObject): Result<Step, ParseError> {
    if "layout" in obj then
      var lo :- LiftJson(GetObject(obj, "layout"));
      Success(SetLayout(lo))
    else if "newline" in obj then
      Success(Emit(NewlineBlock(NewlineAmount(obj))))
    else if "columns" in obj then
      var cols :- LiftJson(GetArray(obj, "columns"));
      var (left, right) :- ColumnsOf(cols, false);
      Success(Emit(ColumnsBlock(left, right)))
    else if "stack" in obj then
      var stack :- LiftJson(GetObject(obj, "stack"));
      var block :- StackSpec(stack);
      Success(Emit(block))
    else
      var span :- MakeSpan(obj);
      Success(Emit(TextBlock(span)))
  }

  /** `layout.copy(...)`: each field present as a number replaces the
      current value; every other field keeps it. */
  function MergeLayout(layout: NotesLayout, lo: JsonObject): NotesLayout {
    NotesLayout(
      OptInt(lo, "marginH", layout.marginH),
      OptInt(lo, "paddingH", layout.paddingH),
      OptInt(lo, "paddingV", layout.paddingV))
  }

  /** One element's step, with the check that it is an object. */
  function NodeOutcome(node: Json): Result<Step, ParseError> {
    if node.Obj? then NodeStep(node.fields) else Failure(ItemNotObject)
  }

  function ApplyStep(acc: ParsedNotes, step: Step): ParsedNotes {
    match step
    case SetLayout(lo) => acc.(layout := MergeLayout(acc.layout, lo))
    case Emit(b) => acc.(blocks := acc.blocks + [b])
  }

  /** The result of the pass over `nodes`. */
  function ParseNodes(nodes: seq<Json>): Result<ParsedNotes, ParseError>
    decreases |nodes|
  {
    if |nodes| == 0 then Success(ParsedNotes(DefaultLayout, []))
    else
      var acc :- ParseNodes(nodes[..|nodes| - 1]);
      var step :- NodeOutcome(nodes[|nodes| - 1]);
      Success(ApplyStep(acc, step))
  }

  /** `parseRichNotes` on a decoded document. */
  function ParseNotes(root: Json): Result<ParsedNotes, ParseError> {
    if root.Arr? then ParseNodes(root.items) else Failure(RootNotArray)
  }

  lemma {:induction false} ParseNodesPrefixFailure(nodes: seq<Json>, n: nat)
    requires n <= |nodes|
    requires ParseNodes(nodes[..n]).Failure?
    ensures ParseNodes(nodes) == ParseNodes(nodes[..n])
    decreases |nodes| - n
  {
    if n < |nodes| {
      assert nodes[..n + 1][..n] == nodes[..n];
      ParseNodesPrefixFailure(nodes, n + 1);
    } else {
      assert nodes[..n] == nodes;
    }
  }

  // ----- The source's loops -----

  /** The scan for a `columns` item, with its early exit. */
  method ScanForColumns(items: seq<Json>) returns (r: Result<bool, ParseError>)
    ensures r == ScanHasColumns(items)
  {
    var hasColumns := false;
    var j := 0;
    while j < |items|
      invariant 0 <= j <= |items|
      invariant ScanHasColumns(items) == ScanHasColumns(items[j..])
    {
      assert items[j..][1..] == items[j + 1..];
      if !items[j].Obj? {
        return Failure(JsonAccess(ElementTypeMismatch));
      }
      if "columns" in items[j].fields {
        hasColumns := true;
        break;
      }
      j := j + 1;
    }
    return Success(hasColumns);
  }

  /** The loop that turns every item of a rows stack into a row. */
  method CollectRows(items: seq<Json>) returns (r: Result<seq<StackRow>, ParseError>)
    ensures r == MapAll(items, ItemRow)
  {
    var rows: seq<StackRow> := [];
    var j := 0;
    while j < |items|
      invariant 0 <= j <= |items|
      invariant MapAll(items[..j], ItemRow) == Success(rows)
    {
      assert items[..j + 1][..j] == items[..j];
      var row := ItemRow(items[j]);
      if row.Failure? {
        MapAllPrefixFailure(items, ItemRow, j + 1);
        return Failure(row.error);
      }
      rows := rows + [row.value];
      j := j + 1;
    }
    assert items[..j] == items;
    return Success(rows);
  }

  /** The loop of a text-only stack: append each item's span to one builder,
      a separator after every item but the last, and raise `maxSizeSp` to
      every explicit size. */
  method BuildTextStack(items: seq<Json>) returns (r: Result<(AnnotatedString, real), ParseError>)
    ensures r.Success? <==> MapAll(items, ItemSpan).Success?
    ensures r.Failure? ==> r.error == MapAll(items, ItemSpan).error
    ensures r.Success? ==> r.value == (Joined(MapAll(items, ItemSpan).value), MaxSize(items))
  {
    var builder: AnnotatedString := [];
    var maxSizeSp := 16.0;
    ghost var spans: seq<AnnotatedString> := [];
    var j := 0;
    while j < |items|
      invariant 0 <= j <= |items|
      invariant |spans| == j
      invariant MapAll(items[..j], ItemSpan) == Success(spans)
      invariant maxSizeSp == MaxSize(items[..j])
      invariant j < |items| ==> builder == JoinedWithTrail(spans)
      invariant j == |items| ==> builder == Joined(spans)
    {
      if !items[j].Obj? {
        MapAllStep(items, ItemSpan, j);
        MapAllPrefixFailure(items, ItemSpan, j + 1);
        return Failure(JsonAccess(ElementTypeMismatch));
      }
      var item := items[j].fields;
      var span := MakeSpan(item);
      if span.Failure? {
        MapAllStep(items, ItemSpan, j);
        MapAllPrefixFailure(items, ItemSpan, j + 1);
        return Failure(span.error);
      }
      var sz := SizeOf(item);
      MaxSizeStep(items, j);
      if sz.Some? {
        maxSizeSp := Max(maxSizeSp, sz.value);
      }
      MapAllStep(items, ItemSpan, j);
      JoinedStep(spans, span.value);
      builder := builder + span.value;
      if j < |items| - 1 {
        builder := builder + Separator;
      }
      spans := spans + [span.value];
      j := j + 1;
    }
    assert items[..j] == items;
    return Success((builder, maxSizeSp));
  }

  /** The builder between two items: every span so far, each followed by a
      separator. */
  function JoinedWithTrail(spans: seq<AnnotatedString>): AnnotatedString {
    if |spans| == 0 then [] else Joined(spans) + Separator
  }

  lemma JoinedStep(spans: seq<AnnotatedString>, s: AnnotatedString)
    ensures Joined(spans + [s]) == JoinedWithTrail(spans) + s
    ensures JoinedWithTrail(spans + [s]) == JoinedWithTrail(spans) + s + Separator
  {
    assert (spans + [s])[..|spans|] == spans;
  }

  lemma MapAllStep<B>(xs: seq<Json>, f: Json -> Result<B, ParseError>, j: nat)
    requires j < |xs|
    ensures MapAll(xs[..j + 1], f) ==
      match MapAll(xs[..j], f)
      case Failure(e) => Failure(e)
      case Success(acc) => match f(xs[j]) case Failure(e) => Failure(e) case Success(b) => Success(acc + [b])
  {
    assert xs[..j + 1][..j] == xs[..j];
  }

  lemma MaxSizeStep(items: seq<Json>, j: nat)
    requires j < |items|
    ensures MaxSize(items[..j + 1]) ==
      match ItemSize(items[j]) case Some(sz) => Max(MaxSize(items[..j]), sz) case None => MaxSize(items[..j])
  {
    assert items[..j + 1][..j] == items[..j];
  }

  /** The `stack` branch. */
  method ParseStack(stack: JsonObject) returns (r: Result<RichBlock, ParseError>)
    ensures r == StackSpec(stack)
  {
    var items := LiftJson(GetArray(stack, "items"));
    if items.Failure? {
      return Failure(items.error);
    }
    var hasColumns := ScanForColumns(items.value);
    if hasColumns.Failure? {
      return Failure(hasColumns.error);
    }
    if hasColumns.value {
      var rows := CollectRows(items.value);
      if rows.Failure? {
        return Failure(rows.error);
      }
      return Success(StackRowsBlock(rows.value, RowMult(stack)));
    } else {
      var text := BuildTextStack(items.value);
      if text.Failure? {
        return Failure(text.error);
      }
      return Success(StackBlock(text.value.0, LineHeightOf(stack, text.value.1)));
    }
  }

  /** `parseRichNotes`: the pass over the array with a running `layout` and a
      growing `blocks` list. */
  method ParseRichNotes(root: Json) returns (r: Result<ParsedNotes, ParseError>)
    ensures r == ParseNotes(root)
  {
    if !root.Arr? {
      return Failure(RootNotArray);
    }
    var arr := root.items;
    var layout := DefaultLayout;
    var blocks: seq<RichBlock> := [];
    var i := 0;
    while i < |arr|
      invariant 0 <= i <= |arr|
      invariant ParseNodes(arr[..i]) == Success(ParsedNotes(layout, blocks))
    {
      assert arr[..i + 1][..i] == arr[..i];
      var node := arr[i];
      if !node.Obj? {
        ParseNodesPrefixFailure(arr, i + 1);
        return Failure(ItemNotObject);
      }
      var obj := node.fields;
      if "layout" in obj {
        var lo := LiftJson(GetObject(obj, "layout"));
        if lo.Failure? {
          ParseNodesPrefixFailure(arr, i + 1);
          return Failure(lo.error);
        }
        layout := MergeLayout(layout, lo.value);
      } else if "newline" in obj {
        blocks := blocks + [NewlineBlock(NewlineAmount(obj))];
      } else if "columns" in obj {
        var cols := LiftJson(GetArray(obj, "columns"));
        if cols.Failure? {
          ParseNodesPrefixFailure(arr, i + 1);
          return Failure(cols.error);
        }
        var pair := ColumnsOf(cols.value, false);
        if pair.Failure? {
          ParseNodesPrefixFailure(arr, i + 1);
          return Failure(pair.error);
        }
        blocks := blocks + [ColumnsBlock(pair.value.0, pair.value.1)];
      } else if "stack" in obj {
        var stack := LiftJson(GetObject(obj, "stack"));
        if stack.Failure? {
          ParseNodesPrefixFailure(arr, i + 1);
          return Failure(stack.error);
        }
        var block := ParseStack(stack.value);
        if block.Failure? {
          ParseNodesPrefixFailure(arr, i + 1);
          return Failure(block.error);
        }
        blocks := blocks + [block.value];
      } else {
        var span := MakeSpan(obj);
        if span.Failure? {
          ParseNodesPrefixFailure(arr, i + 1);
          return Failure(span.error);
        }
        blocks := blocks + [TextBlock(span.value)];
      }
      i := i + 1;
    }
    assert arr[..i] == arr;
    return Success(ParsedNotes(layout, blocks));
  }
}
