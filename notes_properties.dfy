/** What `parseRichNotes` promises about its result, stated against
    definitions that do not follow its loop: blocks keep source order and
    layout nodes add none, each layout field is the last value written to
    it, the first bad node decides the error, and stacks take the shape
    their items call for. */
module NotesProperties {
  import opened Wrappers
  import opened Json
  import opened Colors
  import opened NotesModel
  import opened NotesParser

  predicate IsLayoutNode(node: Json) {
    node.Obj? && "layout" in node.fields
  }

  /** The number of nodes that are not layout nodes. */
  function CountBlocks(nodes: seq<Json>): nat
    decreases |nodes|
  {
    if |nodes| == 0 then 0
    else CountBlocks(nodes[..|nodes| - 1]) + (if IsLayoutNode(nodes[|nodes| - 1]) then 0 else 1)
  }

  /** A layout node's step is a layout change, every other node's a block. */
  lemma LayoutNodesEmitNothing(node: Json)
    requires NodeOutcome(node).Success?
    ensures NodeOutcome(node).value.SetLayout? <==> IsLayoutNode(node)
  {
  }

  /** A successful parse unfolds into the parse of all nodes but the last,
      followed by the last node's step. */
  lemma ParseNodesLast(nodes: seq<Json>)
    requires |nodes| > 0 && ParseNodes(nodes).Success?
    ensures ParseNodes(nodes[..|nodes| - 1]).Success? && NodeOutcome(nodes[|nodes| - 1]).Success?
    ensures ParseNodes(nodes).value ==
      ApplyStep(ParseNodes(nodes[..|nodes| - 1]).value, NodeOutcome(nodes[|nodes| - 1]).value)
  {
  }

  /** A successful parse has one block per non-layout node. */
  lemma {:induction false} BlockCount(nodes: seq<Json>)
    requires ParseNodes(nodes).Success?
    ensures |ParseNodes(nodes).value.blocks| == CountBlocks(nodes)
    decreases |nodes|
  {
    if |nodes| > 0 {
      ParseNodesLast(nodes);
      BlockCount(nodes[..|nodes| - 1]);
      LayoutNodesEmitNothing(nodes[|nodes| - 1]);
    }
  }

  /** A successful parse took a successful step at every node. */
  lemma {:induction false} EveryNodeSucceeds(nodes: seq<Json>, i: nat)
    requires ParseNodes(nodes).Success? && i < |nodes|
    ensures NodeOutcome(nodes[i]).Success?
    decreases |nodes|
  {
    if i < |nodes| - 1 {
      ParseNodesLast(nodes);
      assert nodes[..|nodes| - 1][i] == nodes[i];
      EveryNodeSucceeds(nodes[..|nodes| - 1], i);
    } else {
      ParseNodesLast(nodes);
    }
  }

  /** The block of non-layout node i sits right after the blocks of the
      non-layout nodes before it. */
  lemma {:induction false} BlockOfNode(nodes: seq<Json>, i: nat)
    requires ParseNodes(nodes).Success? && i < |nodes| && !IsLayoutNode(nodes[i])
    ensures CountBlocks(nodes[..i]) < |ParseNodes(nodes).value.blocks|
    ensures NodeOutcome(nodes[i]) == Success(Emit(ParseNodes(nodes).value.blocks[CountBlocks(nodes[..i])]))
    decreases |nodes|
  {
    var n := |nodes| - 1;
    var init := nodes[..n];
    ParseNodesLast(nodes);
    var acc := ParseNodes(init).value;
    var blocks := ParseNodes(nodes).value.blocks;
    if i == n {
      BlockCount(init);
      LayoutNodesEmitNothing(nodes[n]);
    } else {
      assert init[i] == nodes[i];
      assert init[..i] == nodes[..i];
      BlockOfNode(init, i);
      LayoutNodesEmitNothing(nodes[n]);
      assert blocks[..|acc.blocks|] == acc.blocks;
    }
  }

  /** Order preservation: a successful parse has one block per non-layout
      node, every node's step succeeded, and the block of node i sits after
      the blocks of exactly the non-layout nodes before it. */
  lemma BlocksInSourceOrder(nodes: seq<Json>)
    requires ParseNodes(nodes).Success?
    ensures |ParseNodes(nodes).value.blocks| == CountBlocks(nodes)
    ensures forall i :: 0 <= i < |nodes| ==> NodeOutcome(nodes[i]).Success?
    ensures forall i :: 0 <= i < |nodes| && !IsLayoutNode(nodes[i]) ==>
      && CountBlocks(nodes[..i]) < |ParseNodes(nodes).value.blocks|
      && NodeOutcome(nodes[i]) == Success(Emit(ParseNodes(nodes).value.blocks[CountBlocks(nodes[..i])]))
  {
    BlockCount(nodes);
    forall i | 0 <= i < |nodes| ensures NodeOutcome(nodes[i]).Success? {
      EveryNodeSucceeds(nodes, i);
    }
    forall i | 0 <= i < |nodes| && !IsLayoutNode(nodes[i])
      ensures CountBlocks(nodes[..i]) < |ParseNodes(nodes).value.blocks|
      ensures NodeOutcome(nodes[i]) == Success(Emit(ParseNodes(nodes).value.blocks[CountBlocks(nodes[..i])]))
    {
      BlockOfNode(nodes, i);
    }
  }

  /** The node outcomes, checked in order; the parse reports the first bad
      node's error whatever the nodes before it did to layout and blocks. */
  lemma {:induction false} ParseFailsAsNodes(nodes: seq<Json>)
    ensures ParseNodes(nodes).Failure? <==> MapAll(nodes, NodeOutcome).Failure?
    ensures ParseNodes(nodes).Failure? ==> ParseNodes(nodes).error == MapAll(nodes, NodeOutcome).error
    decreases |nodes|
  {
    if |nodes| > 0 {
      ParseFailsAsNodes(nodes[..|nodes| - 1]);
    }
  }

  /** The parse fails exactly when some node fails, and then with the error
      of the first node that does. */
  lemma FirstBadNodeDecides(nodes: seq<Json>)
    ensures ParseNodes(nodes).Failure? <==> exists i :: 0 <= i < |nodes| && NodeOutcome(nodes[i]).Failure?
    ensures ParseNodes(nodes).Failure? ==>
      exists i :: 0 <= i < |nodes| && NodeOutcome(nodes[i]).Failure? &&
        ParseNodes(nodes).error == NodeOutcome(nodes[i]).error &&
        forall k :: 0 <= k < i ==> NodeOutcome(nodes[k]).Success?
  {
    ParseFailsAsNodes(nodes);
    MapAllFailure(nodes, NodeOutcome);
  }

  /** The value the last layout node that sets `key` to a number gives it,
      or `default` when no layout node does. */
  function LastLayoutValue(nodes: seq<Json>, key: string, default: int): int
    decreases |nodes|
  {
    if |nodes| == 0 then default
    else
      var last := nodes[|nodes| - 1];
      if IsLayoutNode(last) && last.fields["layout"].Obj? && OptNumber(last.fields["layout"].fields, key).Some?
      then TruncateToInt(OptNumber(last.fields["layout"].fields, key).value)
      else LastLayoutValue(nodes[..|nodes| - 1], key, default)
  }

  /** Field-wise merge: each layout field ends up as the last value written
      to it by any layout node, or keeps its default. */
  lemma {:induction false} LayoutIsLastWriter(nodes: seq<Json>)
    requires ParseNodes(nodes).Success?
    ensures ParseNodes(nodes).value.layout == NotesLayout(
      LastLayoutValue(nodes, "marginH", 0),
      LastLayoutValue(nodes, "paddingH", 12),
      LastLayoutValue(nodes, "paddingV", 6))
    decreases |nodes|
  {
    if |nodes| > 0 {
      LayoutIsLastWriter(nodes[..|nodes| - 1]);
    }
  }

  /** `[]` is the default layout and no blocks. */
  lemma EmptyDocument()
    ensures ParseNotes(Arr([])) == Success(ParsedNotes(DefaultLayout, []))
  {
  }

  /** A later layout node changes only the fields it names. */
  lemma LayoutMergeExample()
    ensures ParseNotes(Arr([
        Obj(map["layout" := Obj(map["marginH" := Num(10.0)])]),
        Obj(map["layout" := Obj(map["paddingH" := Num(30.0)])])]))
      == Success(ParsedNotes(NotesLayout(10, 30, 6), []))
  {
    var nodes := [
        Obj(map["layout" := Obj(map["marginH" := Num(10.0)])]),
        Obj(map["layout" := Obj(map["paddingH" := Num(30.0)])])];
    assert nodes[..1][..0] == [];
    assert nodes[..1] == [nodes[0]];
    assert ParseNodes(nodes[..1]) == Success(ParsedNotes(NotesLayout(10, 12, 6), []));
    assert OptNumber(map["paddingH" := Num(30.0)], "marginH").None?;
    assert OptNumber(map["paddingH" := Num(30.0)], "paddingV").None? by {
      assert "paddingH"[7] != "paddingV"[7];
    }
    assert ParseNodes(nodes) == Success(ParsedNotes(NotesLayout(10, 30, 6), []));
  }

  /** The marker keys take precedence in the order layout, newline, columns,
      stack: once one is present the keys after it are not looked at. */
  lemma MarkerPrecedence(obj: JsonObject)
    ensures "layout" in obj ==> NodeStep(obj) == NodeStep(map["layout" := obj["layout"]])
    ensures "layout" !in obj && "newline" in obj ==>
      NodeStep(obj) == Success(Emit(NewlineBlock(NewlineAmount(map["newline" := obj["newline"]]))))
    ensures "layout" !in obj && "newline" !in obj && "columns" in obj ==>
      NodeStep(obj) == NodeStep(map["columns" := obj["columns"]])
    ensures "layout" !in obj && "newline" !in obj && "columns" !in obj && "stack" in obj ==>
      NodeStep(obj) == NodeStep(map["stack" := obj["stack"]])
    ensures "layout" !in obj && "newline" !in obj && "columns" !in obj && "stack" !in obj ==>
      NodeStep(obj) == (match MakeSpan(obj) case Success(s) => Success(Emit(TextBlock(s))) case Failure(e) => Failure(e))
  {
  }

  /** A top-level `columns` array with other than 2 entries is an error. */
  lemma TopLevelColumnsArity(obj: JsonObject)
    requires "layout" !in obj && "newline" !in obj && "columns" in obj
    requires obj["columns"].Arr? && |obj["columns"].items| != 2
    ensures NodeStep(obj) == Failure(ColumnsArity(false, |obj["columns"].items|))
  {
  }

  /** A top-level `columns` array of two span objects becomes their two spans. */
  lemma TopLevelColumns(obj: JsonObject)
    requires "layout" !in obj && "newline" !in obj && "columns" in obj
    requires obj["columns"].Arr? && |obj["columns"].items| == 2
    requires obj["columns"].items[0].Obj? && obj["columns"].items[1].Obj?
    requires MakeSpan(obj["columns"].items[0].fields).Success? && MakeSpan(obj["columns"].items[1].fields).Success?
    ensures NodeStep(obj) == Success(Emit(ColumnsBlock(
      MakeSpan(obj["columns"].items[0].fields).value, MakeSpan(obj["columns"].items[1].fields).value)))
  {
  }

  // ----- Stacks -----

  predicate HasColumnsItem(item: Json) {
    item.Obj? && "columns" in item.fields
  }

  /** What the scan for `columns` finds. */
  lemma {:induction false} ScanMeaning(items: seq<Json>)
    ensures ScanHasColumns(items) == Success(true) ==> exists j :: 0 <= j < |items| && HasColumnsItem(items[j])
    ensures ScanHasColumns(items) == Success(false) ==>
      forall j :: 0 <= j < |items| ==> items[j].Obj? && !HasColumnsItem(items[j])
    ensures (forall j :: 0 <= j < |items| ==> items[j].Obj?) ==> ScanHasColumns(items).Success?
    ensures (exists j :: 0 <= j < |items| && HasColumnsItem(items[j]) &&
              forall k :: 0 <= k < j ==> items[k].Obj?) ==> ScanHasColumns(items) == Success(true)
    decreases |items|
  {
    if |items| > 0 {
      var rest := items[1..];
      ScanMeaning(rest);
      assert forall j :: 1 <= j < |items| ==> items[j] == rest[j - 1];
      if exists j :: 0 <= j < |items| && HasColumnsItem(items[j]) && forall k :: 0 <= k < j ==> items[k].Obj? {
        var j :| 0 <= j < |items| && HasColumnsItem(items[j]) && forall k :: 0 <= k < j ==> items[k].Obj?;
        if j > 0 && !HasColumnsItem(items[0]) {
          assert HasColumnsItem(rest[j - 1]) && forall k :: 0 <= k < j - 1 ==> rest[k].Obj?;
        }
      }
    }
  }

  /** A stack becomes a rows stack exactly when some item has `columns`. */
  lemma StackKind(stack: JsonObject)
    requires StackSpec(stack).Success?
    ensures StackSpec(stack).value.StackRowsBlock? || StackSpec(stack).value.StackBlock?
    ensures StackSpec(stack).value.StackRowsBlock? <==>
      exists j :: 0 <= j < |stack["items"].items| && HasColumnsItem(stack["items"].items[j])
  {
    ScanMeaning(stack["items"].items);
  }

  /** A rows stack has one row per item, in order; row j is a columns row
      exactly when item j has `columns`, and the multiplier is `rowMult`,
      else `lineMult`, else 1. */
  lemma RowsStackShape(stack: JsonObject)
    requires StackSpec(stack).Success? && StackSpec(stack).value.StackRowsBlock?
    ensures |StackSpec(stack).value.rows| == |stack["items"].items|
    ensures forall j :: 0 <= j < |stack["items"].items| ==>
      && ItemRow(stack["items"].items[j]) == Success(StackSpec(stack).value.rows[j])
      && (StackSpec(stack).value.rows[j].ColumnsRow? <==> HasColumnsItem(stack["items"].items[j]))
    ensures "rowMult" in stack && OptNumber(stack, "rowMult").Some? ==>
      StackSpec(stack).value.rowMult == OptNumber(stack, "rowMult").value
    ensures "rowMult" !in stack && "lineMult" in stack && OptNumber(stack, "lineMult").Some? ==>
      StackSpec(stack).value.rowMult == OptNumber(stack, "lineMult").value
    ensures "rowMult" !in stack && "lineMult" !in stack ==> StackSpec(stack).value.rowMult == 1.0
  {
    MapAllSuccess(stack["items"].items, ItemRow);
  }

  /** An item's `columns` array with other than 2 entries makes its stack
      fail wherever the item stands, and when the rows before it are well
      formed the error is the nested arity error. */
  lemma NestedColumnsArity(stack: JsonObject, j: nat)
    requires "items" in stack && stack["items"].Arr? && j < |stack["items"].items|
    requires HasColumnsItem(stack["items"].items[j])
    requires stack["items"].items[j].fields["columns"].Arr?
    requires |stack["items"].items[j].fields["columns"].items| != 2
    ensures StackSpec(stack).Failure?
    ensures (forall k :: 0 <= k < j ==> ItemRow(stack["items"].items[k]).Success?) ==>
      StackSpec(stack) == Failure(ColumnsArity(true, |stack["items"].items[j].fields["columns"].items|))
  {
    var items := stack["items"].items;
    ScanMeaning(items);
    assert ItemRow(items[j]).Failure?;
    MapAllFailure(items, ItemRow);
    if forall k :: 0 <= k < j ==> ItemRow(items[k]).Success? {
      assert forall k :: 0 <= k < j ==> items[k].Obj?;
      var i :| 0 <= i < |items| && ItemRow(items[i]).Failure? && MapAll(items, ItemRow).error == ItemRow(items[i]).error &&
        forall k :: 0 <= k < i ==> ItemRow(items[k]).Success?;
      assert i == j;
    }
  }

  /** Plain text distributes over concatenation. */
  lemma {:induction false} PlainTextAppend(a: AnnotatedString, b: AnnotatedString)
    ensures PlainText(a + b) == PlainText(a) + PlainText(b)
    decreases |b|
  {
    if |b| > 0 {
      assert (a + b)[..|a + b| - 1] == a + b[..|b| - 1];
      assert (a + b)[|a + b| - 1] == b[|b| - 1];
      PlainTextAppend(a, b[..|b| - 1]);
    } else {
      assert a + b == a;
    }
  }

  /** `joinToString("\n")`: the reference for the text of a text stack. */
  function JoinLines(lines: seq<string>): string
    decreases |lines|
  {
    if |lines| == 0 then ""
    else if |lines| == 1 then lines[0]
    else JoinLines(lines[..|lines| - 1]) + "\n" + lines[|lines| - 1]
  }

  function Texts(spans: seq<AnnotatedString>): (r: seq<string>)
    ensures |r| == |spans|
    ensures forall j :: 0 <= j < |spans| ==> r[j] == PlainText(spans[j])
  {
    seq(|spans|, j requires 0 <= j < |spans| => PlainText(spans[j]))
  }

  /** The text of joined spans is their texts joined by line breaks. */
  lemma {:induction false} JoinedPlainText(spans: seq<AnnotatedString>)
    ensures PlainText(Joined(spans)) == JoinLines(Texts(spans))
    decreases |spans|
  {
    if |spans| > 1 {
      var n := |spans| - 1;
      JoinedPlainText(spans[..n]);
      assert Texts(spans)[..n] == Texts(spans[..n]);
      PlainTextAppend(Joined(spans[..n]) + Separator, spans[n]);
      PlainTextAppend(Joined(spans[..n]), Separator);
      assert PlainText(Separator) == "\n" by {
        assert Separator[..0] == [];
      }
    } else if |spans| == 1 {
      assert Texts(spans) == [PlainText(spans[0])];
    }
  }

  /** The text of a span is the `text` field, or "" without one. */
  lemma MakeSpanText(obj: JsonObject)
    requires MakeSpan(obj).Success?
    ensures PlainText(MakeSpan(obj).value) == OptString(obj, "text").GetOr("")
  {
    var a := MakeSpan(obj).value;
    assert a[..0] == [];
  }

  /** The `text` of every item, in order. */
  function ItemTexts(items: seq<Json>): (r: seq<string>)
    ensures |r| == |items|
  {
    seq(|items|, j requires 0 <= j < |items| => if items[j].Obj? then OptString(items[j].fields, "text").GetOr("") else "")
  }

  /** A text-only stack: no item has `columns`; its text is the items' texts
      joined by "\n"; each item keeps its own span, with unstyled separators
      between them; and the line height follows `lineHeight`, else
      `lineMult` times the largest size, else is unset, whatever `rowMult`
      says. */
  lemma TextStackShape(stack: JsonObject)
    requires StackSpec(stack).Success? && StackSpec(stack).value.StackBlock?
    ensures forall j :: 0 <= j < |stack["items"].items| ==> !HasColumnsItem(stack["items"].items[j])
    ensures PlainText(StackSpec(stack).value.content) == JoinLines(ItemTexts(stack["items"].items))
    ensures StackSpec(stack).value.lineHeightSp == LineHeightOf(stack - {"rowMult"}, MaxSize(stack["items"].items))
  {
    var items := stack["items"].items;
    TextStackUnfold(stack);
    ScanMeaning(items);
    SpansText(items);
    JoinedPlainText(MapAll(items, ItemSpan).value);
    LineHeightIgnoresRowMult(stack, MaxSize(items));
  }

  /** What a text stack is made of. */
  lemma TextStackUnfold(stack: JsonObject)
    requires StackSpec(stack).Success? && StackSpec(stack).value.StackBlock?
    ensures "items" in stack && stack["items"].Arr?
    ensures ScanHasColumns(stack["items"].items) == Success(false)
    ensures MapAll(stack["items"].items, ItemSpan).Success?
    ensures StackSpec(stack).value.content == Joined(MapAll(stack["items"].items, ItemSpan).value)
    ensures StackSpec(stack).value.lineHeightSp == LineHeightOf(stack, MaxSize(stack["items"].items))
  {
  }

  lemma LineHeightIgnoresRowMult(stack: JsonObject, maxSizeSp: real)
    ensures LineHeightOf(stack - {"rowMult"}, maxSizeSp) == LineHeightOf(stack, maxSizeSp)
  {
    var t := stack - {"rowMult"};
    assert "lineHeight" in t <==> "lineHeight" in stack;
    assert "lineMult" in t <==> "lineMult" in stack;
    assert "lineHeight" in t ==> t["lineHeight"] == stack["lineHeight"];
    assert "lineMult" in t ==> t["lineMult"] == stack["lineMult"];
  }

  /** The texts of a text stack's spans are its items' texts. */
  lemma SpansText(items: seq<Json>)
    requires MapAll(items, ItemSpan).Success?
    ensures Texts(MapAll(items, ItemSpan).value) == ItemTexts(items)
  {
    var spans := MapAll(items, ItemSpan).value;
    MapAllSuccess(items, ItemSpan);
    forall j | 0 <= j < |items| ensures Texts(spans)[j] == ItemTexts(items)[j] {
      MakeSpanText(items[j].fields);
    }
  }

  /** `maxSizeSp` is the largest of 16 and every explicit item size. */
  lemma {:induction false} MaxSizeIsLargest(items: seq<Json>)
    ensures MaxSize(items) >= 16.0
    ensures forall j :: 0 <= j < |items| && ItemSize(items[j]).Some? ==> ItemSize(items[j]).value <= MaxSize(items)
    ensures MaxSize(items) == 16.0 ||
      exists j :: 0 <= j < |items| && ItemSize(items[j]) == Some(MaxSize(items))
    decreases |items|
  {
    if |items| > 0 {
      var n := |items| - 1;
      MaxSizeIsLargest(items[..n]);
      assert forall j :: 0 <= j < n ==> items[..n][j] == items[j];
    }
  }

  /** The two-item example: "A\nB", no trailing separator. */
  lemma TextStackExample()
    ensures StackSpec(map["items" := Arr([Obj(map["text" := Str("A")]), Obj(map["text" := Str("B")])])])
      == Success(StackBlock(
           [Run("A", Some(SpanStyle(None, None, false, false))), Run("\n", None),
            Run("B", Some(SpanStyle(None, None, false, false)))],
           Unspecified))
  {
    var items := [Obj(map["text" := Str("A")]), Obj(map["text" := Str("B")])];
    var plain := Some(SpanStyle(None, None, false, false));
    var a := [Run("A", plain)];
    var b := [Run("B", plain)];
    assert items[1..][1..] == [];
    assert ScanHasColumns(items[1..]) == Success(false);
    assert ScanHasColumns(items) == Success(false);
    assert MakeSpan(map["text" := Str("A")]) == Success(a);
    assert MakeSpan(map["text" := Str("B")]) == Success(b);
    assert ItemSpan(items[0]) == Success(a);
    assert ItemSpan(items[1]) == Success(b);
    assert items[..0] == [] && items[..2] == items;
    assert MapAll(items[..0], ItemSpan) == Success([]);
    MapAllStep(items, ItemSpan, 0);
    var f: Json -> Result<AnnotatedString, ParseError> := ItemSpan;
    assert f(items[0]) == Success(a);
    var none: seq<AnnotatedString> := [];
    assert MapAll(items[..1], ItemSpan) == Success(none + [a]);
    assert none + [a] == [a];
    assert MapAll(items[..1], ItemSpan) == Success([a]);
    MapAllStep(items, ItemSpan, 1);
    var justA: seq<AnnotatedString> := [a];
    assert f(items[1]) == Success(b);
    assert MapAll(items[..2], ItemSpan) == Success(justA + [b]);
    assert justA + [b] == [a, b];
    assert MapAll(items, ItemSpan) == Success([a, b]);
    var both: seq<AnnotatedString> := [a, b];
    assert both[..1] == justA;
    assert Joined(both) == a + Separator + b;
    var stack := map["items" := Arr(items)];
    assert LineHeightOf(stack, MaxSize(items)) == Unspecified;
    assert a + Separator + b == [Run("A", plain), Run("\n", None), Run("B", plain)];
    assert StackSpec(stack) == Success(StackBlock(Joined(both), Unspecified));
  }

  /** A span object's defaults: no text, no size, not bold, not italic, no
      color. */
  lemma MakeSpanDefaults()
    ensures MakeSpan(map[]) == Success([Run("", Some(SpanStyle(None, None, false, false)))])
    ensures MakeSpan(map["color" := Str("  ")]) == Success([Run("", Some(SpanStyle(None, None, false, false)))])
    ensures MakeSpan(map["color" := Null]) == Failure(InvalidColor(BadColor("null")))
  {
    assert !IsWhitespace("null"[0]);
    assert Lower("null") == "null";
    assert StripHash("null") == "null";
    Utf16LengthOfBmp("null");
  }
}
