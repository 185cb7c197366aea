/** The arithmetic of `RichNotesPreview` (search.kt:336-372) and of the
    `TightStackRows` layout (search.kt:378-420): the spacer a newline block
    becomes, and where the rows of a rows stack are placed. Row heights are
    the measured heights of the rows, in pixels; measuring text is not part
    of this model. */
module Preview {
  import opened Wrappers
  import opened Json
  import opened NotesModel
  import opened NotesParser

  /** `BASE`: the height, in dp, of one unit of fractional newline. */
  const Base: real := 4.0

  /** The spacer height of a newline block of the given amount. */
  function SpacerHeight(amount: real): real {
    Base * amount
  }

  /** A newline node becomes a spacer 4 dp per unit of its amount, never a
      negative one: a non-numeric or missing amount is one unit, a negative
      one is none. */
  lemma NewlineSpacer(obj: JsonObject)
    requires "layout" !in obj && "newline" in obj
    ensures NodeStep(obj).Success? && NodeStep(obj).value.Emit? && NodeStep(obj).value.block.NewlineBlock?
    ensures SpacerHeight(NodeStep(obj).value.block.amount) >= 0.0
    ensures obj["newline"].Num? && obj["newline"].n >= 0.0 ==>
      SpacerHeight(NodeStep(obj).value.block.amount) == Base * obj["newline"].n
    ensures obj["newline"].Num? && obj["newline"].n < 0.0 ==> SpacerHeight(NodeStep(obj).value.block.amount) == 0.0
    ensures !obj["newline"].Num? ==> SpacerHeight(NodeStep(obj).value.block.amount) == Base
  {
  }

  /** `{"newline": -5}` is clamped to no space, `{"newline": 2.5}` is 10 dp. */
  lemma NewlineExamples()
    ensures NodeStep(map["newline" := Num(-5.0)]) == Success(Emit(NewlineBlock(0.0)))
    ensures SpacerHeight(0.0) == 0.0
    ensures NodeStep(map["newline" := Num(2.5)]) == Success(Emit(NewlineBlock(2.5)))
    ensures SpacerHeight(2.5) == 10.0
    ensures NodeStep(map["newline" := Null]) == Success(Emit(NewlineBlock(1.0)))
  {
  }

  // ----- TightStackRows -----

  /** Kotlin's `roundToInt` on a float: the nearest integer, ties rounded up. */
  function RoundHalfUp(x: real): (r: int)
    ensures r as real - 0.5 <= x < r as real + 0.5
  {
    (x + 0.5).Floor
  }

  /** `(p.height * rowMult).roundToInt()`: how far a row moves the next one down. */
  function Advance(h: nat, rowMult: real): int {
    RoundHalfUp(h as real * rowMult)
  }

  /** The sum of the advances of `heights`. */
  function AdvanceSum(heights: seq<nat>, rowMult: real): int
    decreases |heights|
  {
    if |heights| == 0 then 0
    else AdvanceSum(heights[..|heights| - 1], rowMult) + Advance(heights[|heights| - 1], rowMult)
  }

  /** Row i is placed at the sum of the advances of the rows above it. */
  function Offsets(heights: seq<nat>, rowMult: real): (r: seq<int>)
    ensures |r| == |heights|
  {
    seq(|heights|, i requires 0 <= i < |heights| => AdvanceSum(heights[..i], rowMult))
  }

  /** The reported height: where the last row starts plus its full height;
      0 for no rows. */
  function TotalHeight(heights: seq<nat>, rowMult: real): int {
    if |heights| == 0 then 0
    else AdvanceSum(heights[..|heights| - 1], rowMult) + heights[|heights| - 1]
  }

  lemma AdvanceSumStep(heights: seq<nat>, rowMult: real, k: nat)
    requires k < |heights|
    ensures AdvanceSum(heights[..k + 1], rowMult) == AdvanceSum(heights[..k], rowMult) + Advance(heights[k], rowMult)
  {
    assert heights[..k + 1][..k] == heights[..k];
  }

  lemma AdvanceBounds(h: nat, rowMult: real)
    ensures rowMult >= 1.0 ==> Advance(h, rowMult) >= h
    ensures 0.0 <= rowMult <= 1.0 ==> 0 <= Advance(h, rowMult) <= h
  {
    var x := h as real * rowMult;
    if rowMult >= 1.0 {
      assert x >= h as real;
    }
    if 0.0 <= rowMult <= 1.0 {
      assert h as real * (1.0 - rowMult) >= 0.0;
      assert 0.0 <= x <= h as real;
    }
  }

  /** The measure pass and the place pass of `TightStackRows`: the first
      loop finds the total height from the last row's start and height, the
      second places every row and moves down by its rounded advance. */
  method PackRows(heights: seq<nat>, rowMult: real) returns (offsets: seq<int>, totalHeight: int)
    ensures offsets == Offsets(heights, rowMult)
    ensures totalHeight == TotalHeight(heights, rowMult)
  {
    var y := 0;
    var lastStartY := 0;
    var lastH := 0;
    var idx := 0;
    while idx < |heights|
      invariant 0 <= idx <= |heights|
      invariant y == AdvanceSum(heights[..idx], rowMult)
      invariant idx == |heights| > 0 ==>
        lastStartY == AdvanceSum(heights[..|heights| - 1], rowMult) && lastH == heights[|heights| - 1]
    {
      var startY := y;
      AdvanceSumStep(heights, rowMult, idx);
      y := y + Advance(heights[idx], rowMult);
      if idx == |heights| - 1 {
        lastStartY := startY;
        lastH := heights[idx];
      }
      idx := idx + 1;
    }
    totalHeight := if |heights| == 0 then 0 else lastStartY + lastH;

    offsets := [];
    var yy := 0;
    var k := 0;
    while k < |heights|
      invariant 0 <= k <= |heights|
      invariant |offsets| == k
      invariant forall i :: 0 <= i < k ==> offsets[i] == AdvanceSum(heights[..i], rowMult)
      invariant yy == AdvanceSum(heights[..k], rowMult)
    {
      offsets := offsets + [yy];
      AdvanceSumStep(heights, rowMult, k);
      yy := yy + Advance(heights[k], rowMult);
      k := k + 1;
    }
  }

  function Sum(heights: seq<nat>): nat
    decreases |heights|
  {
    if |heights| == 0 then 0 else Sum(heights[..|heights| - 1]) + heights[|heights| - 1]
  }

  /** With `rowMult` 1 the rows are stacked edge to edge: the advances are
      the heights themselves. */
  lemma {:induction false} UnitAdvanceSum(heights: seq<nat>)
    ensures AdvanceSum(heights, 1.0) == Sum(heights)
    decreases |heights|
  {
    if |heights| > 0 {
      UnitAdvanceSum(heights[..|heights| - 1]);
    }
  }

  /** `rowMult` 1: each row starts where the rows above it end, and the total
      is the sum of all heights. */
  lemma UnitMultiplier(heights: seq<nat>)
    ensures forall i :: 0 <= i < |heights| ==> Offsets(heights, 1.0)[i] == Sum(heights[..i])
    ensures TotalHeight(heights, 1.0) == Sum(heights)
  {
    forall i | 0 <= i < |heights| ensures Offsets(heights, 1.0)[i] == Sum(heights[..i]) {
      UnitAdvanceSum(heights[..i]);
    }
    if |heights| > 0 {
      UnitAdvanceSum(heights[..|heights| - 1]);
    }
  }

  /** A non-negative multiplier never moves a row above the previous one. */
  lemma {:induction false} OffsetsMonotone(heights: seq<nat>, rowMult: real, i: nat, j: nat)
    requires 0.0 <= rowMult && i <= j <= |heights|
    ensures AdvanceSum(heights[..i], rowMult) <= AdvanceSum(heights[..j], rowMult)
    decreases j - i
  {
    if i < j {
      AdvanceSumStep(heights, rowMult, j - 1);
      assert Advance(heights[j - 1], rowMult) >= 0 by {
        assert heights[j - 1] as real * rowMult >= 0.0;
      }
      OffsetsMonotone(heights, rowMult, i, j - 1);
    }
  }

  /** `rowMult` at least 1: no row overlaps the next, and the total covers
      every row. */
  lemma NoOverlap(heights: seq<nat>, rowMult: real)
    requires rowMult >= 1.0
    ensures forall i :: 0 <= i < |heights| - 1 ==> Offsets(heights, rowMult)[i] + heights[i] <= Offsets(heights, rowMult)[i + 1]
    ensures forall i :: 0 <= i < |heights| ==> Offsets(heights, rowMult)[i] + heights[i] <= TotalHeight(heights, rowMult)
  {
    forall i | 0 <= i < |heights|
      ensures i < |heights| - 1 ==> Offsets(heights, rowMult)[i] + heights[i] <= Offsets(heights, rowMult)[i + 1]
      ensures Offsets(heights, rowMult)[i] + heights[i] <= TotalHeight(heights, rowMult)
    {
      AdvanceSumStep(heights, rowMult, i);
      AdvanceBounds(heights[i], rowMult);
      if i < |heights| - 1 {
        OffsetsMonotone(heights, rowMult, i + 1, |heights| - 1);
      }
    }
  }

  /** `rowMult` between 0 and 1: each row starts no lower than the previous
      row's bottom edge, so neighbouring rows touch or overlap. */
  lemma Overlap(heights: seq<nat>, rowMult: real)
    requires 0.0 <= rowMult <= 1.0
    ensures forall i :: 0 <= i < |heights| - 1 ==> Offsets(heights, rowMult)[i + 1] <= Offsets(heights, rowMult)[i] + heights[i]
    ensures forall i, j :: 0 <= i <= j < |heights| ==> Offsets(heights, rowMult)[i] <= Offsets(heights, rowMult)[j]
  {
    forall i | 0 <= i < |heights| - 1
      ensures Offsets(heights, rowMult)[i + 1] <= Offsets(heights, rowMult)[i] + heights[i]
    {
      AdvanceSumStep(heights, rowMult, i);
      AdvanceBounds(heights[i], rowMult);
    }
    forall i, j | 0 <= i <= j < |heights|
      ensures Offsets(heights, rowMult)[i] <= Offsets(heights, rowMult)[j]
    {
      OffsetsMonotone(heights, rowMult, i, j);
    }
  }

  /** Ties round up, also below zero. */
  lemma RoundingExamples()
    ensures RoundHalfUp(2.5) == 3 && RoundHalfUp(2.4) == 2
    ensures RoundHalfUp(-2.5) == -2 && RoundHalfUp(-2.6) == -3
    ensures Advance(5, 0.5) == 3
  {
  }

  /** Two 40 px rows at half spacing: the second starts at 20 and the layout
      is 60 px high. */
  lemma HalfSpacingExample()
    ensures Offsets([40, 40], 0.5) == [0, 20]
    ensures TotalHeight([40, 40], 0.5) == 60
  {
    var hs: seq<nat> := [40, 40];
    assert hs[..0] == [] && hs[..1] == [40];
    assert hs[..1][..0] == [];
    assert AdvanceSum(hs[..1], 0.5) == 20;
  }

  /** A tall first row under a small multiplier reaches below the reported
      height: the total counts only the last row in full. */
  lemma OverhangExample()
    ensures Offsets([100, 10], 0.1) == [0, 10]
    ensures TotalHeight([100, 10], 0.1) == 20
    ensures Offsets([100, 10], 0.1)[0] + 100 > TotalHeight([100, 10], 0.1)
  {
    var hs: seq<nat> := [100, 10];
    assert hs[..0] == [] && hs[..1] == [100];
    assert hs[..1][..0] == [];
    assert AdvanceSum(hs[..1], 0.1) == 10;
  }

  /** No rows: nothing placed, height 0. */
  lemma EmptyRows(rowMult: real)
    ensures Offsets([], rowMult) == [] && TotalHeight([], rowMult) == 0
  {
  }
}
