/**
 * `match_dimensions` of WorkingDetection/logic/json_parser.py: the measured
 * dimensions and each stack item's dimensions are both sorted ascending, and
 * the first item whose every sorted dimension lies within the relative
 * tolerance `|m - d| / d <= tol` gives the product id. Items with a missing
 * dimension or product id are skipped, and so are items whose checks raise
 * (a zero reference dimension divides by zero); the search goes on past them.
 * The stack data, loaded from a file at import in the source, is a parameter.
 */
module JsonMatcher {
  import opened Wrappers
  import opened Numbers

  /** One entry of the stack data: `length_mm`, `width_mm`, `height_mm`, `product_id`; None when absent or null. */
  datatype Item = Item(length: Option<real>, width: Option<real>, height: Option<real>, productId: Option<string>)

  /** The item's dimensions sorted ascending, or None when one is missing (sorting or the `None in dims` test skips it). */
  function Dims(item: Item): (r: Option<seq<real>>)
    ensures r.Some? ==> |r.value| == 3 && r.value[0] <= r.value[1] <= r.value[2]
    ensures r.Some? <==> item.length.Some? && item.width.Some? && item.height.Some?
  {
    if item.length.None? || item.width.None? || item.height.None? then None
    else Some(SortAsc3(item.length.value, item.width.value, item.height.value))
  }

  /** The item is passed over without being compared: a missing field, or a zero dimension the relative difference divides by. */
  predicate Skipped(item: Item) {
    Dims(item).None? || item.productId.None? || 0.0 in Dims(item).value
  }

  /** `abs(a - b) / b` for each sorted position. */
  function RelativeDiffs(measured: seq<real>, dims: seq<real>): (r: seq<real>)
    requires |measured| == 3 && |dims| == 3 && 0.0 !in dims
    ensures |r| == 3
  {
    [Abs(measured[0] - dims[0]) / dims[0], Abs(measured[1] - dims[1]) / dims[1], Abs(measured[2] - dims[2]) / dims[2]]
  }

  /** The item is compared and every relative difference is at most the tolerance. */
  predicate Qualifies(tol: real, measured: seq<real>, item: Item)
    requires |measured| == 3
  {
    !Skipped(item) && forall k :: 0 <= k < 3 ==> RelativeDiffs(measured, Dims(item).value)[k] <= tol
  }

  /** The index of the first qualifying item at or after position i. */
  function FirstFrom(tol: real, measured: seq<real>, stack: seq<Item>, i: nat): (r: Option<nat>)
    requires |measured| == 3 && i <= |stack|
    ensures r.Some? ==> i <= r.value < |stack|
    decreases |stack| - i
  {
    if i == |stack| then None
    else if Qualifies(tol, measured, stack[i]) then Some(i)
    else FirstFrom(tol, measured, stack, i + 1)
  }

  /** What `match_dimensions(length, width, height)` returns: the product id and whether there was a match. */
  function Match(tol: real, length: real, width: real, height: real, stack: seq<Item>): (Option<string>, bool) {
    match FirstFrom(tol, SortAsc3(length, width, height), stack, 0)
    case None => (None, false)
    case Some(k) => (stack[k].productId, true)
  }

  /**
   * The search from position i finds something iff an item at or after i
   * qualifies; what it finds qualifies and nothing between i and it does.
   */
  lemma {:induction false} FirstFromIsFirst(tol: real, measured: seq<real>, stack: seq<Item>, i: nat)
    requires |measured| == 3 && i <= |stack|
    ensures FirstFrom(tol, measured, stack, i).Some? <==>
              exists j :: i <= j < |stack| && Qualifies(tol, measured, stack[j])
    ensures FirstFrom(tol, measured, stack, i).Some? ==>
              Qualifies(tol, measured, stack[FirstFrom(tol, measured, stack, i).value]) &&
              forall j :: i <= j < FirstFrom(tol, measured, stack, i).value ==> !Qualifies(tol, measured, stack[j])
    decreases |stack| - i
  {
    if i < |stack| && !Qualifies(tol, measured, stack[i]) {
      FirstFromIsFirst(tol, measured, stack, i + 1);
    }
  }

  /**
   * `(product_id, True)` for the first qualifying item in list order iff some
   * item qualifies, and `(None, False)` otherwise.
   */
  lemma MatchIsFirstQualifying(tol: real, length: real, width: real, height: real, stack: seq<Item>)
    ensures Match(tol, length, width, height, stack).1 <==>
              exists k :: 0 <= k < |stack| && Qualifies(tol, SortAsc3(length, width, height), stack[k])
    ensures !Match(tol, length, width, height, stack).1 ==> Match(tol, length, width, height, stack).0 == None
    ensures Match(tol, length, width, height, stack).1 ==>
              exists k :: 0 <= k < |stack| && Qualifies(tol, SortAsc3(length, width, height), stack[k]) &&
                Match(tol, length, width, height, stack).0 == stack[k].productId &&
                stack[k].productId.Some? &&
                forall j :: 0 <= j < k ==> !Qualifies(tol, SortAsc3(length, width, height), stack[j])
  {
    FirstFromIsFirst(tol, SortAsc3(length, width, height), stack, 0);
  }

  /** The measured dimensions are sorted first, so their order does not matter. */
  lemma MatchIgnoresOrder(tol: real, a: real, b: real, c: real, stack: seq<Item>)
    ensures Match(tol, a, b, c, stack) == Match(tol, b, a, c, stack)
    ensures Match(tol, a, b, c, stack) == Match(tol, a, c, b, stack)
    ensures Match(tol, a, b, c, stack) == Match(tol, c, b, a, stack)
  {
    SortDesc3Symmetric(a, b, c);
  }

  /** An item with a zero dimension never matches: its division by zero is caught and the item skipped. */
  lemma ZeroDimensionNeverMatches(tol: real, measured: seq<real>, item: Item)
    requires |measured| == 3
    requires item.length == Some(0.0) || item.width == Some(0.0) || item.height == Some(0.0)
    ensures !Qualifies(tol, measured, item)
  {
    if Dims(item).Some? {
      SortPermutes(item.length.value, item.width.value, item.height.value);
      var d := SortDesc3(item.length.value, item.width.value, item.height.value);
      assert 0.0 in d;
      assert Dims(item).value == [d[2], d[1], d[0]];
    }
  }

  /** A skipped item does not stop the search: removing it leaves the result unchanged. */
  lemma SkippedItemIrrelevant(tol: real, length: real, width: real, height: real, stack: seq<Item>, i: nat)
    requires i < |stack| && Skipped(stack[i])
    ensures Match(tol, length, width, height, stack) == Match(tol, length, width, height, stack[..i] + stack[i + 1..])
  {
    var m := SortAsc3(length, width, height);
    var rest := stack[..i] + stack[i + 1..];
    FirstFromIsFirst(tol, m, stack, 0);
    FirstFromIsFirst(tol, m, rest, 0);
    forall j | 0 <= j < |rest| ensures rest[j] == stack[if j < i then j else j + 1] { }
    var f1, f2 := FirstFrom(tol, m, stack, 0), FirstFrom(tol, m, rest, 0);
    if f1.Some? {
      var k := f1.value;
      var k' := if k < i then k else k - 1;
      assert k != i;
      assert rest[k'] == stack[k];
      assert f2.Some? && f2.value == k';
    }
  }

  /** A negative reference dimension passes its position whatever was measured, since the relative difference is then negative. */
  lemma NegativeReferencePasses(tol: real, measured: seq<real>, pid: string)
    requires |measured| == 3 && tol >= 0.0
    ensures Qualifies(tol, measured, Item(Some(-1.0), Some(-1.0), Some(-1.0), Some(pid)))
  {
    var dims := [-1.0, -1.0, -1.0];
    assert Dims(Item(Some(-1.0), Some(-1.0), Some(-1.0), Some(pid))).value == dims;
    forall k | 0 <= k < 3 ensures Abs(measured[k] - dims[k]) / dims[k] <= tol {
      assert Abs(measured[k] - dims[k]) / dims[k] == -Abs(measured[k] - dims[k]);
    }
  }

  const Loose: Item := Item(Some(610.0), Some(400.0), Some(200.0), Some("A"))
  const Exact: Item := Item(Some(600.0), Some(400.0), Some(200.0), Some("B"))

  /** The first match is returned, not the closest: "A" is within 10% and listed before the exact "B". */
  lemma ExampleFirstNotBest()
    ensures Match(0.10, 400.0, 200.0, 600.0, [Loose, Exact]) == (Some("A"), true)
  {
    var m := SortAsc3(400.0, 200.0, 600.0);
    assert m == [200.0, 400.0, 600.0];
    assert Dims(Loose).value == [200.0, 400.0, 610.0];
    assert RelativeDiffs(m, Dims(Loose).value)[2] == 10.0 / 610.0;
    assert Qualifies(0.10, m, Loose);
  }

  /** An item with a zero dimension ahead of a match is passed over. */
  lemma ExampleZeroSkipped()
    ensures Match(0.10, 600.0, 400.0, 200.0, [Item(Some(0.0), Some(400.0), Some(200.0), Some("Z")), Exact]) == (Some("B"), true)
  {
    var z := Item(Some(0.0), Some(400.0), Some(200.0), Some("Z"));
    var m := SortAsc3(600.0, 400.0, 200.0);
    assert m == [200.0, 400.0, 600.0];
    var s := [z, Exact];
    ZeroDimensionNeverMatches(0.10, m, z);
    assert Dims(Exact).value == [200.0, 400.0, 600.0];
    assert Qualifies(0.10, m, Exact);
    assert FirstFrom(0.10, m, s, 1) == Some(1);
    assert FirstFrom(0.10, m, s, 0) == Some(1);
  }

  /** `match_dimensions`: a linear search that returns at the first item passing every check. */
  method MatchDimensions(tol: real, length: real, width: real, height: real, stackData: seq<Item>)
    returns (productId: Option<string>, matched: bool)
    ensures (productId, matched) == Match(tol, length, width, height, stackData)
  {
    var measured := SortAsc3(length, width, height);
    var i := 0;
    while i < |stackData|
      invariant 0 <= i <= |stackData|
      invariant FirstFrom(tol, measured, stackData, 0) == FirstFrom(tol, measured, stackData, i)
    {
      var item := stackData[i];
      if item.length.None? || item.width.None? || item.height.None? || item.productId.None? {
        assert Skipped(item);
        i := i + 1;
        continue;
      }
      var dims := SortAsc3(item.length.value, item.width.value, item.height.value);
      if dims[0] == 0.0 || dims[1] == 0.0 || dims[2] == 0.0 {
        // the division raises and the item is skipped
        assert Skipped(item);
        i := i + 1;
        continue;
      }
      assert Dims(item) == Some(dims);
      var diffs := RelativeDiffs(measured, dims);
      if diffs[0] <= tol && diffs[1] <= tol && diffs[2] <= tol {
        assert Qualifies(tol, measured, item);
        return item.productId, true;
      }
      assert !Qualifies(tol, measured, item);
      i := i + 1;
    }
    return None, false;
  }
}
