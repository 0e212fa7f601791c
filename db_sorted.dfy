/**
 * `find_best_match` of interfaces/dbConnector.py: the detected dimensions and
 * every catalog row's dimensions are sorted largest first; each sorted position
 * except the one where the detected height landed must agree within tolerance,
 * the shape column must name the detected shape, and among the rows that pass
 * the one with the smallest total deviation over all three positions wins, the
 * earliest on a tie. The catalog query is the parameter `candidates`.
 */
module SortedMatcher {
  import opened Wrappers
  import opened Numbers
  import opened Shapes
  import opened Catalog
  import opened ArgMin

  /** `list.index`: the first position holding h. */
  function HIndex(dims: seq<real>, h: real): (i: nat)
    requires h in dims
    ensures i < |dims| && dims[i] == h
    ensures forall j :: 0 <= j < i ==> dims[j] != h
  {
    if dims[0] == h then 0 else 1 + HIndex(dims[1..], h)
  }

  /** The detected dimensions sorted largest first. */
  function Detected(l: real, w: real, h: real): seq<real> {
    SortDesc3(l, w, h)
  }

  /** Where the detected height lies among the sorted detected dimensions; never -1. */
  function HeightSlot(l: real, w: real, h: real): (i: nat)
    ensures i < 3
  {
    var d := Detected(l, w, h);
    SortPermutes(l, w, h);
    HIndex(d, h)
  }

  /** A row's dimensions sorted largest first. */
  function RowDims(box: CatalogBox): seq<real> {
    SortDesc3(box.length, box.width, box.height)
  }

  /** Sum of the absolute differences at the three sorted positions. */
  function Deviation(a: seq<real>, b: seq<real>): (d: real)
    requires |a| == 3 && |b| == 3
    ensures d >= 0.0
    ensures d == 0.0 <==> a == b
  {
    Abs(a[0] - b[0]) + Abs(a[1] - b[1]) + Abs(a[2] - b[2])
  }

  /** Every sorted position except `skip` agrees within tolerance. */
  predicate Gated(tol: real, d: seq<real>, skip: nat, r: seq<real>)
    requires |d| == 3 && |r| == 3
  {
    forall i :: 0 <= i < 3 && i != skip ==> WithinTolerance(tol, d[i], r[i])
  }

  /** A row passes: every sorted position but the height's is within tolerance, and the shape matches. */
  predicate Qualifies(tol: real, l: real, w: real, h: real, shape: Shape, box: CatalogBox) {
    Gated(tol, Detected(l, w, h), HeightSlot(l, w, h), RowDims(box)) && ParseShape(box.shape) == shape
  }

  /** A row's score: its deviation when it passes, none otherwise. */
  function Score(tol: real, l: real, w: real, h: real, shape: Shape, box: CatalogBox): Option<real> {
    if Qualifies(tol, l, w, h, shape, box) then Some(Deviation(Detected(l, w, h), RowDims(box))) else None
  }

  function Scores(tol: real, l: real, w: real, h: real, shape: Shape, candidates: seq<CatalogBox>): (s: seq<Option<real>>)
    ensures |s| == |candidates|
    ensures forall i :: 0 <= i < |s| ==> s[i] == Score(tol, l, w, h, shape, candidates[i])
  {
    seq(|candidates|, i requires 0 <= i < |candidates| => Score(tol, l, w, h, shape, candidates[i]))
  }

  /** The row `find_best_match` returns, if any. */
  function BestMatch(tol: real, l: real, w: real, h: real, shape: Shape, candidates: seq<CatalogBox>): Option<CatalogBox> {
    match Winner(Scores(tol, l, w, h, shape, candidates))
    case None => None
    case Some(i) => Some(candidates[i])
  }

  /**
   * A row is found iff some row passes; the row found passes, has the smallest
   * deviation of all passing rows, and every earlier passing row has a strictly
   * larger deviation.
   */
  lemma BestMatchIsEarliestBest(tol: real, l: real, w: real, h: real, shape: Shape, candidates: seq<CatalogBox>)
    ensures BestMatch(tol, l, w, h, shape, candidates).Some? <==>
              exists i :: 0 <= i < |candidates| && Qualifies(tol, l, w, h, shape, candidates[i])
    ensures BestMatch(tol, l, w, h, shape, candidates).Some? ==>
              exists i :: 0 <= i < |candidates| && candidates[i] == BestMatch(tol, l, w, h, shape, candidates).value &&
                Qualifies(tol, l, w, h, shape, candidates[i]) &&
                (forall j :: 0 <= j < |candidates| && Qualifies(tol, l, w, h, shape, candidates[j]) ==>
                   Deviation(Detected(l, w, h), RowDims(candidates[i])) <= Deviation(Detected(l, w, h), RowDims(candidates[j]))) &&
                (forall j :: 0 <= j < i && Qualifies(tol, l, w, h, shape, candidates[j]) ==>
                   Deviation(Detected(l, w, h), RowDims(candidates[j])) > Deviation(Detected(l, w, h), RowDims(candidates[i])))
  {
    var scores := Scores(tol, l, w, h, shape, candidates);
    WinnerIsEarliestMinimum(scores);
    if Winner(scores).None? {
      forall i | 0 <= i < |candidates| ensures !Qualifies(tol, l, w, h, shape, candidates[i]) {
        assert scores[i].None?;
      }
    } else {
      var i := Winner(scores).value;
      assert scores[i].Some?;
    }
  }

  /** Swapping the detected length and width never changes the result. */
  lemma SwapLengthWidth(tol: real, l: real, w: real, h: real, shape: Shape, candidates: seq<CatalogBox>)
    ensures BestMatch(tol, l, w, h, shape, candidates) == BestMatch(tol, w, l, h, shape, candidates)
  {
    SortDesc3Symmetric(l, w, h);
    assert Scores(tol, l, w, h, shape, candidates) == Scores(tol, w, l, h, shape, candidates);
  }

  /**
   * The sorted position of the detected height is not gated: a detected
   * 300 x 200 x 100 box matches a catalog 300 x 200 x 5 box.
   */
  lemma ExampleHeightNotGated(tol: real)
    requires tol >= 0.0
    ensures Qualifies(tol, 300.0, 200.0, 100.0, Box, CatalogBox(1, 300.0, 200.0, 5.0, "box"))
  {
    assert Detected(300.0, 200.0, 100.0) == [300.0, 200.0, 100.0];
    assert HeightSlot(300.0, 200.0, 100.0) == 2;
    assert RowDims(CatalogBox(1, 300.0, 200.0, 5.0, "box")) == [300.0, 200.0, 5.0];
  }

  /** The inner `for i in range(3)` loop: skips the height's position and stops at the first miss. */
  method PassesGate(tol: real, sortedDetected: seq<real>, hIndex: nat, sortedDb: seq<real>) returns (matched: bool)
    requires |sortedDetected| == 3 && |sortedDb| == 3
    ensures matched <==> Gated(tol, sortedDetected, hIndex, sortedDb)
  {
    matched := true;
    var k := 0;
    while k < 3
      invariant 0 <= k <= 3
      invariant forall j :: 0 <= j < k && j != hIndex ==> WithinTolerance(tol, sortedDetected[j], sortedDb[j])
    {
      if k != hIndex && !WithinTolerance(tol, sortedDetected[k], sortedDb[k]) {
        matched := false;
        break;
      }
      k := k + 1;
    }
  }

  /** The first loop of `find_best_match`: the indices of the rows that pass, in order. */
  method CollectPotential(tol: real, l: real, w: real, h: real, shape: Shape, candidates: seq<CatalogBox>)
    returns (potential: seq<nat>)
    ensures potential == Present(Scores(tol, l, w, h, shape, candidates), |candidates|)
  {
    var sortedDetected := SortDesc3(l, w, h);
    var hIndex := HeightSlot(l, w, h);
    ghost var scores := Scores(tol, l, w, h, shape, candidates);
    potential := [];
    var i := 0;
    while i < |candidates|
      invariant 0 <= i <= |candidates|
      invariant potential == Present(scores, i)
    {
      var box := candidates[i];
      var boxShape := ParseShape(box.shape);
      var sortedDb := SortDesc3(box.length, box.width, box.height);
      var matched := PassesGate(tol, sortedDetected, hIndex, sortedDb);
      PresentNext(scores, i, Qualifies(tol, l, w, h, shape, box));
      if matched && boxShape == shape {
        potential := potential + [i];
      }
      i := i + 1;
    }
  }

  /** The second loop: the first potential match with a strictly smaller deviation than the best so far. */
  method PickBest(tol: real, l: real, w: real, h: real, shape: Shape, candidates: seq<CatalogBox>, potential: seq<nat>)
    returns (best: Option<nat>)
    requires potential == Present(Scores(tol, l, w, h, shape, candidates), |candidates|)
    ensures best == Winner(Scores(tol, l, w, h, shape, candidates))
  {
    var sortedDetected := SortDesc3(l, w, h);
    ghost var scores := Scores(tol, l, w, h, shape, candidates);
    best := None;
    var bestScore: Option<real> := None;
    var m := 0;
    while m < |potential|
      invariant 0 <= m <= |potential|
      invariant best == Pick(scores, potential[..m])
      invariant bestScore == if best.Some? then scores[best.value] else None
    {
      var j := potential[m];
      var deviation := Deviation(sortedDetected, SortDesc3(candidates[j].length, candidates[j].width, candidates[j].height));
      assert scores[j] == Some(deviation);
      PickNext(scores, potential, m);
      if bestScore.None? || deviation < bestScore.value {
        bestScore := Some(deviation);
        best := Some(j);
      }
      m := m + 1;
    }
    assert potential[..m] == potential;
    PickPresentIsWinner(scores, |candidates|);
    assert scores[..|candidates|] == scores;
  }

  /** `find_best_match`: the row found, and whether there was one. */
  method FindBestMatch(tol: real, l: real, w: real, h: real, shape: Shape, candidates: seq<CatalogBox>)
    returns (bestMatch: Option<CatalogBox>, found: bool)
    ensures bestMatch == BestMatch(tol, l, w, h, shape, candidates)
    ensures found <==> bestMatch.Some?
  {
    var potential := CollectPotential(tol, l, w, h, shape, candidates);
    var best := PickBest(tol, l, w, h, shape, candidates, potential);
    bestMatch := if best.Some? then Some(candidates[best.value]) else None;
    found := bestMatch.Some?;
  }
}
