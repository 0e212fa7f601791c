/**
 * `find_best_match` of logic/db_connector.py: every catalog row is tried with
 * its (length, width) read both ways round against the detected (length,
 * breadth). A pairing passes when both are within tolerance and the shape
 * matches; the height is compared too but never gates. The score of a pairing
 * is the total absolute deviation including the height, and the row of the
 * first pairing with a strictly smaller score than the best so far is kept.
 *
 * The pairings are scored as one flat sequence: entry 2*i + p is row i read
 * straight (p = 0) or swapped (p = 1), the order the nested loop visits them in.
 */
module PairingMatcher {
  import opened Wrappers
  import opened Numbers
  import opened Shapes
  import opened Catalog
  import opened ArgMin

  /** The catalog (length, width) of row `box` read straight (p = 0) or swapped (p = 1). */
  function Pairing(box: CatalogBox, p: nat): (real, real)
    requires p < 2
  {
    if p == 0 then (box.length, box.width) else (box.width, box.length)
  }

  /** The two loop conditions `l_match and b_match and shape_match`; `h_match` is not one of them. */
  predicate PairingPasses(tol: real, l: real, b: real, shape: Shape, box: CatalogBox, p: nat)
    requires p < 2
  {
    WithinTolerance(tol, l, Pairing(box, p).0) && WithinTolerance(tol, b, Pairing(box, p).1) &&
    ParseShape(box.shape) == shape
  }

  /** `abs(l - L) + abs(b - B) + abs(h - H)` for the pairing. */
  function PairingDeviation(l: real, b: real, h: real, box: CatalogBox, p: nat): (d: real)
    requires p < 2
    ensures d >= Abs(h - box.height)
  {
    Abs(l - Pairing(box, p).0) + Abs(b - Pairing(box, p).1) + Abs(h - box.height)
  }

  function PairingScore(tol: real, l: real, b: real, h: real, shape: Shape, box: CatalogBox, p: nat): Option<real>
    requires p < 2
  {
    if PairingPasses(tol, l, b, shape, box, p) then Some(PairingDeviation(l, b, h, box, p)) else None
  }

  /** The scores of every pairing in visiting order. */
  function Scores(tol: real, l: real, b: real, h: real, shape: Shape, candidates: seq<CatalogBox>): (s: seq<Option<real>>)
    ensures |s| == 2 * |candidates|
  {
    seq(2 * |candidates|, e requires 0 <= e < 2 * |candidates| => PairingScore(tol, l, b, h, shape, candidates[e / 2], e % 2))
  }

  /** The row `find_best_match` returns, if any. */
  function BestMatch(tol: real, l: real, b: real, h: real, shape: Shape, candidates: seq<CatalogBox>): Option<CatalogBox> {
    match Winner(Scores(tol, l, b, h, shape, candidates))
    case None => None
    case Some(e) => Some(candidates[e / 2])
  }

  /**
   * A row is found iff some pairing of some row passes; the row found has a
   * passing pairing whose deviation is the smallest over all passing pairings
   * of all rows, and every passing pairing of an earlier row is strictly worse.
   */
  lemma BestMatchIsEarliestBest(tol: real, l: real, b: real, h: real, shape: Shape, candidates: seq<CatalogBox>)
    ensures BestMatch(tol, l, b, h, shape, candidates).Some? <==>
              exists i, p :: 0 <= i < |candidates| && 0 <= p < 2 && PairingPasses(tol, l, b, shape, candidates[i], p)
    ensures BestMatch(tol, l, b, h, shape, candidates).Some? ==>
              exists i, p :: 0 <= i < |candidates| && 0 <= p < 2 &&
                candidates[i] == BestMatch(tol, l, b, h, shape, candidates).value &&
                PairingPasses(tol, l, b, shape, candidates[i], p) &&
                (forall j, q :: 0 <= j < |candidates| && 0 <= q < 2 && PairingPasses(tol, l, b, shape, candidates[j], q) ==>
                   PairingDeviation(l, b, h, candidates[i], p) <= PairingDeviation(l, b, h, candidates[j], q)) &&
                (forall j, q :: 0 <= j < i && 0 <= q < 2 && PairingPasses(tol, l, b, shape, candidates[j], q) ==>
                   PairingDeviation(l, b, h, candidates[j], q) > PairingDeviation(l, b, h, candidates[i], p))
  {
    var scores := Scores(tol, l, b, h, shape, candidates);
    WinnerIsEarliestMinimum(scores);
    if Winner(scores).None? {
      forall i, p | 0 <= i < |candidates| && 0 <= p < 2
        ensures !PairingPasses(tol, l, b, shape, candidates[i], p)
      {
        ScoreAt(tol, l, b, h, shape, candidates, i, p);
        assert scores[2 * i + p].None?;
      }
    } else {
      var e := Winner(scores).value;
      var i, p := e / 2, e % 2;
      ScoreOf(tol, l, b, h, shape, candidates, e);
      assert scores[e].Some?;
      forall j, q | 0 <= j < |candidates| && 0 <= q < 2 && PairingPasses(tol, l, b, shape, candidates[j], q)
        ensures PairingDeviation(l, b, h, candidates[i], p) <= PairingDeviation(l, b, h, candidates[j], q)
      {
        ScoreAt(tol, l, b, h, shape, candidates, j, q);
        assert scores[2 * j + q].Some?;
      }
      forall j, q | 0 <= j < i && 0 <= q < 2 && PairingPasses(tol, l, b, shape, candidates[j], q)
        ensures PairingDeviation(l, b, h, candidates[j], q) > PairingDeviation(l, b, h, candidates[i], p)
      {
        ScoreAt(tol, l, b, h, shape, candidates, j, q);
        assert 2 * j + q < e;
        assert scores[2 * j + q].Some?;
      }
    }
  }

  // Entry 2*i + p of the flat sequence is pairing p of row i.
  lemma Entry(i: nat, p: nat)
    requires p < 2
    ensures (2 * i + p) / 2 == i && (2 * i + p) % 2 == p
  {
  }

  lemma ScoreOf(tol: real, l: real, b: real, h: real, shape: Shape, candidates: seq<CatalogBox>, e: nat)
    requires e < 2 * |candidates|
    ensures e / 2 < |candidates| && e % 2 < 2
    ensures Scores(tol, l, b, h, shape, candidates)[e] == PairingScore(tol, l, b, h, shape, candidates[e / 2], e % 2)
  {
  }

  lemma ScoreAt(tol: real, l: real, b: real, h: real, shape: Shape, candidates: seq<CatalogBox>, i: nat, p: nat)
    requires i < |candidates| && p < 2
    ensures 2 * i + p < 2 * |candidates|
    ensures Scores(tol, l, b, h, shape, candidates)[2 * i + p] == PairingScore(tol, l, b, h, shape, candidates[i], p)
  {
    Entry(i, p);
    ScoreOf(tol, l, b, h, shape, candidates, 2 * i + p);
  }

  /**
   * Swapping the detected length and breadth never changes the row found: it
   * exchanges the two pairings of every row, and the winner is the earliest row
   * whose better pairing reaches the overall minimum.
   */
  lemma SwapLengthBreadth(tol: real, l: real, b: real, h: real, shape: Shape, candidates: seq<CatalogBox>)
    ensures BestMatch(tol, l, b, h, shape, candidates) == BestMatch(tol, b, l, h, shape, candidates)
  {
    var s1 := Scores(tol, l, b, h, shape, candidates);
    var s2 := Scores(tol, b, l, h, shape, candidates);
    forall e | 0 <= e < |s1| ensures s2[e] == s1[Mate(e)] {
      MateFacts(e, |s1|);
      ScoreOf(tol, l, b, h, shape, candidates, Mate(e));
      ScoreOf(tol, b, l, h, shape, candidates, e);
    }
    WinnerOfMates(s1, s2);
  }

  /** The other pairing of the same row. */
  function Mate(e: nat): nat {
    if e % 2 == 0 then e + 1 else e - 1
  }

  /** Mate stays inside a sequence of whole rows, in the same row, and undoes itself. */
  lemma MateFacts(e: nat, n: nat)
    requires e < n && n % 2 == 0
    ensures Mate(e) < n && Mate(e) / 2 == e / 2 && Mate(e) % 2 == 1 - e % 2 && Mate(Mate(e)) == e
  {
    var r, k := e / 2, n / 2;
    assert e == 2 * r + e % 2 && n == 2 * k;
    assert r < k;
  }

  /** An entry of an earlier row comes before both entries of a later row. */
  lemma RowOrder(a: nat, b: nat)
    requires a / 2 < b / 2
    ensures a < b && Mate(a) < b
  {
    var ra, rb := a / 2, b / 2;
    assert a == 2 * ra + a % 2 && b == 2 * rb + b % 2;
  }

  /** Exchanging the two entries of every row keeps the winning row. */
  lemma WinnerOfMates(s1: seq<Option<real>>, s2: seq<Option<real>>)
    requires |s1| == |s2| && |s1| % 2 == 0
    requires forall e :: 0 <= e < |s1| ==> s2[e] == s1[Mate(e)]
    ensures Winner(s1).Some? <==> Winner(s2).Some?
    ensures Winner(s1).Some? ==> Winner(s1).value / 2 == Winner(s2).value / 2
  {
    WinnerIsEarliestMinimum(s1);
    WinnerIsEarliestMinimum(s2);
    if Winner(s1).Some? {
      var w1 := Winner(s1).value;
      MateFacts(w1, |s1|);
      assert s2[Mate(w1)] == s1[w1];
    } else if Winner(s2).Some? {
      var w2 := Winner(s2).value;
      MateFacts(w2, |s1|);
      assert s2[w2] == s1[Mate(w2)];
    }
    if Winner(s1).Some? && Winner(s2).Some? {
      SameRow(s1, s2, Winner(s1).value, Winner(s2).value);
    }
  }

  /** The two winners, each the earliest minimum of its sequence, lie in the same row. */
  lemma SameRow(s1: seq<Option<real>>, s2: seq<Option<real>>, w1: nat, w2: nat)
    requires |s1| == |s2| && |s1| % 2 == 0
    requires forall e :: 0 <= e < |s1| ==> s2[e] == s1[Mate(e)]
    requires w1 < |s1| && s1[w1].Some? && w2 < |s2| && s2[w2].Some?
    requires forall i :: 0 <= i < |s1| && s1[i].Some? ==> s1[w1].value <= s1[i].value
    requires forall i :: 0 <= i < w1 && s1[i].Some? ==> s1[i].value > s1[w1].value
    requires forall i :: 0 <= i < |s2| && s2[i].Some? ==> s2[w2].value <= s2[i].value
    requires forall i :: 0 <= i < w2 && s2[i].Some? ==> s2[i].value > s2[w2].value
    ensures w1 / 2 == w2 / 2
  {
    MateFacts(w1, |s1|);
    MateFacts(w2, |s1|);
    assert s2[Mate(w1)] == s1[w1];
    assert s1[Mate(w2)] == s2[w2];
    if w1 / 2 < w2 / 2 {
      RowOrder(w1, w2);
    } else if w2 / 2 < w1 / 2 {
      RowOrder(w2, w1);
    }
  }

  /** A 600 x 400 x 200 box at tolerance 0.10. */
  const Sample: CatalogBox := CatalogBox(1, 600.0, 400.0, 200.0, "box")

  /** 595 x 405 x 205 matches straight, with score 15. */
  lemma ExampleStraight()
    ensures PairingScore(0.10, 595.0, 405.0, 205.0, Box, Sample, 0) == Some(15.0)
    ensures PairingScore(0.10, 595.0, 405.0, 205.0, Box, Sample, 1) == None
    ensures BestMatch(0.10, 595.0, 405.0, 205.0, Box, [Sample]) == Some(Sample)
  {
    var s := Scores(0.10, 595.0, 405.0, 205.0, Box, [Sample]);
    ScoreAt(0.10, 595.0, 405.0, 205.0, Box, [Sample], 0, 0);
    ScoreAt(0.10, 595.0, 405.0, 205.0, Box, [Sample], 0, 1);
    assert s == [Some(15.0), None];
    assert s[..1] == [Some(15.0)] && s[..1][..0] == [];
    assert Winner(s[..1]) == Some(0);
    assert Winner(s) == Some(0);
  }

  /** 400 x 600 x 205 matches through the swapped pairing. */
  lemma ExampleSwapped()
    ensures PairingScore(0.10, 400.0, 600.0, 205.0, Box, Sample, 0) == None
    ensures PairingScore(0.10, 400.0, 600.0, 205.0, Box, Sample, 1) == Some(5.0)
  {
  }

  /** 500 x 500 x 205 matches neither way. */
  lemma ExampleNoMatch()
    ensures BestMatch(0.10, 500.0, 500.0, 205.0, Box, [Sample]) == None
  {
    var s := Scores(0.10, 500.0, 500.0, 205.0, Box, [Sample]);
    ScoreAt(0.10, 500.0, 500.0, 205.0, Box, [Sample], 0, 0);
    ScoreAt(0.10, 500.0, 500.0, 205.0, Box, [Sample], 0, 1);
    assert s == [None, None];
    assert s[..1] == [None];
  }

  /** The height never gates: 595 x 405 with a detected height of 5 still matches. */
  lemma ExampleHeightNotGated()
    ensures PairingPasses(0.10, 595.0, 405.0, Box, Sample, 0)
    ensures !WithinTolerance(0.10, 5.0, Sample.height)
  {
  }

  /**
   * `find_best_match`: for every row, both pairings in order; a passing pairing
   * with a strictly smaller deviation than the best so far makes its row the best.
   */
  method FindBestMatch(tol: real, l: real, b: real, h: real, shape: Shape, candidates: seq<CatalogBox>)
    returns (bestMatch: Option<CatalogBox>, found: bool)
    ensures bestMatch == BestMatch(tol, l, b, h, shape, candidates)
    ensures found <==> bestMatch.Some?
  {
    ghost var scores := Scores(tol, l, b, h, shape, candidates);
    var best: Option<nat> := None;
    var bestScore: Option<real> := None;
    var i := 0;
    while i < |candidates|
      invariant 0 <= i <= |candidates|
      invariant best == Winner(scores[..2 * i])
      invariant bestScore == if best.Some? then scores[best.value] else None
    {
      best, bestScore := VisitRow(tol, l, b, h, shape, candidates, i, best, bestScore);
      i := i + 1;
    }
    assert scores[..2 * i] == scores;
    bestMatch := if best.Some? then Some(candidates[best.value / 2]) else None;
    found := bestMatch.Some?;
  }

  /** The inner loop over the two pairings of row i. */
  method VisitRow(tol: real, l: real, b: real, h: real, shape: Shape, candidates: seq<CatalogBox>,
                  i: nat, best: Option<nat>, bestScore: Option<real>)
    returns (best': Option<nat>, bestScore': Option<real>)
    requires i < |candidates|
    requires best == Winner(Scores(tol, l, b, h, shape, candidates)[..2 * i])
    requires bestScore == if best.Some? then Scores(tol, l, b, h, shape, candidates)[best.value] else None
    ensures best' == Winner(Scores(tol, l, b, h, shape, candidates)[..2 * i + 2])
    ensures bestScore' == if best'.Some? then Scores(tol, l, b, h, shape, candidates)[best'.value] else None
  {
    best', bestScore' := best, bestScore;
    var p := 0;
    while p < 2
      invariant 0 <= p <= 2
      invariant best' == Winner(Scores(tol, l, b, h, shape, candidates)[..2 * i + p])
      invariant bestScore' == if best'.Some? then Scores(tol, l, b, h, shape, candidates)[best'.value] else None
    {
      best', bestScore' := VisitPairing(tol, l, b, h, shape, candidates, i, p, best', bestScore');
      p := p + 1;
    }
  }

  /** The tolerance checks and the deviation of one pairing; no score unless it passes. */
  method ScorePairing(tol: real, l: real, b: real, h: real, shape: Shape, box: CatalogBox, p: nat)
    returns (score: Option<real>)
    requires p < 2
    ensures score == PairingScore(tol, l, b, h, shape, box, p)
  {
    var dims := Pairing(box, p);
    var lMatch := WithinTolerance(tol, l, dims.0);
    var bMatch := WithinTolerance(tol, b, dims.1);
    var shapeMatch := ParseShape(box.shape) == shape;
    var hMatch := WithinTolerance(tol, h, box.height);
    score := None;
    if lMatch && bMatch && shapeMatch {
      score := Some(Abs(l - dims.0) + Abs(b - dims.1) + Abs(h - box.height));
    }
  }

  /** The body of the inner loop for pairing p of row i. */
  method VisitPairing(tol: real, l: real, b: real, h: real, shape: Shape, candidates: seq<CatalogBox>,
                      i: nat, p: nat, best: Option<nat>, bestScore: Option<real>)
    returns (best': Option<nat>, bestScore': Option<real>)
    requires i < |candidates| && p < 2
    requires best == Winner(Scores(tol, l, b, h, shape, candidates)[..2 * i + p])
    requires bestScore == if best.Some? then Scores(tol, l, b, h, shape, candidates)[best.value] else None
    ensures best' == Winner(Scores(tol, l, b, h, shape, candidates)[..2 * i + p + 1])
    ensures bestScore' == if best'.Some? then Scores(tol, l, b, h, shape, candidates)[best'.value] else None
  {
    var score := ScorePairing(tol, l, b, h, shape, candidates[i], p);
    ScoreAt(tol, l, b, h, shape, candidates, i, p);
    best', bestScore' := Consider(Scores(tol, l, b, h, shape, candidates), 2 * i + p, score, best, bestScore);
  }
}
