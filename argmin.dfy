/**
 * The selection rule both catalog matchers use: scan the candidates in order,
 * keep a best score that starts at infinity, and replace the best only on a
 * strictly smaller score. A candidate that does not qualify has no score.
 */
module ArgMin {
  import opened Wrappers

  /** The winner so far and a new candidate: the candidate wins only with a strictly smaller score. */
  function Better(scores: seq<Option<real>>, prev: Option<nat>, j: nat): (r: Option<nat>)
    requires j < |scores| && scores[j].Some?
    requires prev.Some? ==> prev.value < |scores| && scores[prev.value].Some?
    ensures r == Some(j) || r == prev
  {
    if prev.None? || scores[j].value < scores[prev.value].value then Some(j) else prev
  }

  /** The index the scan over `scores` ends with (None: the best score stays infinite). */
  function Winner(scores: seq<Option<real>>): (r: Option<nat>)
    ensures r.Some? ==> r.value < |scores| && scores[r.value].Some?
    decreases |scores|
  {
    if scores == [] then None
    else
      var n := |scores| - 1;
      var prev := Winner(scores[..n]);
      if scores[n].Some? then Better(scores, prev, n) else prev
  }

  /**
   * The scan finds a candidate iff one has a score; the one it finds has the
   * smallest score, and every earlier scored candidate has a strictly larger one.
   */
  lemma {:induction false} WinnerIsEarliestMinimum(scores: seq<Option<real>>)
    ensures Winner(scores).Some? <==> exists i :: 0 <= i < |scores| && scores[i].Some?
    ensures Winner(scores).Some? ==>
              forall i :: 0 <= i < |scores| && scores[i].Some? ==>
                scores[Winner(scores).value].value <= scores[i].value
    ensures Winner(scores).Some? ==>
              forall i :: 0 <= i < Winner(scores).value && scores[i].Some? ==>
                scores[i].value > scores[Winner(scores).value].value
    decreases |scores|
  {
    if scores != [] {
      var n := |scores| - 1;
      var init := scores[..n];
      WinnerIsEarliestMinimum(init);
      assert forall i :: 0 <= i < n ==> init[i] == scores[i];
    }
  }

  /**
   * One step of the scan: candidate e, with the given score, is weighed against
   * the best so far and replaces it only with a strictly smaller score.
   */
  method Consider(ghost scores: seq<Option<real>>, e: nat, score: Option<real>, best: Option<nat>, bestScore: Option<real>)
    returns (best': Option<nat>, bestScore': Option<real>)
    requires e < |scores| && scores[e] == score
    requires best == Winner(scores[..e])
    requires bestScore == if best.Some? then scores[best.value] else None
    ensures best' == Winner(scores[..e + 1])
    ensures bestScore' == if best'.Some? then scores[best'.value] else None
  {
    assert scores[..e + 1][..e] == scores[..e];
    best', bestScore' := best, bestScore;
    if score.Some? && (bestScore.None? || score.value < bestScore.value) {
      best', bestScore' := Some(e), score;
    }
  }

  /** The scored candidates among the first n, in order: the list of potential matches. */
  function Present(scores: seq<Option<real>>, n: nat): (ps: seq<nat>)
    requires n <= |scores|
    ensures forall k :: 0 <= k < |ps| ==> ps[k] < n && scores[ps[k]].Some?
  {
    if n == 0 then []
    else if scores[n - 1].Some? then Present(scores, n - 1) + [n - 1]
    else Present(scores, n - 1)
  }

  /** One more candidate: it joins the potential matches iff it has a score. */
  lemma PresentNext(scores: seq<Option<real>>, i: nat, passes: bool)
    requires i < |scores| && (scores[i].Some? <==> passes)
    ensures Present(scores, i + 1) == Present(scores, i) + (if passes then [i] else [])
  {
  }

  /** The scan over a list of potential matches only. */
  function Pick(scores: seq<Option<real>>, ps: seq<nat>): (r: Option<nat>)
    requires forall k :: 0 <= k < |ps| ==> ps[k] < |scores| && scores[ps[k]].Some?
    ensures r.Some? ==> r.value < |scores| && scores[r.value].Some?
    decreases |ps|
  {
    if ps == [] then None
    else Better(scores, Pick(scores, ps[..|ps| - 1]), ps[|ps| - 1])
  }

  /** One more potential match is weighed against the best so far. */
  lemma PickNext(scores: seq<Option<real>>, ps: seq<nat>, m: nat)
    requires forall k :: 0 <= k < |ps| ==> ps[k] < |scores| && scores[ps[k]].Some?
    requires m < |ps|
    ensures Pick(scores, ps[..m + 1]) == Better(scores, Pick(scores, ps[..m]), ps[m])
  {
    assert ps[..m + 1][..m] == ps[..m];
  }

  /** Filtering the potential matches first and scanning them afterwards picks the same winner. */
  lemma {:induction false} PickPresentIsWinner(scores: seq<Option<real>>, n: nat)
    requires n <= |scores|
    ensures Pick(scores, Present(scores, n)) == Winner(scores[..n])
    decreases n
  {
    if n > 0 {
      PickPresentIsWinner(scores, n - 1);
      assert scores[..n][..n - 1] == scores[..n - 1];
      var ps := Present(scores, n);
      if scores[n - 1].Some? {
        assert ps[..|ps| - 1] == Present(scores, n - 1);
      }
    }
  }
}
