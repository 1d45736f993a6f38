/**
 * A threshold ladder: the `if (x >= t1) score += p1; else if (x >= t2) ...
 * else score += p0;` chains that make up the device score, given as a table
 * of rungs read from the top.
 */
module Ladder {

  import opened JsNumber

  /** One `else if (x >= threshold) score += points` step of a chain. */
  datatype Rung = Rung(threshold: real, points: int)

  /** The points of the first rung whose threshold x reaches, or `otherwise` when it reaches none. */
  function Award(x: real, rungs: seq<Rung>, otherwise: int): int {
    if rungs == [] then otherwise
    else if x >= rungs[0].threshold then rungs[0].points
    else Award(x, rungs[1..], otherwise)
  }

  /** Award of a JavaScript number, with each comparison evaluated as `>=` does in JavaScript. */
  function AwardNum(n: Num, rungs: seq<Rung>, otherwise: int): int {
    if rungs == [] then otherwise
    else if n.AtLeast(rungs[0].threshold) then rungs[0].points
    else AwardNum(n, rungs[1..], otherwise)
  }

  /** The points of the top rung: what every value at or above its threshold gets. */
  function Top(rungs: seq<Rung>, otherwise: int): int {
    if rungs == [] then otherwise else rungs[0].points
  }

  /** x reaches rung i and none of the rungs above it. */
  ghost predicate FirstReached(x: real, rungs: seq<Rung>, i: int) {
    0 <= i < |rungs| && x >= rungs[i].threshold
    && forall j :: 0 <= j < i ==> x < rungs[j].threshold
  }

  ghost predicate ReachesNone(x: real, rungs: seq<Rung>) {
    forall j :: 0 <= j < |rungs| ==> x < rungs[j].threshold
  }

  /** Lower rungs never give more points, and no rung gives less than `otherwise`. */
  ghost predicate Graded(rungs: seq<Rung>, otherwise: int) {
    (forall i, j :: 0 <= i < j < |rungs| ==> rungs[j].points <= rungs[i].points)
    && (forall i :: 0 <= i < |rungs| ==> otherwise <= rungs[i].points)
  }

  ghost predicate WholeThresholds(rungs: seq<Rung>) {
    forall i :: 0 <= i < |rungs| ==> rungs[i].threshold == rungs[i].threshold.Floor as real
  }

  /**
   * An if/else-if chain adds exactly one band: the points of the first rung
   * reached, or `otherwise` when x reaches none.
   */
  lemma {:induction false} AwardIsFirstReached(x: real, rungs: seq<Rung>, otherwise: int)
    ensures ReachesNone(x, rungs) ==> Award(x, rungs, otherwise) == otherwise
    ensures forall i :: FirstReached(x, rungs, i) ==> Award(x, rungs, otherwise) == rungs[i].points
    ensures ReachesNone(x, rungs) || exists i :: FirstReached(x, rungs, i)
  {
    if rungs == [] {
    } else if x >= rungs[0].threshold {
      assert FirstReached(x, rungs, 0);
    } else {
      var tail := rungs[1..];
      AwardIsFirstReached(x, tail, otherwise);
      forall i | FirstReached(x, rungs, i)
        ensures FirstReached(x, tail, i - 1)
      {
        assert i > 0;
        forall j | 0 <= j < i - 1
          ensures x < tail[j].threshold
        {
          assert tail[j] == rungs[j + 1];
        }
      }
      if ReachesNone(x, tail) {
        forall j | 0 <= j < |rungs|
          ensures x < rungs[j].threshold
        {
          if j > 0 {
            assert rungs[j] == tail[j - 1];
          }
        }
      } else {
        var i :| FirstReached(x, tail, i);
        assert FirstReached(x, rungs, i + 1) by {
          forall j | 0 <= j < i + 1
            ensures x < rungs[j].threshold
          {
            if j > 0 {
              assert rungs[j] == tail[j - 1];
            }
          }
        }
      }
    }
  }

  lemma GradedTail(rungs: seq<Rung>, otherwise: int)
    requires rungs != [] && Graded(rungs, otherwise)
    ensures Graded(rungs[1..], otherwise)
  {
    var tail := rungs[1..];
    forall i, j | 0 <= i < j < |tail|
      ensures tail[j].points <= tail[i].points
    {
      assert tail[i] == rungs[i + 1] && tail[j] == rungs[j + 1];
    }
  }

  /** On a graded ladder the award lies between `otherwise` and the top rung's points. */
  lemma {:induction false} AwardBounds(x: real, rungs: seq<Rung>, otherwise: int)
    requires Graded(rungs, otherwise)
    ensures otherwise <= Award(x, rungs, otherwise) <= Top(rungs, otherwise)
  {
    if rungs != [] && x < rungs[0].threshold {
      var tail := rungs[1..];
      GradedTail(rungs, otherwise);
      AwardBounds(x, tail, otherwise);
      if tail != [] {
        assert tail[0] == rungs[1];
      }
    }
  }

  /** On a graded ladder a larger value never gets fewer points. */
  lemma {:induction false} AwardMonotone(x: real, y: real, rungs: seq<Rung>, otherwise: int)
    requires Graded(rungs, otherwise)
    requires x <= y
    ensures Award(x, rungs, otherwise) <= Award(y, rungs, otherwise)
  {
    if rungs == [] {
    } else if y >= rungs[0].threshold {
      AwardBounds(x, rungs, otherwise);
    } else {
      var tail := rungs[1..];
      GradedTail(rungs, otherwise);
      AwardMonotone(x, y, tail, otherwise);
    }
  }

  /** When every threshold is a whole number, only the integer part of x decides the award. */
  lemma {:induction false} AwardOfFloor(x: real, rungs: seq<Rung>, otherwise: int)
    requires WholeThresholds(rungs)
    ensures Award(x, rungs, otherwise) == Award(x.Floor as real, rungs, otherwise)
  {
    if rungs != [] {
      var t := rungs[0].threshold;
      assert t == t.Floor as real;
      assert x >= t <==> x.Floor as real >= t;
      var tail := rungs[1..];
      assert WholeThresholds(tail) by {
        forall i | 0 <= i < |tail|
          ensures tail[i].threshold == tail[i].threshold.Floor as real
        {
          assert tail[i] == rungs[i + 1];
        }
      }
      AwardOfFloor(x, tail, otherwise);
    }
  }

  /**
   * The JavaScript comparison chain agrees with Award on finite values; NaN
   * and -Infinity reach no rung, +Infinity reaches the top one.
   */
  lemma {:induction false} AwardNumAgrees(n: Num, rungs: seq<Rung>, otherwise: int)
    ensures n.Finite? ==> AwardNum(n, rungs, otherwise) == Award(n.value, rungs, otherwise)
    ensures n.NaN? || n.NegInfinity? ==> AwardNum(n, rungs, otherwise) == otherwise
    ensures n.PosInfinity? ==> AwardNum(n, rungs, otherwise) == Top(rungs, otherwise)
  {
    if rungs != [] {
      AwardNumAgrees(n, rungs[1..], otherwise);
    }
  }
}
