/**
 * `ORDER BY <score> ASC LIMIT k` over the rows of a table, each row named by
 * its integer key (SQLite's rowid, or the `chat_id` primary key). SQL leaves
 * the order of rows with equal scores open; the model puts the smaller key
 * first, the order of a table scan.
 */
module Ranking {

  /** Row `a` is listed before row `b`. */
  predicate Precedes(score: map<int, real>, a: int, b: int)
    requires a in score && b in score
  {
    score[a] < score[b] || (score[a] == score[b] && a < b)
  }

  /** `b` is listed before every other row. */
  predicate IsFirst(score: map<int, real>, b: int)
  {
    b in score && forall j :: j in score && j != b ==> Precedes(score, b, j)
  }

  lemma {:induction false} FirstExists(score: map<int, real>)
    requires |score| > 0
    ensures exists b :: IsFirst(score, b)
    decreases |score|
  {
    if forall y :: y !in score {
      assert false;
    }
    var x :| x in score;
    var rest := score - {x};
    assert rest.Keys == score.Keys - {x};
    if |rest| == 0 {
      assert score.Keys == {x};
      assert IsFirst(score, x);
    } else {
      FirstExists(rest);
      var b :| IsFirst(rest, b);
      assert forall j :: j in rest && j != b ==> Precedes(score, b, j);
      if Precedes(score, x, b) {
        forall j | j in score && j != x
          ensures Precedes(score, x, j)
        {
          if j != b {
            assert Precedes(rest, b, j);
          }
        }
        assert IsFirst(score, x);
      } else {
        assert Precedes(score, b, x);
        assert IsFirst(score, b);
      }
    }
  }

  /** The row an `ORDER BY ... LIMIT 1` query returns. */
  function First(score: map<int, real>): (b: int)
    requires |score| > 0
    ensures IsFirst(score, b)
  {
    FirstExists(score);
    var b :| IsFirst(score, b); b
  }

  /** The rows of `ORDER BY <score> ASC LIMIT k`: as many as the limit
      allows, each one from the table, in order, and none left out that
      belongs before one taken. */
  function Rank(score: map<int, real>, k: nat): (r: seq<int>)
    ensures |r| == if k < |score| then k else |score|
    ensures forall i :: 0 <= i < |r| ==> r[i] in score
    ensures forall i, j :: 0 <= i < j < |r| ==> Precedes(score, r[i], r[j])
    ensures forall i, x :: 0 <= i < |r| && x in score && x !in r ==> Precedes(score, r[i], x)
    decreases k
  {
    if k == 0 || |score| == 0 then []
    else
      var b := First(score);
      var rest := score - {b};
      assert rest.Keys == score.Keys - {b};
      [b] + Rank(rest, k - 1)
  }

  /** A list of distinct members of `s` is no longer than `s`. */
  lemma {:induction false} DistinctWithin(r: seq<int>, s: set<int>)
    requires forall i :: 0 <= i < |r| ==> r[i] in s
    requires forall i, j :: 0 <= i < j < |r| ==> r[i] != r[j]
    ensures |r| <= |s|
    decreases |r|
  {
    if r != [] {
      DistinctWithin(r[1..], s - {r[0]});
    }
  }

  /** A list of distinct members of `s` as long as `s` holds all of it. */
  lemma Covers(r: seq<int>, s: set<int>, x: int)
    requires forall i :: 0 <= i < |r| ==> r[i] in s
    requires forall i, j :: 0 <= i < j < |r| ==> r[i] != r[j]
    requires |r| >= |s| && x in s
    ensures x in r
  {
    if x !in r {
      DistinctWithin(r, s - {x});
    }
  }

  /** With room for every row, LIMIT takes them all. */
  lemma RankTakesAll(score: map<int, real>, k: nat)
    requires |score| <= k
    ensures forall x :: x in score ==> x in Rank(score, k)
  {
    var r := Rank(score, k);
    assert forall i, j :: 0 <= i < j < |r| ==> r[i] != r[j];
    assert |score.Keys| == |score|;
    forall x | x in score
      ensures x in r
    {
      Covers(r, score.Keys, x);
    }
  }
}
