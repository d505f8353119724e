/** ORDER BY score DESC, id LIMIT n: the one order every retrieval query of internal/store/store.go ends with. */
module Ranking {

  /** The scores of the rows to order, by row id. */
  type Scores = map<int, real>

  predicate Before(scores: Scores, x: int, y: int)
    requires x in scores && y in scores
  {
    scores[x] > scores[y] || (scores[x] == scores[y] && x < y)
  }

  predicate IsRanking(r: seq<int>, scores: Scores) {
    && (forall i :: 0 <= i < |r| ==> r[i] in scores)
    && (forall x :: x in scores ==> x in r)
    && (forall i, j :: 0 <= i < j < |r| ==> Before(scores, r[i], r[j]))
  }

  predicate IsFirst(x: int, scores: Scores) {
    x in scores && forall y :: y in scores && y != x ==> Before(scores, x, y)
  }

  lemma RowExists(scores: Scores)
    requires scores != map[]
    ensures exists x :: x in scores
  {
    assert (forall x :: x !in scores) ==> scores == map[];
  }

  ghost function SomeRow(scores: Scores): (x: int)
    requires scores != map[]
    ensures x in scores
  {
    RowExists(scores);
    var x :| x in scores;
    x
  }

  lemma FirstOfOneMore(scores: Scores, a: int, b: int)
    requires a in scores && IsFirst(b, scores - {a})
    ensures IsFirst(if Before(scores, a, b) then a else b, scores)
  {
    forall y | y in scores && y != a && y != b
      ensures Before(scores, b, y)
    {
      assert Before(scores - {a}, b, y);
    }
  }

  lemma {:induction false} FirstExists(scores: Scores)
    requires scores != map[]
    ensures exists x :: IsFirst(x, scores)
    decreases |scores|
  {
    var a := SomeRow(scores);
    var rest := scores - {a};
    assert rest.Keys == scores.Keys - {a};
    if rest == map[] {
      forall y | y in scores
        ensures y == a
      {
        assert y == a || y in rest;
      }
      assert IsFirst(a, scores);
    } else {
      FirstExists(rest);
      var b :| IsFirst(b, rest);
      FirstOfOneMore(scores, a, b);
    }
  }

  lemma FirstThenRest(x: int, r: seq<int>, scores: Scores)
    requires IsFirst(x, scores) && IsRanking(r, scores - {x})
    ensures IsRanking([x] + r, scores)
  {
    var s := [x] + r;
    forall y | y in scores
      ensures y in s
    {
      assert y == x || y in scores - {x};
    }
    forall i, j | 0 <= i < j < |s|
      ensures Before(scores, s[i], s[j])
    {
      assert s[j] == r[j - 1];
      if i > 0 {
        assert Before(scores - {x}, r[i - 1], r[j - 1]);
      }
    }
  }

  /** The rows by score, best first; equal scores by id. */
  ghost function Rank(scores: Scores): (r: seq<int>)
    ensures IsRanking(r, scores)
    decreases |scores|
  {
    if scores == map[] then [] else
    FirstExists(scores);
    var x :| IsFirst(x, scores);
    var rest := scores - {x};
    assert rest.Keys == scores.Keys - {x};
    FirstThenRest(x, Rank(rest), scores);
    [x] + Rank(rest)
  }

  lemma FirstOfRanking(r: seq<int>, scores: Scores)
    requires IsRanking(r, scores) && r != []
    ensures IsFirst(r[0], scores)
  {
    forall y | y in scores && y != r[0]
      ensures Before(scores, r[0], y)
    {
      var i :| 0 <= i < |r| && r[i] == y;
    }
  }

  lemma TailOfRanking(r: seq<int>, scores: Scores)
    requires IsRanking(r, scores) && r != []
    ensures IsRanking(r[1..], scores - {r[0]})
  {
    var rest := scores - {r[0]};
    forall i | 0 <= i < |r[1..]|
      ensures r[1..][i] in rest
    {
      assert Before(scores, r[0], r[i + 1]);
    }
    forall x | x in rest
      ensures x in r[1..]
    {
      var i :| 0 <= i < |r| && r[i] == x;
      assert r[1..][i - 1] == x;
    }
  }

  /** There is one such order. */
  lemma {:induction false} RankingUnique(r: seq<int>, s: seq<int>, scores: Scores)
    requires IsRanking(r, scores) && IsRanking(s, scores)
    ensures r == s
    decreases |scores|
  {
    if scores == map[] {
      assert r == [] && s == [];
    } else {
      var x := SomeRow(scores);
      assert x in r && x in s;
      FirstOfRanking(r, scores);
      FirstOfRanking(s, scores);
      assert !(Before(scores, r[0], s[0]) && Before(scores, s[0], r[0]));
      var rest := scores - {r[0]};
      assert rest.Keys == scores.Keys - {r[0]};
      TailOfRanking(r, scores);
      TailOfRanking(s, scores);
      RankingUnique(r[1..], s[1..], rest);
      assert r == [r[0]] + r[1..] && s == [s[0]] + s[1..];
    }
  }

  lemma {:induction false} RankingLength(r: seq<int>, scores: Scores)
    requires IsRanking(r, scores)
    ensures |r| == |scores|
  {
    if r == [] {
      assert forall x :: x in scores ==> x in r;
      assert scores == map[];
    } else {
      TailOfRanking(r, scores);
      RankingLength(r[1..], scores - {r[0]});
      assert (scores - {r[0]}).Keys == scores.Keys - {r[0]};
    }
  }

  /** The order, read off: a row stands before another with a lower score, or with the same score and a greater id. */
  lemma RankedByScore(scores: Scores, x: int, y: int)
    requires x in scores && y in scores && (scores[x] > scores[y] || (scores[x] == scores[y] && x < y))
    ensures exists i, j :: 0 <= i < j < |Rank(scores)| && Rank(scores)[i] == x && Rank(scores)[j] == y
    ensures |Rank(scores)| == |scores|
  {
    var r := Rank(scores);
    var i :| 0 <= i < |r| && r[i] == x;
    var j :| 0 <= j < |r| && r[j] == y;
    RankingLength(r, scores);
  }

  /** LIMIT n. */
  function Limit(r: seq<int>, n: nat): seq<int> { if n <= |r| then r[..n] else r }

  lemma LimitKeepsRows(scores: Scores, n: nat)
    ensures forall x :: x in Limit(Rank(scores), n) ==> x in scores
  {
    forall x | x in Limit(Rank(scores), n)
      ensures x in scores
    {
      var i :| 0 <= i < |Limit(Rank(scores), n)| && Limit(Rank(scores), n)[i] == x;
      assert Rank(scores)[i] == x;
    }
  }

  /** Every kept row stands before every dropped one, and nothing is dropped while there is room. */
  lemma LimitKeepsTop(scores: Scores, n: nat)
    ensures forall x, y :: x in Limit(Rank(scores), n) && y in scores && y !in Limit(Rank(scores), n) ==>
      Before(scores, x, y)
    ensures |Limit(Rank(scores), n)| < n ==> forall y :: y in scores ==> y in Limit(Rank(scores), n)
  {
    var r := Rank(scores);
    forall x, y | x in Limit(r, n) && y in scores && y !in Limit(r, n)
      ensures Before(scores, x, y)
    {
      var i :| 0 <= i < |Limit(r, n)| && Limit(r, n)[i] == x;
      var j :| 0 <= j < |r| && r[j] == y;
      assert forall k :: 0 <= k < |Limit(r, n)| ==> Limit(r, n)[k] == r[k];
      assert forall k :: 0 <= k < |Limit(r, n)| ==> Limit(r, n)[k] != y;
    }
  }

  /** A row that is kept brings along every row that stands before it. */
  lemma EarlierIsKept(scores: Scores, n: nat, x: int, y: int)
    requires x in scores && y in Limit(Rank(scores), n)
    requires y in scores && (scores[x] > scores[y] || (scores[x] == scores[y] && x < y))
    ensures var kept := Limit(Rank(scores), n);
      exists i, j :: 0 <= i < j < |kept| && kept[i] == x && kept[j] == y
  {
    RankedByScore(scores, x, y);
    var r, kept := Rank(scores), Limit(Rank(scores), n);
    var i, j :| 0 <= i < j < |r| && r[i] == x && r[j] == y;
    var k :| 0 <= k < |kept| && kept[k] == y;
    assert r[k] == y;
    assert k == j && kept[i] == x;
  }

  /** A shorter limit returns the beginning of a longer one. */
  lemma LimitsAgree(r: seq<int>, m: nat, n: nat)
    requires m <= n
    ensures Limit(r, m) <= Limit(r, n)
  {
  }
}
