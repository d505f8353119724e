/** Reciprocal rank fusion of two retrievers (the `fused` CTE of internal/store/store.go). */
module Fusion {
  import opened Ranking

  predicate Distinct(list: seq<int>) {
    forall i, j :: 0 <= i < j < |list| ==> list[i] != list[j]
  }

  /** The rank of a row in a hit list, from 1; 0 when it is not in the list. */
  function RankIn(list: seq<int>, id: int): (rank: nat)
    ensures rank <= |list| && (rank == 0 <==> id !in list)
    ensures rank > 0 ==> list[rank - 1] == id
  {
    if list == [] then 0
    else if list[|list| - 1] == id then |list|
    else RankIn(list[..|list| - 1], id)
  }

  function Reciprocal(n: nat): real
    requires n > 0
  {
    1.0 / n as real
  }

  /** One row of the UNION ALL: 1 / (k + rank), or nothing. */
  function Share(list: seq<int>, k: nat, id: int): real {
    if id in list then Reciprocal(k + RankIn(list, id)) else 0.0
  }

  function Fused(vector: seq<int>, keyword: seq<int>, k: nat): Scores {
    map id | id in vector + keyword :: Share(vector, k, id) + Share(keyword, k, id)
  }

  /** The rows the hybrid query returns. */
  ghost function HybridRows(vector: seq<int>, keyword: seq<int>, k: nat, limit: nat): seq<int> {
    Limit(Rank(Fused(vector, keyword, k)), limit)
  }

  /** Every row found by both retrievers stands before every row found by one. */
  predicate AgreementWins(vector: seq<int>, keyword: seq<int>, k: nat) {
    forall x, y :: x in vector && x in keyword && y in vector + keyword && !(y in vector && y in keyword) ==>
      Before(Fused(vector, keyword, k), x, y)
  }

  // ---------------------------------------------------------------- reciprocals

  lemma MulPositive(a: real, b: real)
    requires a > 0.0 && b > 0.0
    ensures a * b > 0.0
  {
  }

  lemma PositiveFactor(d: real, x: real)
    requires x > 0.0 && d * x > 0.0
    ensures d > 0.0
  {
  }

  lemma InverseOrder(x: real, y: real)
    requires 0.0 < x < y
    ensures 1.0 / x > 1.0 / y > 0.0
  {
    var p, q := 1.0 / x, 1.0 / y;
    assert p * x == 1.0 && q * y == 1.0;
    MulPositive(q, y - x);
    assert q * (y - x) == 1.0 - q * x;
    assert (p - q) * x > 0.0;
    PositiveFactor(p - q, x);
  }

  lemma ReciprocalOrder(a: nat, b: nat)
    requires 0 < a <= b
    ensures Reciprocal(a) >= Reciprocal(b) > 0.0
  {
    if a < b {
      InverseOrder(a as real, b as real);
    }
  }

  lemma HalfOf(a: nat, c: nat)
    requires 0 < a < 2 * c
    ensures Reciprocal(a) > Reciprocal(c) / 2.0
  {
    var x, y := a as real, c as real;
    assert x < 2.0 * y;
    InverseOrder(x, 2.0 * y);
    assert 1.0 / (2.0 * y) == (1.0 / y) / 2.0;
  }

  lemma TwoHalvesBeatOne(a: nat, b: nat, c: nat)
    requires 0 < c && 0 < a < 2 * c && 0 < b < 2 * c
    ensures Reciprocal(a) + Reciprocal(b) > Reciprocal(c)
  {
    HalfOf(a, c);
    HalfOf(b, c);
  }

  lemma HalvesMakeOne(c: nat)
    requires 0 < c
    ensures Reciprocal(2 * c) + Reciprocal(2 * c) == Reciprocal(c)
  {
    var y := c as real;
    assert (2 * c) as real == 2.0 * y;
    assert 1.0 / (2.0 * y) == (1.0 / y) / 2.0;
  }

  // ---------------------------------------------------------------- the formula

  lemma {:induction false} RankOf(list: seq<int>, i: nat)
    requires Distinct(list) && i < |list|
    ensures RankIn(list, list[i]) == i + 1
  {
    if i < |list| - 1 {
      RankOf(list[..|list| - 1], i);
    }
  }

  /** The rows of a list get 1 / (k + 1), 1 / (k + 2) and so on; a row found by both gets both. */
  lemma FusedFormula(vector: seq<int>, keyword: seq<int>, k: nat, id: int)
    requires Distinct(vector) && Distinct(keyword) && id in vector + keyword
    ensures forall i :: 0 <= i < |vector| && vector[i] == id && id !in keyword ==>
      Fused(vector, keyword, k)[id] == 1.0 / (k + i + 1) as real
    ensures forall j :: 0 <= j < |keyword| && keyword[j] == id && id !in vector ==>
      Fused(vector, keyword, k)[id] == 1.0 / (k + j + 1) as real
    ensures forall i, j :: 0 <= i < |vector| && vector[i] == id && 0 <= j < |keyword| && keyword[j] == id ==>
      Fused(vector, keyword, k)[id] == 1.0 / (k + i + 1) as real + 1.0 / (k + j + 1) as real
  {
    forall i | 0 <= i < |vector| && vector[i] == id
      ensures RankIn(vector, id) == i + 1
    {
      RankOf(vector, i);
    }
    forall j | 0 <= j < |keyword| && keyword[j] == id
      ensures RankIn(keyword, id) == j + 1
    {
      RankOf(keyword, j);
    }
  }

  /** Rows found by one retriever only keep its order. */
  lemma OneListKeepsOrder(vector: seq<int>, keyword: seq<int>, k: nat, i: nat, j: nat)
    requires Distinct(vector) && i < j < |vector| && vector[i] !in keyword && vector[j] !in keyword
    ensures Fused(vector, keyword, k)[vector[i]] > Fused(vector, keyword, k)[vector[j]]
    ensures Fused(keyword, vector, k)[vector[i]] > Fused(keyword, vector, k)[vector[j]]
  {
    RankOf(vector, i);
    RankOf(vector, j);
    InverseOrder((k + i + 1) as real, (k + j + 1) as real);
  }

  // ---------------------------------------------------------------- agreement

  lemma SharesAtLeast(vector: seq<int>, keyword: seq<int>, k: nat, x: int)
    requires x in vector && x in keyword
    ensures Fused(vector, keyword, k)[x] >= Reciprocal(k + |vector|) + Reciprocal(k + |keyword|)
  {
    ReciprocalOrder(k + RankIn(vector, x), k + |vector|);
    ReciprocalOrder(k + RankIn(keyword, x), k + |keyword|);
  }

  lemma ShareAtMost(vector: seq<int>, keyword: seq<int>, k: nat, y: int)
    requires y in vector + keyword && !(y in vector && y in keyword)
    ensures Fused(vector, keyword, k)[y] <= Reciprocal(k + 1)
  {
    if y in vector {
      ReciprocalOrder(k + 1, k + RankIn(vector, y));
    } else {
      ReciprocalOrder(k + 1, k + RankIn(keyword, y));
    }
  }

  /** The guard on the two limits: their last ranks together outweigh one first rank. */
  predicate LastsOutweighFirst(k: nat, vectorK: nat, keywordK: nat)
    requires vectorK > 0 && keywordK > 0
  {
    Reciprocal(k + vectorK) + Reciprocal(k + keywordK) > Reciprocal(k + 1)
  }

  lemma AgreementWithinLimits(vector: seq<int>, keyword: seq<int>, k: nat, vectorK: nat, keywordK: nat)
    requires 0 < vectorK && 0 < keywordK && |vector| <= vectorK && |keyword| <= keywordK
    requires LastsOutweighFirst(k, vectorK, keywordK)
    ensures AgreementWins(vector, keyword, k)
  {
    var fused := Fused(vector, keyword, k);
    forall x, y | x in vector && x in keyword && y in vector + keyword && !(y in vector && y in keyword)
      ensures Before(fused, x, y)
    {
      SharesAtLeast(vector, keyword, k, x);
      ShareAtMost(vector, keyword, k, y);
      ReciprocalOrder(k + |vector|, k + vectorK);
      ReciprocalOrder(k + |keyword|, k + keywordK);
    }
  }

  /** Row 0 first in one list only, row 1 last in both: the lists that put agreement to the test. */
  function TestVector(n: nat): (list: seq<int>)
    requires n >= 2
    ensures |list| == n && list[0] == 0 && list[n - 1] == 1
    ensures forall i :: 0 < i < n - 1 ==> list[i] == i + 1
  {
    [0] + seq(n - 2, i => i + 2) + [1]
  }

  function TestKeyword(n: nat): (list: seq<int>)
    requires n >= 1
    ensures |list| == n && list[n - 1] == 1
    ensures forall i :: 0 <= i < n - 1 ==> list[i] == -1 - i
  {
    seq(n - 1, i => -1 - i) + [1]
  }

  lemma TestVectorRanks(n: nat)
    requires n >= 2
    ensures Distinct(TestVector(n)) && RankIn(TestVector(n), 0) == 1 && RankIn(TestVector(n), 1) == n
  {
    var v := TestVector(n);
    assert v[0] == 0 && v[n - 1] == 1;
    var r := RankIn(v, 0);
    assert r > 0 && v[r - 1] == 0;
  }

  lemma TestKeywordRanks(n: nat)
    requires n >= 1
    ensures Distinct(TestKeyword(n)) && RankIn(TestKeyword(n), 0) == 0 && RankIn(TestKeyword(n), 1) == n
  {
    var w := TestKeyword(n);
    assert w[n - 1] == 1;
    assert 0 !in w;
  }

  lemma FusedAt(vector: seq<int>, keyword: seq<int>, k: nat, id: int)
    requires id in vector || id in keyword
    ensures id in Fused(vector, keyword, k)
    ensures Fused(vector, keyword, k)[id] == Share(vector, k, id) + Share(keyword, k, id)
  {
  }

  lemma TestShares(k: nat, vectorK: nat, keywordK: nat)
    requires vectorK >= 2 && keywordK >= 1
    ensures var v, w := TestVector(vectorK), TestKeyword(keywordK);
      && 1 in v && 1 in w && 0 in v && 0 !in w
      && Share(v, k, 1) == Reciprocal(k + vectorK) && Share(w, k, 1) == Reciprocal(k + keywordK)
      && Share(v, k, 0) == Reciprocal(k + 1) && Share(w, k, 0) == 0.0
  {
    TestVectorRanks(vectorK);
    TestKeywordRanks(keywordK);
  }

  lemma TestScores(k: nat, vectorK: nat, keywordK: nat)
    requires vectorK >= 2 && keywordK >= 1
    ensures var v, w := TestVector(vectorK), TestKeyword(keywordK);
      && 1 in v && 1 in w && 0 in v && 0 !in w
      && Fused(v, w, k)[1] == Reciprocal(k + vectorK) + Reciprocal(k + keywordK)
      && Fused(v, w, k)[0] == Reciprocal(k + 1)
  {
    TestShares(k, vectorK, keywordK);
    FusedAt(TestVector(vectorK), TestKeyword(keywordK), k, 1);
    FusedAt(TestVector(vectorK), TestKeyword(keywordK), k, 0);
  }

  lemma AgreementFailsBeyond(k: nat, vectorK: nat, keywordK: nat)
    requires vectorK > 0 && keywordK > 0 && !LastsOutweighFirst(k, vectorK, keywordK)
    ensures vectorK >= 2
    ensures !AgreementWins(TestVector(vectorK), TestKeyword(keywordK), k)
  {
    ReciprocalOrder(k + keywordK, k + keywordK);
    assert vectorK >= 2;
    TestScores(k, vectorK, keywordK);
    var v, w := TestVector(vectorK), TestKeyword(keywordK);
    assert !Before(Fused(v, w, k), 1, 0);
    assert 0 in v + w;
  }

  ghost predicate AgreementAlwaysWins(k: nat, vectorK: nat, keywordK: nat) {
    forall v, w :: Distinct(v) && Distinct(w) && |v| <= vectorK && |w| <= keywordK ==> AgreementWins(v, w, k)
  }

  /** For every pair of hit lists within the limits agreement wins, exactly when the guard on the limits holds. */
  lemma AgreementExact(k: nat, vectorK: nat, keywordK: nat)
    requires vectorK > 0 && keywordK > 0
    ensures AgreementAlwaysWins(k, vectorK, keywordK) <==> LastsOutweighFirst(k, vectorK, keywordK)
  {
    if LastsOutweighFirst(k, vectorK, keywordK) {
      forall v, w | Distinct(v) && Distinct(w) && |v| <= vectorK && |w| <= keywordK
        ensures AgreementWins(v, w, k)
      {
        AgreementWithinLimits(v, w, k, vectorK, keywordK);
      }
    } else {
      AgreementFailsBeyond(k, vectorK, keywordK);
      TestVectorRanks(vectorK);
      TestKeywordRanks(keywordK);
    }
  }

  /** Limits up to k + 1 are enough (the defaults are 30, 30 and k = 60); at k + 2 a tie falls to the id. */
  lemma AgreementThreshold(k: nat, vectorK: nat, keywordK: nat)
    requires 0 < vectorK <= k + 1 && 0 < keywordK <= k + 1
    ensures AgreementAlwaysWins(k, vectorK, keywordK)
    ensures !AgreementAlwaysWins(k, k + 2, k + 2)
  {
    assert LastsOutweighFirst(k, vectorK, keywordK) by {
      TwoHalvesBeatOne(k + vectorK, k + keywordK, k + 1);
    }
    AgreementExact(k, vectorK, keywordK);
    assert !LastsOutweighFirst(k, k + 2, k + 2) by {
      HalvesMakeOne(k + 1);
      assert k + (k + 2) == 2 * (k + 1);
    }
    AgreementExact(k, k + 2, k + 2);
  }

  /** What agreement means for the answer: no row found by both is left out while a row found by one is kept. */
  lemma AgreedRowsAreKept(vector: seq<int>, keyword: seq<int>, k: nat, limit: nat, x: int, y: int)
    requires |vector| <= k + 1 && |keyword| <= k + 1
    requires x in vector && x in keyword && !(y in vector && y in keyword)
    requires y in HybridRows(vector, keyword, k, limit)
    ensures x in HybridRows(vector, keyword, k, limit)
  {
    var fused := Fused(vector, keyword, k);
    LimitKeepsRows(fused, limit);
    assert Before(fused, x, y) by {
      TwoHalvesBeatOne(k + |vector|, k + |keyword|, k + 1);
      AgreementWithinLimits(vector, keyword, k, |vector|, |keyword|);
    }
    LimitKeepsTop(fused, limit);
  }
}
