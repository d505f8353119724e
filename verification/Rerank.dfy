/** Listwise reranking (internal/rerank/rerank.go), driven by an arbitrary model response. */
module Rerank {
  import opened Wrappers
  import Text

  /** A candidate passage, by chunk id, with the score the reranker gave it. */
  datatype Candidate = Candidate(id: int, score: real)

  datatype Item = Item(index: int, score: real)

  /**
   * The "scores" value, or the bare response, as JSON: an object is what it gives as an item, or nothing when a field
   * has another type; a string, a Boolean or broken text is Other.
   */
  datatype Json = Null | Number(value: real) | Object(item: Option<Item>) | List(elements: seq<Json>) | Other

  /** The outcome of the scoring call. */
  datatype Response = CallFailed | Answered(scores: Json)

  datatype Reranked = Reranked(ranked: seq<Candidate>, reordered: nat, fallback: bool)

  // ---------------------------------------------------------------- scores

  function Flat(groups: seq<seq<Item>>): seq<Item> {
    if groups == [] then [] else Flat(groups[..|groups| - 1]) + groups[|groups| - 1]
  }

  function Positional(numbers: seq<real>): (items: seq<Item>)
    ensures |items| == |numbers| && forall i :: 0 <= i < |items| ==> items[i] == Item(i, numbers[i])
  {
    seq(|numbers|, i requires 0 <= i < |numbers| => Item(i, numbers[i]))
  }

  /** json.Unmarshal into an item: null leaves it zero. */
  function DecodeItem(j: Json): Option<Item> {
    match j
    case Null => Some(Item(0, 0.0))
    case Object(item) => item
    case _ => None
  }

  function DecodeNumber(j: Json): Option<real> {
    match j
    case Null => Some(0.0)
    case Number(value) => Some(value)
    case _ => None
  }

  /** A slice decodes when all its elements do. */
  function All<T>(xs: seq<Option<T>>): (r: Option<seq<T>>)
    ensures r.Some? <==> forall i :: 0 <= i < |xs| ==> xs[i].Some?
    ensures r.Some? ==> |r.value| == |xs| && forall i :: 0 <= i < |xs| ==> r.value[i] == xs[i].value
  {
    if xs == [] then Some([]) else
    match (All(xs[..|xs| - 1]), xs[|xs| - 1])
    case (Some(init), Some(last)) => Some(init + [last])
    case _ => None
  }

  function DecodeItems(j: Json): Option<seq<Item>> {
    match j
    case Null => Some([])
    case List(es) => All(seq(|es|, i requires 0 <= i < |es| => DecodeItem(es[i])))
    case _ => None
  }

  function DecodeGroups(j: Json): Option<seq<seq<Item>>> {
    match j
    case Null => Some([])
    case List(es) => All(seq(|es|, i requires 0 <= i < |es| => DecodeItems(es[i])))
    case _ => None
  }

  function DecodeNumbers(j: Json): Option<seq<real>> {
    match j
    case Null => Some([])
    case List(es) => All(seq(|es|, i requires 0 <= i < |es| => DecodeNumber(es[i])))
    case _ => None
  }

  /** The first shape that fits: items, groups of items, or numbers by position. */
  function Decoded(j: Json): Option<seq<Item>> {
    var direct, groups, numbers := DecodeItems(j), DecodeGroups(j), DecodeNumbers(j);
    if direct.Some? then direct
    else if groups.Some? then Some(Flat(groups.value))
    else if numbers.Some? then Some(Positional(numbers.value))
    else None
  }

  function ItemsOf(j: Json): seq<Item> { if Decoded(j).Some? then Decoded(j).value else [] }

  method FlattenScoreItems(j: Json) returns (items: Option<seq<Item>>)
    ensures items == Decoded(j)
  {
    var direct := DecodeItems(j);
    if direct.Some? {
      return direct;
    }
    var nested := DecodeGroups(j);
    if nested.Some? {
      var groups, out := nested.value, [];
      for i := 0 to |groups|
        invariant out == Flat(groups[..i])
      {
        assert groups[..i + 1][..i] == groups[..i];
        out := out + groups[i];
      }
      assert groups[..|groups|] == groups;
      return Some(out);
    }
    var bare := DecodeNumbers(j);
    if bare.Some? {
      var numbers, out := bare.value, [];
      for i := 0 to |numbers|
        invariant out == Positional(numbers[..i])
      {
        out := out + [Item(i, numbers[i])];
      }
      assert numbers[..|numbers|] == numbers;
      return Some(out);
    }
    return None;
  }

  /** The score the last item for passage `i` gives it; 0 when none does. */
  function ScoreOf(items: seq<Item>, i: int): real {
    if items == [] then 0.0
    else if items[|items| - 1].index == i then items[|items| - 1].score
    else ScoreOf(items[..|items| - 1], i)
  }

  predicate Names(items: seq<Item>, n: nat) {
    exists k :: 0 <= k < |items| && 0 <= items[k].index < n
  }

  lemma NamesStep(items: seq<Item>, k: nat, n: nat)
    requires k < |items|
    ensures Names(items[..k + 1], n) <==> Names(items[..k], n) || 0 <= items[k].index < n
  {
    if Names(items[..k], n) {
      var j :| 0 <= j < k && 0 <= items[..k][j].index < n;
      assert 0 <= items[..k + 1][j].index < n;
    }
    if 0 <= items[k].index < n {
      assert items[..k + 1][k] == items[k];
    }
    if Names(items[..k + 1], n) && !(0 <= items[k].index < n) {
      var j :| 0 <= j < k + 1 && 0 <= items[..k + 1][j].index < n;
      assert items[..k][j] == items[..k + 1][j];
    }
  }

  /** Maps the items onto n passages; an error exactly when no item names one of them. */
  method ParseScores(j: Json, n: nat) returns (scores: Option<seq<real>>)
    ensures scores.Some? <==> Names(ItemsOf(j), n)
    ensures scores.Some? ==> |scores.value| == n
    ensures scores.Some? ==> forall i :: 0 <= i < n ==> scores.value[i] == ScoreOf(ItemsOf(j), i)
  {
    var flat := FlattenScoreItems(j);
    if flat == None || flat.value == [] {
      return None;
    }
    var items := flat.value;
    var out := seq(n, i => 0.0);
    var seen := 0;
    for k := 0 to |items|
      invariant |out| == n && seen >= 0
      invariant forall i :: 0 <= i < n ==> out[i] == ScoreOf(items[..k], i)
      invariant seen > 0 <==> Names(items[..k], n)
    {
      var item := items[k];
      assert items[..k + 1][..k] == items[..k];
      NamesStep(items, k, n);
      if item.index < 0 || item.index >= n {
        continue;
      }
      out := out[item.index := item.score];
      seen := seen + 1;
    }
    assert items[..|items|] == items;
    if seen == 0 {
      return None;
    }
    return Some(out);
  }

  function Objects(items: seq<Item>): (es: seq<Json>)
    ensures |es| == |items| && forall i :: 0 <= i < |es| ==> es[i] == Object(Some(items[i]))
  {
    seq(|items|, i requires 0 <= i < |items| => Object(Some(items[i])))
  }

  function Lists(groups: seq<seq<Item>>): (es: seq<Json>)
    ensures |es| == |groups| && forall i :: 0 <= i < |es| ==> es[i] == List(Objects(groups[i]))
  {
    seq(|groups|, i requires 0 <= i < |groups| => List(Objects(groups[i])))
  }

  lemma ObjectsDecode(items: seq<Item>)
    ensures DecodeItems(List(Objects(items))) == Some(items)
  {
    var es := Objects(items);
    var decoded := seq(|es|, i requires 0 <= i < |es| => DecodeItem(es[i]));
    assert forall i :: 0 <= i < |es| ==> decoded[i] == Some(items[i]);
    assert All(decoded).value == items;
  }

  lemma ListsDecode(groups: seq<seq<Item>>)
    ensures DecodeGroups(List(Lists(groups))) == Some(groups)
    ensures groups != [] ==> DecodeItems(List(Lists(groups))) == None
  {
    var es := Lists(groups);
    forall i | 0 <= i < |groups|
      ensures DecodeItems(es[i]) == Some(groups[i]) && DecodeItem(es[i]) == None
    {
      ObjectsDecode(groups[i]);
    }
    var decoded := seq(|es|, i requires 0 <= i < |es| => DecodeItems(es[i]));
    assert forall i :: 0 <= i < |es| ==> decoded[i] == Some(groups[i]);
    assert All(decoded).value == groups;
    var items := seq(|es|, i requires 0 <= i < |es| => DecodeItem(es[i]));
    assert groups != [] ==> items[0] == None;
  }

  /** Only the items count, not the nesting they came in: nested lists and one list decode alike. */
  lemma NestingIrrelevant(groups: seq<seq<Item>>)
    ensures Decoded(List(Lists(groups))) == Decoded(List(Objects(Flat(groups)))) == Some(Flat(groups))
  {
    ListsDecode(groups);
    ObjectsDecode(Flat(groups));
    if groups == [] {
      assert Lists(groups) == Objects(Flat(groups)) == [];
    }
  }

  function Numbers(numbers: seq<real>): (es: seq<Json>)
    ensures |es| == |numbers| && forall i :: 0 <= i < |es| ==> es[i] == Number(numbers[i])
  {
    seq(|numbers|, i requires 0 <= i < |numbers| => Number(numbers[i]))
  }

  lemma NumbersDecode(numbers: seq<real>)
    ensures Decoded(List(Numbers(numbers))) == Some(Positional(numbers))
  {
    var es := Numbers(numbers);
    var items := seq(|es|, i requires 0 <= i < |es| => DecodeItem(es[i]));
    var groups := seq(|es|, i requires 0 <= i < |es| => DecodeItems(es[i]));
    var decoded := seq(|es|, i requires 0 <= i < |es| => DecodeNumber(es[i]));
    assert forall i :: 0 <= i < |es| ==> decoded[i] == Some(numbers[i]);
    assert All(decoded).value == numbers;
    if numbers != [] {
      assert items[0] == None && groups[0] == None;
    }
  }

  lemma {:induction false} PositionalScores(numbers: seq<real>, i: nat)
    ensures ScoreOf(Positional(numbers), i) == if i < |numbers| then numbers[i] else 0.0
  {
    if numbers != [] {
      var n := |numbers| - 1;
      PositionalScores(numbers[..n], i);
      assert Positional(numbers)[..n] == Positional(numbers[..n]);
    }
  }

  /** A bare list of numbers scores the nth passage with its nth number. */
  lemma BareIsPositional(numbers: seq<real>, i: nat)
    ensures ScoreOf(ItemsOf(List(Numbers(numbers))), i) == if i < |numbers| then numbers[i] else 0.0
  {
    NumbersDecode(numbers);
    PositionalScores(numbers, i);
  }

  /** In a list of items, or of numbers, null is an item or a number of zeros; in a list of lists it is an empty one. */
  function WithoutNulls(es: seq<Json>, zero: Json): (r: seq<Json>)
    ensures |r| == |es| && forall i :: 0 <= i < |r| ==> r[i] == if es[i].Null? then zero else es[i]
  {
    seq(|es|, i requires 0 <= i < |es| => if es[i].Null? then zero else es[i])
  }

  lemma SameElements<T>(a: seq<Option<T>>, b: seq<Option<T>>)
    requires |a| == |b| && forall i :: 0 <= i < |a| ==> a[i] == b[i]
    ensures All(a) == All(b)
  {
    assert a == b;
  }

  lemma NullIsZero(es: seq<Json>)
    ensures DecodeItems(List(es)) == DecodeItems(List(WithoutNulls(es, Object(Some(Item(0, 0.0))))))
    ensures DecodeNumbers(List(es)) == DecodeNumbers(List(WithoutNulls(es, Number(0.0))))
    ensures DecodeGroups(List(es)) == DecodeGroups(List(WithoutNulls(es, List([]))))
    ensures Decoded(Null) == Some([])
  {
    var items, numbers, lists :=
      WithoutNulls(es, Object(Some(Item(0, 0.0)))), WithoutNulls(es, Number(0.0)), WithoutNulls(es, List([]));
    assert DecodeItems(List([])) == Some([]);
    SameElements(seq(|es|, i requires 0 <= i < |es| => DecodeItem(es[i])),
                 seq(|items|, i requires 0 <= i < |items| => DecodeItem(items[i])));
    SameElements(seq(|es|, i requires 0 <= i < |es| => DecodeNumber(es[i])),
                 seq(|numbers|, i requires 0 <= i < |numbers| => DecodeNumber(numbers[i])));
    SameElements(seq(|es|, i requires 0 <= i < |es| => DecodeItems(es[i])),
                 seq(|lists|, i requires 0 <= i < |lists| => DecodeItems(lists[i])));
  }

  /** One misfit spoils the response: text that is no number, a field of another type, or no list at all. */
  lemma MisfitFails(j: Json, k: nat)
    requires j.Number? || j.Object? || j.Other?
      || (j.List? && k < |j.elements| && (j.elements[k].Other? || j.elements[k] == Object(None)))
    ensures Decoded(j) == None
  {
    if j.List? {
      var es := j.elements;
      assert seq(|es|, i requires 0 <= i < |es| => DecodeItem(es[i]))[k] == None;
      assert seq(|es|, i requires 0 <= i < |es| => DecodeItems(es[i]))[k] == None;
      assert seq(|es|, i requires 0 <= i < |es| => DecodeNumber(es[i]))[k] == None;
    }
  }

  // ---------------------------------------------------------------- stable sort

  predicate Descending(s: seq<Candidate>) {
    forall i, j :: 0 <= i < j < |s| ==> s[i].score >= s[j].score
  }

  /** The candidates with one score, in order. */
  function SameScore(s: seq<Candidate>, v: real): seq<Candidate> {
    if s == [] then [] else
    SameScore(s[..|s| - 1], v) + (if s[|s| - 1].score == v then [s[|s| - 1]] else [])
  }

  function Insert(s: seq<Candidate>, x: Candidate): seq<Candidate> {
    if s == [] || s[|s| - 1].score >= x.score then s + [x]
    else Insert(s[..|s| - 1], x) + [s[|s| - 1]]
  }

  function StableSort(s: seq<Candidate>): seq<Candidate> {
    if s == [] then [] else Insert(StableSort(s[..|s| - 1]), s[|s| - 1])
  }

  lemma SameScoreAppend(s: seq<Candidate>, x: Candidate, v: real)
    ensures SameScore(s + [x], v) == SameScore(s, v) + (if x.score == v then [x] else [])
  {
    assert (s + [x])[..|s|] == s;
  }

  lemma {:induction false} InsertBag(s: seq<Candidate>, x: Candidate)
    ensures multiset(Insert(s, x)) == multiset(s) + multiset{x}
  {
    if s != [] && s[|s| - 1].score < x.score {
      var init, last := s[..|s| - 1], s[|s| - 1];
      InsertBag(init, x);
      assert s == init + [last];
    }
  }

  lemma DescendingAppend(s: seq<Candidate>, x: Candidate)
    requires Descending(s) && forall c :: c in multiset(s) ==> c.score >= x.score
    ensures Descending(s + [x])
  {
    forall i | 0 <= i < |s|
      ensures s[i].score >= x.score
    {
      assert s[i] in multiset(s);
    }
  }

  lemma {:induction false} InsertDescends(s: seq<Candidate>, x: Candidate)
    requires Descending(s)
    ensures Descending(Insert(s, x))
  {
    if s != [] && s[|s| - 1].score < x.score {
      var init, last := s[..|s| - 1], s[|s| - 1];
      InsertDescends(init, x);
      InsertBag(init, x);
      forall c | c in multiset(init) + multiset{x}
        ensures c.score >= last.score
      {
        if c != x {
          assert c in init;
        }
      }
      DescendingAppend(Insert(init, x), last);
    }
  }

  lemma NoneAbove(init: seq<Candidate>, last: Candidate, v: real)
    requires last.score != v
    ensures SameScore(init + [last], v) == SameScore(init, v)
  {
    SameScoreAppend(init, last, v);
  }

  lemma {:induction false} InsertKeepsOrder(s: seq<Candidate>, x: Candidate, v: real)
    requires Descending(s)
    ensures SameScore(Insert(s, x), v) == SameScore(s, v) + (if x.score == v then [x] else [])
  {
    if s == [] || s[|s| - 1].score >= x.score {
      SameScoreAppend(s, x, v);
    } else {
      var init, last := s[..|s| - 1], s[|s| - 1];
      InsertKeepsOrder(init, x, v);
      SameScoreAppend(Insert(init, x), last, v);
      if v == x.score {
        NoneAbove(init, last, v);
      }
    }
  }

  /** The sort is a descending permutation in which equal scores keep their order. */
  lemma {:induction false} StableSortKeeps(s: seq<Candidate>, v: real)
    ensures Descending(StableSort(s)) && multiset(StableSort(s)) == multiset(s)
    ensures SameScore(StableSort(s), v) == SameScore(s, v)
  {
    if s != [] {
      var init, last := s[..|s| - 1], s[|s| - 1];
      assert s == init + [last];
      StableSortKeeps(init, v);
      InsertBag(StableSort(init), last);
      InsertDescends(StableSort(init), last);
      InsertKeepsOrder(StableSort(init), last, v);
    }
  }

  lemma SameScoreLast(s: seq<Candidate>)
    requires s != []
    ensures var same := SameScore(s, s[|s| - 1].score); same != [] && same[|same| - 1] == s[|s| - 1]
  {
  }

  lemma {:induction false} SameScoreOccurs(s: seq<Candidate>, v: real)
    requires SameScore(s, v) != []
    ensures exists i :: 0 <= i < |s| && s[i].score == v
  {
    if s[|s| - 1].score != v {
      SameScoreOccurs(s[..|s| - 1], v);
      var i :| 0 <= i < |s| - 1 && s[..|s| - 1][i].score == v;
      assert s[i].score == v;
    }
  }

  predicate SameScores(s: seq<Candidate>, t: seq<Candidate>, v: real) { SameScore(s, v) == SameScore(t, v) }

  lemma EmptyTogether(s: seq<Candidate>, t: seq<Candidate>)
    requires forall v: real :: SameScores(s, t, v)
    ensures s == [] <==> t == []
  {
    var v := if s != [] then s[|s| - 1].score else if t != [] then t[|t| - 1].score else 0.0;
    assert SameScores(s, t, v);
    if s != [] {
      SameScoreLast(s);
    } else if t != [] {
      SameScoreLast(t);
    }
  }

  lemma DropLast(a: seq<Candidate>, b: seq<Candidate>, tail: seq<Candidate>)
    requires a + tail == b + tail
    ensures a == b
  {
    assert |a| == |b|;
    assert a == (a + tail)[..|a|] && b == (b + tail)[..|b|];
  }

  lemma LastsAgree(s: seq<Candidate>, t: seq<Candidate>)
    requires s != [] && t != [] && Descending(s) && Descending(t) && forall v: real :: SameScores(s, t, v)
    ensures s[|s| - 1] == t[|t| - 1]
  {
    var a, b := s[|s| - 1], t[|t| - 1];
    SameScoreLast(s);
    SameScoreLast(t);
    assert SameScores(s, t, a.score) && SameScores(s, t, b.score);
    SameScoreOccurs(t, a.score);
    SameScoreOccurs(s, b.score);
  }

  /** There is only one stable descending order, so any stable sort returns this one. */
  lemma {:induction false} StableOrderUnique(s: seq<Candidate>, t: seq<Candidate>)
    requires Descending(s) && Descending(t) && forall v: real :: SameScores(s, t, v)
    ensures s == t
    decreases |s|
  {
    if s == [] || t == [] {
      EmptyTogether(s, t);
    } else {
      var a, b := s[|s| - 1], t[|t| - 1];
      LastsAgree(s, t);
      var s', t' := s[..|s| - 1], t[..|t| - 1];
      forall v: real
        ensures SameScores(s', t', v)
      {
        assert SameScores(s, t, v);
        DropLast(SameScore(s', v), SameScore(t', v), if a.score == v then [a] else []);
      }
      StableOrderUnique(s', t');
      assert s == s' + [a] && t == t' + [b];
    }
  }

  lemma {:induction false} InsertSplit(s: seq<Candidate>, j: nat, x: Candidate)
    requires j <= |s| && forall k :: j <= k < |s| ==> s[k].score < x.score
    ensures Insert(s, x) == Insert(s[..j], x) + s[j..]
  {
    if j < |s| {
      var init := s[..|s| - 1];
      InsertSplit(init, j, x);
      assert init[..j] == s[..j] && s[j..] == init[j..] + [s[|s| - 1]];
    } else {
      assert s[..j] == s && s[j..] == [];
    }
  }

  lemma Sifted(s: seq<Candidate>, sorted: seq<Candidate>, j: nat, x: Candidate)
    requires |s| == |sorted| + 1 && j <= |sorted| && s[j] == x && (j == 0 || sorted[j - 1].score >= x.score)
    requires forall k :: 0 <= k < j ==> s[k] == sorted[k]
    requires forall k :: j <= k < |sorted| ==> s[k + 1] == sorted[k] && sorted[k].score < x.score
    ensures s == Insert(sorted, x)
  {
    InsertSplit(sorted, j, x);
    assert Insert(sorted[..j], x) == sorted[..j] + [x];
    forall m | 0 <= m < |s|
      ensures s[m] == (sorted[..j] + [x] + sorted[j..])[m]
    {
      assert m > j ==> s[(m - 1) + 1] == sorted[m - 1];
    }
  }

  method SiftDown(a: array<Candidate>, i: nat)
    requires i < a.Length
    modifies a
    ensures a[..i + 1] == Insert(old(a[..i]), old(a[i]))
    ensures a[i + 1..] == old(a[i + 1..])
  {
    ghost var sorted := a[..i];
    var x := a[i];
    var j := i;
    while j > 0 && a[j - 1].score < x.score
      invariant 0 <= j <= i
      invariant forall k :: 0 <= k < j ==> a[k] == sorted[k]
      invariant forall k :: j <= k < i ==> a[k + 1] == sorted[k] && sorted[k].score < x.score
      invariant a[i + 1..] == old(a[i + 1..])
    {
      a[j] := a[j - 1];
      j := j - 1;
    }
    a[j] := x;
    Sifted(a[..i + 1], sorted, j, x);
  }

  /** sort.SliceStable by descending score, as an in-place insertion sort. */
  method SortStable(a: array<Candidate>)
    modifies a
    ensures a[..] == StableSort(old(a[..]))
  {
    ghost var s := a[..];
    for i := 0 to a.Length
      invariant a[..i] == StableSort(s[..i]) && a[i..] == s[i..]
    {
      assert s[..i + 1][..i] == s[..i];
      assert a[i] == a[i..][0] && s[i] == s[i..][0];
      SiftDown(a, i);
      assert a[i + 1..] == s[i..][1..] == s[i + 1..];
    }
    assert s[..a.Length] == s && a[..a.Length] == a[..];
  }

  // ---------------------------------------------------------------- reranking

  predicate DistinctIds(s: seq<Candidate>) {
    forall i, j :: 0 <= i < j < |s| ==> s[i].id != s[j].id
  }

  function Top(s: seq<Candidate>, n: nat): seq<Candidate> { if n <= |s| then s[..n] else s }

  function Scored(pool: seq<Candidate>, items: seq<Item>): (s: seq<Candidate>)
    ensures |s| == |pool|
    ensures forall i :: 0 <= i < |s| ==> s[i] == Candidate(pool[i].id, ScoreOf(items, i))
  {
    seq(|pool|, i requires 0 <= i < |pool| => Candidate(pool[i].id, ScoreOf(items, i)))
  }

  /** Positions whose candidate differs. */
  function Moved(s: seq<Candidate>, t: seq<Candidate>): nat
    requires |s| == |t|
  {
    if s == [] then 0 else
    Moved(s[..|s| - 1], t[..|s| - 1]) + (if s[|s| - 1].id != t[|s| - 1].id then 1 else 0)
  }

  /** The candidates that are scored: at most maxCandidates of them when that is positive. */
  function Pool(candidates: seq<Candidate>, maxCandidates: int): seq<Candidate> {
    if 0 < maxCandidates < |candidates| then candidates[..maxCandidates] else candidates
  }

  predicate Skips(candidates: seq<Candidate>, topN: nat) { |candidates| <= 1 || topN >= |candidates| }

  predicate Usable(candidates: seq<Candidate>, maxCandidates: int, response: Response) {
    response.Answered? && Names(ItemsOf(response.scores), |Pool(candidates, maxCandidates)|)
  }

  function Ordered(candidates: seq<Candidate>, maxCandidates: int, scores: Json): seq<Candidate> {
    StableSort(Scored(Pool(candidates, maxCandidates), ItemsOf(scores)))
  }

  lemma SameLength(s: seq<Candidate>, t: seq<Candidate>)
    requires multiset(s) == multiset(t)
    ensures |s| == |t|
  {
    assert |multiset(s)| == |s| && |multiset(t)| == |t|;
  }

  lemma OrderedIsPool(pool: seq<Candidate>, items: seq<Item>)
    ensures var ordered := StableSort(Scored(pool, items));
      |ordered| == |pool| && forall c :: c in ordered ==> exists p :: p in pool && p.id == c.id
  {
    var scored := Scored(pool, items);
    StableSortKeeps(scored, 0.0);
    SameLength(StableSort(scored), scored);
    forall c | c in StableSort(scored)
      ensures exists p :: p in pool && p.id == c.id
    {
      assert c in multiset(StableSort(scored));
      var i :| 0 <= i < |scored| && scored[i] == c;
      assert pool[i] in pool;
    }
  }

  /** Counts the ranked candidates whose position in the pool was another one. */
  method CountMoved(pool: seq<Candidate>, ranked: seq<Candidate>) returns (reordered: nat)
    requires |pool| == |ranked| && DistinctIds(pool)
    requires forall c :: c in ranked ==> exists p :: p in pool && p.id == c.id
    ensures reordered == Moved(pool, ranked)
  {
    var originalPos: map<int, nat> := map[];
    for i := 0 to |pool|
      invariant forall k :: 0 <= k < i ==> pool[k].id in originalPos && originalPos[pool[k].id] == k
    {
      originalPos := originalPos[pool[i].id := i];
    }
    reordered := 0;
    for i := 0 to |ranked|
      invariant reordered == Moved(pool[..i], ranked[..i])
    {
      assert ranked[i] in ranked;
      var p :| p in pool && p.id == ranked[i].id;
      var k :| 0 <= k < |pool| && pool[k] == p;
      assert pool[..i + 1][..i] == pool[..i] && ranked[..i + 1][..i] == ranked[..i];
      if originalPos[ranked[i].id] != i {
        reordered := reordered + 1;
      }
    }
    assert pool[..|pool|] == pool && ranked[..|ranked|] == ranked;
  }

  lemma {:induction false} DistinctOccursOnce(s: seq<Candidate>, c: Candidate)
    requires DistinctIds(s)
    ensures multiset(s)[c] <= 1
  {
    if s != [] {
      var init := s[..|s| - 1];
      assert s == init + [s[|s| - 1]];
      DistinctOccursOnce(init, c);
    }
  }

  lemma DistinctIsBagProperty(s: seq<Candidate>, t: seq<Candidate>)
    requires DistinctIds(s) && multiset(s) == multiset(t)
    ensures DistinctIds(t)
  {
    forall i, j | 0 <= i < j < |t|
      ensures t[i].id != t[j].id
    {
      var front, back := t[..j], t[j..];
      assert t == front + back;
      assert front[i] == t[i] && back[0] == t[j];
      assert t[i] in multiset(front) && t[j] in multiset(back);
      assert multiset(s) == multiset(front) + multiset(back);
      if t[i] == t[j] {
        assert multiset(s)[t[i]] >= 2;
        DistinctOccursOnce(s, t[i]);
      }
      assert t[i] in multiset(s) && t[j] in multiset(s);
      var a :| 0 <= a < |s| && s[a] == t[i];
      var b :| 0 <= b < |s| && s[b] == t[j];
    }
  }

  lemma SortedHasDistinctIds(pool: seq<Candidate>, items: seq<Item>)
    requires DistinctIds(pool)
    ensures DistinctIds(StableSort(Scored(pool, items)))
  {
    var scored := Scored(pool, items);
    StableSortKeeps(scored, 0.0);
    DistinctIsBagProperty(scored, StableSort(scored));
  }

  // ---------------------------------------------------------------- the order of the result

  /** Passage k goes before passage j: a higher score, or the same and an earlier place in the fusion order. */
  predicate Ahead(items: seq<Item>, k: int, j: int) {
    ScoreOf(items, k) > ScoreOf(items, j) || (ScoreOf(items, k) == ScoreOf(items, j) && k < j)
  }

  /** One of the first m candidates, with the score the items give its place. */
  predicate IsScored(candidates: seq<Candidate>, m: nat, items: seq<Item>, c: Candidate)
    requires m <= |candidates|
  {
    exists k :: 0 <= k < m && c == Candidate(candidates[k].id, ScoreOf(items, k))
  }

  predicate NotUpTo(kept: seq<Candidate>, p: int, id: int)
    requires p < |kept|
  {
    forall q :: 0 <= q <= p ==> kept[q].id != id
  }

  /**
   * The result holds some of the first m candidates with their scores, none twice, by descending score, and goes
   * ahead of each candidate that it holds later or leaves out.
   */
  predicate BestFirst(candidates: seq<Candidate>, m: nat, items: seq<Item>, kept: seq<Candidate>)
    requires m <= |candidates|
  {
    && (forall p :: 0 <= p < |kept| ==> IsScored(candidates, m, items, kept[p]))
    && (forall p, q :: 0 <= p < q < |kept| ==> kept[p].id != kept[q].id && kept[p].score >= kept[q].score)
    && (forall p, k, j :: 0 <= p < |kept| && 0 <= k < m && 0 <= j < m ==>
         kept[p].id == candidates[k].id && NotUpTo(kept, p, candidates[j].id) ==> Ahead(items, k, j))
  }

  predicate Precedes(place: map<int, nat>, c: Candidate, d: Candidate) {
    c.id in place && d.id in place
    && (c.score > d.score || (c.score == d.score && place[c.id] < place[d.id]))
  }

  predicate InPlace(place: map<int, nat>, s: seq<Candidate>) {
    forall p, q :: 0 <= p < q < |s| ==> Precedes(place, s[p], s[q])
  }

  lemma InsertInPlace(place: map<int, nat>, s: seq<Candidate>, x: Candidate)
    requires InPlace(place, s) && x.id in place
    requires forall c :: c in s ==> c.id in place && place[c.id] < place[x.id]
    ensures InPlace(place, Insert(s, x))
  {
    if s == [] || s[|s| - 1].score >= x.score {
      forall p | 0 <= p < |s|
        ensures Precedes(place, s[p], x)
      {
        assert s[p] in s;
        assert p < |s| - 1 ==> Precedes(place, s[p], s[|s| - 1]);
      }
    } else {
      var init, last := s[..|s| - 1], s[|s| - 1];
      InsertInPlace(place, init, x);
      InsertBag(init, x);
      var t := Insert(init, x);
      forall p | 0 <= p < |t|
        ensures Precedes(place, t[p], last)
      {
        assert t[p] in multiset(init) + multiset{x};
        assert last in s;
        if t[p] != x {
          var q :| 0 <= q < |init| && init[q] == t[p];
          assert Precedes(place, s[q], s[|s| - 1]);
        }
      }
    }
  }

  lemma {:induction false} SortInPlace(place: map<int, nat>, s: seq<Candidate>)
    requires forall i :: 0 <= i < |s| ==> s[i].id in place && place[s[i].id] == i
    ensures InPlace(place, StableSort(s))
  {
    if s != [] {
      var init, last := s[..|s| - 1], s[|s| - 1];
      SortInPlace(place, init);
      StableSortKeeps(init, 0.0);
      forall c | c in StableSort(init)
        ensures c.id in place && place[c.id] < place[last.id]
      {
        assert c in multiset(init);
      }
      InsertInPlace(place, StableSort(init), last);
    }
  }

  /** Who is not among the first stands later. */
  lemma StandsLater(pool: seq<Candidate>, items: seq<Item>, p: nat, j: nat)
    requires j < |pool| && p < |StableSort(Scored(pool, items))|
    requires NotUpTo(StableSort(Scored(pool, items)), p, pool[j].id)
    ensures var sorted := StableSort(Scored(pool, items));
      exists q :: p < q < |sorted| && sorted[q] == Candidate(pool[j].id, ScoreOf(items, j))
  {
    var scored := Scored(pool, items);
    StableSortKeeps(scored, 0.0);
    assert scored[j] in multiset(scored);
    assert scored[j] in StableSort(scored);
  }

  lemma SourceOf(pool: seq<Candidate>, items: seq<Item>, p: nat)
    requires p < |StableSort(Scored(pool, items))|
    ensures IsScored(pool, |pool|, items, StableSort(Scored(pool, items))[p])
  {
    var scored := Scored(pool, items);
    StableSortKeeps(scored, 0.0);
    assert StableSort(scored)[p] in multiset(StableSort(scored));
    var k :| 0 <= k < |scored| && scored[k] == StableSort(scored)[p];
  }

  lemma PlacesOf(pool: seq<Candidate>) returns (place: map<int, nat>)
    requires DistinctIds(pool)
    ensures forall i :: 0 <= i < |pool| ==> pool[i].id in place && place[pool[i].id] == i
  {
    place := map[];
    for n := 0 to |pool|
      invariant forall i :: 0 <= i < n ==> pool[i].id in place && place[pool[i].id] == i
    {
      place := place[pool[n].id := n];
    }
  }

  lemma GoesAhead(pool: seq<Candidate>, items: seq<Item>, p: nat, k: nat, j: nat)
    requires DistinctIds(pool) && k < |pool| && j < |pool| && p < |StableSort(Scored(pool, items))|
    requires StableSort(Scored(pool, items))[p].id == pool[k].id
    requires NotUpTo(StableSort(Scored(pool, items)), p, pool[j].id)
    ensures Ahead(items, k, j)
  {
    var sorted := StableSort(Scored(pool, items));
    var place := PlacesOf(pool);
    SortInPlace(place, Scored(pool, items));
    StandsLater(pool, items, p, j);
    SourceOf(pool, items, p);
    var q :| p < q < |sorted| && sorted[q] == Candidate(pool[j].id, ScoreOf(items, j));
    assert Precedes(place, sorted[p], sorted[q]);
  }

  /** The sorted pool, and so each of its prefixes, is in that order. */
  lemma SortedIsBestFirst(pool: seq<Candidate>, items: seq<Item>, n: nat)
    requires DistinctIds(pool) && n <= |StableSort(Scored(pool, items))|
    ensures BestFirst(pool, |pool|, items, StableSort(Scored(pool, items))[..n])
  {
    var sorted := StableSort(Scored(pool, items));
    var kept := sorted[..n];
    StableSortKeeps(Scored(pool, items), 0.0);
    SortedHasDistinctIds(pool, items);
    forall p | 0 <= p < n
      ensures IsScored(pool, |pool|, items, kept[p])
    {
      SourceOf(pool, items, p);
    }
    forall p, k, j | 0 <= p < |kept| && 0 <= k < |pool| && 0 <= j < |pool|
      ensures kept[p].id == pool[k].id && NotUpTo(kept, p, pool[j].id) ==> Ahead(items, k, j)
    {
      if kept[p].id == pool[k].id && NotUpTo(kept, p, pool[j].id) {
        assert forall q :: 0 <= q <= p ==> sorted[q] == kept[q];
        GoesAhead(pool, items, p, k, j);
      }
    }
  }

  lemma BestOfAll(candidates: seq<Candidate>, m: nat, items: seq<Item>, kept: seq<Candidate>)
    requires m <= |candidates| && BestFirst(candidates[..m], m, items, kept)
    ensures BestFirst(candidates, m, items, kept)
  {
    var pool := candidates[..m];
    forall p | 0 <= p < |kept|
      ensures IsScored(candidates, m, items, kept[p])
    {
      assert IsScored(pool, m, items, kept[p]);
      var k :| 0 <= k < m && kept[p] == Candidate(pool[k].id, ScoreOf(items, k));
      assert pool[k] == candidates[k];
    }
    forall p, k, j | 0 <= p < |kept| && 0 <= k < m && 0 <= j < m
      ensures kept[p].id == candidates[k].id && NotUpTo(kept, p, candidates[j].id) ==> Ahead(items, k, j)
    {
      assert pool[k] == candidates[k] && pool[j] == candidates[j];
    }
  }

  // ---------------------------------------------------------------- the call

  /** Copies the pool, assigns the scores, sorts in place and counts what moved. */
  method Reorder(pool: seq<Candidate>, topN: nat, scores: seq<real>, ghost items: seq<Item>) returns (r: Reranked)
    requires DistinctIds(pool) && |scores| == |pool|
    requires forall i :: 0 <= i < |pool| ==> scores[i] == ScoreOf(items, i)
    ensures var ordered := StableSort(Scored(pool, items));
      |ordered| == |pool| && r == Reranked(Top(ordered, topN), Moved(pool, ordered), false)
    ensures |r.ranked| == (if topN < |pool| then topN else |pool|) && BestFirst(pool, |pool|, items, r.ranked)
  {
    var ranked := new Candidate[|pool|](i requires 0 <= i < |pool| => pool[i]);
    for i := 0 to ranked.Length
      invariant forall k :: 0 <= k < i ==> ranked[k] == Candidate(pool[k].id, scores[k])
      invariant forall k :: i <= k < ranked.Length ==> ranked[k] == pool[k]
    {
      ranked[i] := ranked[i].(score := scores[i]);
    }
    assert ranked[..] == Scored(pool, items);
    SortStable(ranked);
    OrderedIsPool(pool, items);
    var reordered := CountMoved(pool, ranked[..]);
    SortedIsBestFirst(pool, items, if topN < |pool| then topN else |pool|);
    Text.TakeAll(ranked[..]);
    r := Reranked(Top(ranked[..], topN), reordered, false);
  }

  /** LLMReranker.Rerank; the model call is made exactly when it is not skipped. */
  method Rerank(candidates: seq<Candidate>, topN: nat, maxCandidates: int, response: Response) returns (r: Reranked)
    requires DistinctIds(candidates)
    ensures Skips(candidates, topN) ==> r == Reranked(Top(candidates, topN), 0, false)
    ensures !Skips(candidates, topN) && !Usable(candidates, maxCandidates, response) ==>
      r == Reranked(Top(candidates, topN), 0, true)
    ensures !Skips(candidates, topN) && Usable(candidates, maxCandidates, response) ==>
      var ordered := Ordered(candidates, maxCandidates, response.scores);
      && |ordered| == |Pool(candidates, maxCandidates)|
      && r == Reranked(Top(ordered, topN), Moved(Pool(candidates, maxCandidates), ordered), false)
    ensures r.fallback || |candidates| <= 1 || topN >= |candidates| ==>
      && |r.ranked| == (if topN < |candidates| then topN else |candidates|)
      && forall i :: 0 <= i < |r.ranked| ==> r.ranked[i] == candidates[i]
    ensures !r.fallback && |candidates| > 1 && topN < |candidates| ==>
      var m := if 0 < maxCandidates < |candidates| then maxCandidates else |candidates|;
      && |r.ranked| == (if topN < m then topN else m)
      && response.Answered? && BestFirst(candidates, m, ItemsOf(response.scores), r.ranked)
  {
    if |candidates| <= 1 || topN >= |candidates| {
      return Reranked(Top(candidates, topN), 0, false);
    }
    var pool := candidates;
    if maxCandidates > 0 && |pool| > maxCandidates {
      pool := pool[..maxCandidates];
    }
    if response.CallFailed? {
      return Reranked(Top(candidates, topN), 0, true);
    }
    var scores := ParseScores(response.scores, |pool|);
    if scores == None {
      return Reranked(Top(candidates, topN), 0, true);
    }
    r := Reorder(pool, topN, scores.value, ItemsOf(response.scores));
    assert pool == candidates[..|pool|];
    BestOfAll(candidates, |pool|, ItemsOf(response.scores), r.ranked);
  }

  // ---------------------------------------------------------------- what reranking promises

  /** Whatever the model answers, the result is a prefix of the fusion order or of the sorted pool, without repeats. */
  lemma RerankReturnsDistinct(candidates: seq<Candidate>, topN: nat, maxCandidates: int, scores: Json)
    requires DistinctIds(candidates)
    ensures DistinctIds(Top(candidates, topN)) && DistinctIds(Top(Ordered(candidates, maxCandidates, scores), topN))
  {
    SortedHasDistinctIds(Pool(candidates, maxCandidates), ItemsOf(scores));
  }

  lemma {:induction false} MovedZero(s: seq<Candidate>, t: seq<Candidate>)
    requires |s| == |t|
    ensures Moved(s, t) == 0 <==> forall i :: 0 <= i < |s| ==> s[i].id == t[i].id
  {
    if s != [] {
      var n := |s| - 1;
      MovedZero(s[..n], t[..n]);
      assert (forall i :: 0 <= i < n ==> s[..n][i].id == t[..n][i].id) <==>
        (forall i :: 0 <= i < n ==> s[i].id == t[i].id);
    }
  }

  lemma {:induction false} MovedOnce(s: seq<Candidate>, t: seq<Candidate>) returns (i: nat)
    requires |s| == |t| && Moved(s, t) == 1
    ensures i < |s| && s[i].id != t[i].id && forall j :: 0 <= j < |s| && j != i ==> s[j].id == t[j].id
  {
    var n := |s| - 1;
    if s[n].id != t[n].id {
      MovedZero(s[..n], t[..n]);
      i := n;
      assert forall j :: 0 <= j < n ==> s[..n][j] == s[j] && t[..n][j] == t[j];
    } else {
      i := MovedOnce(s[..n], t[..n]);
      assert forall j :: 0 <= j < n ==> s[..n][j] == s[j] && t[..n][j] == t[j];
    }
  }

  lemma MovesInPairs(pool: seq<Candidate>, ordered: seq<Candidate>, i: nat)
    requires |pool| == |ordered| && DistinctIds(ordered) && i < |pool| && pool[i].id != ordered[i].id
    requires forall c :: c in ordered ==> exists p :: p in pool && p.id == c.id
    ensures exists j :: 0 <= j < |pool| && j != i && pool[j].id != ordered[j].id
  {
    assert ordered[i] in ordered;
    var p :| p in pool && p.id == ordered[i].id;
    var j :| 0 <= j < |pool| && pool[j] == p;
    assert j != i && ordered[j].id != ordered[i].id;
  }

  /** No reordering moves exactly one candidate. */
  lemma NeverMovesOne(pool: seq<Candidate>, items: seq<Item>)
    requires DistinctIds(pool)
    ensures |StableSort(Scored(pool, items))| == |pool|
    ensures Moved(pool, StableSort(Scored(pool, items))) != 1
  {
    var ordered := StableSort(Scored(pool, items));
    OrderedIsPool(pool, items);
    SortedHasDistinctIds(pool, items);
    if Moved(pool, ordered) == 1 {
      var i := MovedOnce(pool, ordered);
      MovesInPairs(pool, ordered, i);
    }
  }

  lemma InsertLast(s: seq<Candidate>, x: Candidate)
    requires s == [] || s[|s| - 1].score >= x.score
    ensures Insert(s, x) == s + [x]
  {
  }

  lemma {:induction false} SortedAlready(s: seq<Candidate>)
    requires Descending(s)
    ensures StableSort(s) == s
  {
    if s != [] {
      var init := s[..|s| - 1];
      SortedAlready(init);
      InsertLast(init, s[|s| - 1]);
      Text.SplitLast(s);
    }
  }

  lemma SameIdsSameOrder(pool: seq<Candidate>, items: seq<Item>, ordered: seq<Candidate>)
    requires DistinctIds(pool) && |ordered| == |pool| && multiset(ordered) == multiset(Scored(pool, items))
    requires forall i :: 0 <= i < |pool| ==> pool[i].id == ordered[i].id
    ensures ordered == Scored(pool, items)
  {
    var scored := Scored(pool, items);
    forall i | 0 <= i < |pool|
      ensures ordered[i] == scored[i]
    {
      assert ordered[i] in multiset(scored);
      var j :| 0 <= j < |scored| && scored[j] == ordered[i];
    }
  }

  /** `Reordered` is 0 exactly when the scores already descend in fusion order. */
  lemma ReorderedZeroIffDescending(pool: seq<Candidate>, items: seq<Item>)
    requires DistinctIds(pool)
    ensures |StableSort(Scored(pool, items))| == |pool|
    ensures Moved(pool, StableSort(Scored(pool, items))) == 0 <==> Descending(Scored(pool, items))
  {
    var scored := Scored(pool, items);
    var ordered := StableSort(scored);
    OrderedIsPool(pool, items);
    StableSortKeeps(scored, 0.0);
    MovedZero(pool, ordered);
    if Descending(scored) {
      SortedAlready(scored);
    } else if Moved(pool, ordered) == 0 {
      SameIdsSameOrder(pool, items, ordered);
    }
  }
}
