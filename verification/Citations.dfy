/** Citation markers (internal/chat/chat.go): reading them, and stripping those that name no source. */
module Citations {
  import opened Wrappers
  import opened Text

  // ---------------------------------------------------------------- the marker expression

  /** \s of Go's regexp package. */
  predicate IsSpace(c: char) { c in " \t\n\r\U{c}" }

  /** The white space of the expression: ASCII's, without the vertical tab. */
  lemma SpacesAre(c: char)
    ensures IsSpace(c) <==> IsGoSpace(c) && c < 128 as char && c as int != 11
  {
  }

  predicate IsDigit(c: char) { '0' <= c <= '9' }

  /** Where a match stands after its '[': a number is due, one or two digits were read, or white space followed them. */
  datatype Phase = Due | One | Two | Gap

  function Next(ph: Phase, c: char): Option<Phase> {
    if IsDigit(c) then (if ph == Due then Some(One) else if ph == One then Some(Two) else None)
    else if IsSpace(c) then Some(if ph == Due then Due else Gap)
    else if c == ',' && ph != Due then Some(Due)
    else None
  }

  /** The length of the rest of a marker, its ']' included. */
  function Tail(s: string, ph: Phase): (r: Option<nat>)
    ensures r.Some? ==> 0 < r.value <= |s|
  {
    if s == "" then None
    else if s[0] == ']' && ph != Due then Some(1)
    else match Next(ph, s[0])
      case None => None
      case Some(next) => match Tail(s[1..], next) case None => None case Some(n) => Some(n + 1)
  }

  predicate Spaces(s: string) { forall i :: 0 <= i < |s| ==> IsSpace(s[i]) }

  predicate OneOrTwoDigits(s: string) { 1 <= |s| <= 2 && forall i :: 0 <= i < |s| ==> IsDigit(s[i]) }

  /** The expression after its '[': numbers of one or two digits, comma-separated, in white space, then ']'. */
  ghost predicate Matches(s: string)
    decreases |s|
  {
    exists before: string, digits: string, after: string, rest: string ::
      && s == before + digits + after + rest
      && Spaces(before) && OneOrTwoDigits(digits) && Spaces(after)
      && (rest == "]" || (rest != "" && rest[0] == ',' && |rest[1..]| < |s| && Matches(rest[1..])))
  }

  // ---------------------------------------------------------------- tokens

  /** A character outside every marker, or a marker. */
  datatype Token = Lit(c: char) | Group(text: string)

  /** FindAllString: leftmost markers first, none overlapping. */
  function Tokens(s: string): seq<Token>
    decreases |s|
  {
    if s == "" then []
    else if s[0] == '[' && Tail(s[1..], Due).Some? then
      var n := Tail(s[1..], Due).value + 1;
      [Group(s[..n])] + Tokens(s[n..])
    else [Lit(s[0])] + Tokens(s[1..])
  }

  function Raw(t: Token): string { if t.Lit? then [t.c] else t.text }

  function RawAll(toks: seq<Token>): string {
    if toks == [] then "" else Raw(toks[0]) + RawAll(toks[1..])
  }

  /** The tokens are the text, cut up. */
  lemma {:induction false} TokensPartition(s: string)
    ensures RawAll(Tokens(s)) == s
    decreases |s|
  {
    if s != "" {
      if s[0] == '[' && Tail(s[1..], Due).Some? {
        var n := Tail(s[1..], Due).value + 1;
        TokensPartition(s[n..]);
        assert s == s[..n] + s[n..];
      } else {
        TokensPartition(s[1..]);
        assert s == [s[0]] + s[1..];
      }
    }
  }

  /** The runs of one or two digits, leftmost and longest first. */
  function Numerals(g: string): (raws: seq<string>)
    ensures forall i :: 0 <= i < |raws| ==> OneOrTwoDigits(raws[i])
    decreases |g|
  {
    if g == "" then []
    else if !IsDigit(g[0]) then Numerals(g[1..])
    else if |g| > 1 && IsDigit(g[1]) then [g[..2]] + Numerals(g[2..])
    else [g[..1]] + Numerals(g[1..])
  }

  /** strconv.Atoi of one or two digits. */
  function Value(raw: string): nat
    requires OneOrTwoDigits(raw)
  {
    if |raw| == 1 then (raw[0] as int - '0' as int)
    else (raw[0] as int - '0' as int) * 10 + (raw[1] as int - '0' as int)
  }

  predicate AllNumerals(raws: seq<string>) { forall i :: 0 <= i < |raws| ==> OneOrTwoDigits(raws[i]) }

  function Values(raws: seq<string>): set<nat>
    requires AllNumerals(raws)
  {
    set i | 0 <= i < |raws| :: Value(raws[i])
  }

  /** The numbers of the markers among the tokens. */
  function Cited(toks: seq<Token>): set<nat> {
    if toks == [] then {} else
    (if toks[0].Group? then Values(Numerals(toks[0].text)) else {}) + Cited(toks[1..])
  }

  // ---------------------------------------------------------------- parsing

  predicate StrictlySorted(xs: seq<nat>) { forall i, j :: 0 <= i < j < |xs| ==> xs[i] < xs[j] }

  function Elements(xs: seq<nat>): set<nat> { set x | x in xs }

  /** The numbers that name one of n sources. */
  function Sources(xs: set<nat>, n: nat): set<nat> { set x | x in xs && 1 <= x <= n }

  function Others(xs: set<nat>, n: nat): set<nat> { xs - Sources(xs, n) }

  /** The numbers within 1..n that are cited, and the cited numbers that name no source. */
  predicate Parsed(s: string, n: nat, used: seq<nat>, unknown: seq<nat>) {
    && StrictlySorted(used) && Elements(used) == Sources(Cited(Tokens(s)), n)
    && StrictlySorted(unknown) && Elements(unknown) == Others(Cited(Tokens(s)), n)
  }

  lemma EmptyElements(xs: seq<nat>)
    ensures Elements(xs) == {} <==> xs == []
  {
    if xs != [] {
      assert xs[0] in Elements(xs);
    }
  }

  lemma HeadAndTail(xs: seq<nat>)
    requires StrictlySorted(xs) && xs != []
    ensures xs[0] in Elements(xs) && forall x :: x in Elements(xs) ==> xs[0] <= x
    ensures Elements(xs[1..]) == Elements(xs) - {xs[0]}
  {
    forall x | x in Elements(xs) && x != xs[0]
      ensures x in Elements(xs[1..])
    {
      var i :| 0 <= i < |xs| && xs[i] == x;
      assert xs[1..][i - 1] == x;
    }
  }

  lemma {:induction false} SortedUnique(xs: seq<nat>, ys: seq<nat>)
    requires StrictlySorted(xs) && StrictlySorted(ys) && Elements(xs) == Elements(ys)
    ensures xs == ys
  {
    EmptyElements(xs);
    EmptyElements(ys);
    if xs != [] {
      HeadAndTail(xs);
      HeadAndTail(ys);
      SortedUnique(xs[1..], ys[1..]);
      assert xs == [xs[0]] + xs[1..] && ys == [ys[0]] + ys[1..];
    }
  }

  /** One answer and one source count fix both lists. */
  lemma ParsedUnique(s: string, n: nat, used: seq<nat>, unknown: seq<nat>, used': seq<nat>, unknown': seq<nat>)
    requires Parsed(s, n, used, unknown) && Parsed(s, n, used', unknown')
    ensures used == used' && unknown == unknown'
  {
    SortedUnique(used, used');
    SortedUnique(unknown, unknown');
  }

  lemma NextElement(xs: seq<nat>, i: nat)
    requires i < |xs|
    ensures Elements(xs[..i + 1]) == Elements(xs[..i]) + {xs[i]}
  {
    assert xs[..i + 1] == xs[..i] + [xs[i]];
  }

  lemma InsertedElements(xs: seq<nat>, j: nat, x: nat)
    requires j <= |xs|
    ensures Elements(xs[..j] + [x] + xs[j..]) == Elements(xs) + {x}
  {
    var ys := xs[..j] + [x] + xs[j..];
    assert ys[j] == x;
    forall y | y in xs
      ensures y in ys
    {
      var k :| 0 <= k < |xs| && xs[k] == y;
      assert ys[if k < j then k else k + 1] == y;
    }
  }

  /** sort.Ints on distinct numbers, as insertion into a sorted slice. */
  method SortInts(xs: seq<nat>) returns (sorted: seq<nat>)
    requires forall i, j :: 0 <= i < j < |xs| ==> xs[i] != xs[j]
    ensures StrictlySorted(sorted) && Elements(sorted) == Elements(xs)
  {
    sorted := [];
    for i := 0 to |xs|
      invariant StrictlySorted(sorted) && Elements(sorted) == Elements(xs[..i])
    {
      var x := xs[i];
      assert x !in Elements(xs[..i]);
      var j := |sorted|;
      while j > 0 && sorted[j - 1] > x
        invariant 0 <= j <= |sorted|
        invariant forall k :: j <= k < |sorted| ==> sorted[k] > x
      {
        j := j - 1;
      }
      assert j > 0 ==> sorted[j - 1] in Elements(sorted);
      ghost var was := sorted;
      sorted := sorted[..j] + [x] + sorted[j..];
      InsertedElements(was, j, x);
      NextElement(xs, i);
    }
    assert xs[..|xs|] == xs;
  }

  /** The markers among the tokens: what FindAllString lists. */
  function Groups(toks: seq<Token>): seq<string> {
    if toks == [] then [] else
    (if toks[0].Group? then [toks[0].text] else []) + Groups(toks[1..])
  }

  function CitedBy(groups: seq<string>): set<nat> {
    if groups == [] then {} else CitedBy(groups[..|groups| - 1]) + Values(Numerals(groups[|groups| - 1]))
  }

  lemma {:induction false} CitedByConcat(a: seq<string>, b: seq<string>)
    ensures CitedBy(a + b) == CitedBy(a) + CitedBy(b)
  {
    if b == [] {
      assert a + b == a;
    } else {
      var n := |b| - 1;
      assert (a + b)[..|a| + n] == a + b[..n];
      CitedByConcat(a, b[..n]);
    }
  }

  lemma {:induction false} GroupsCite(toks: seq<Token>)
    ensures CitedBy(Groups(toks)) == Cited(toks)
  {
    if toks != [] {
      GroupsCite(toks[1..]);
      if toks[0].Group? {
        CitedByConcat([toks[0].text], Groups(toks[1..]));
        assert [toks[0].text][..0] == [];
        assert CitedBy([toks[0].text]) == Values(Numerals(toks[0].text));
      } else {
        assert [] + Groups(toks[1..]) == Groups(toks[1..]);
      }
    }
  }

  predicate Repeatless(xs: seq<nat>) { forall i, j :: 0 <= i < j < |xs| ==> xs[i] != xs[j] }

  function UpTo(raws: seq<string>, k: nat): set<nat>
    requires AllNumerals(raws) && k <= |raws|
  {
    set i | 0 <= i < k :: Value(raws[i])
  }

  lemma UpToOneMore(raws: seq<string>, k: nat, n: nat)
    requires AllNumerals(raws) && k < |raws|
    ensures UpTo(raws, k + 1) == UpTo(raws, k) + {Value(raws[k])}
    ensures Sources(UpTo(raws, k + 1), n) == Sources(UpTo(raws, k), n) + Sources({Value(raws[k])}, n)
    ensures Others(UpTo(raws, k + 1), n) == Others(UpTo(raws, k), n) + Others({Value(raws[k])}, n)
  {
  }

  lemma ElementsOneMore(xs: seq<nat>, v: nat)
    ensures Elements(xs + [v]) == Elements(xs) + {v} && (v in xs <==> v in Elements(xs))
  {
  }

  /** One number of a marker goes into the list it belongs to, unless it is there already. */
  method Note(v: nat, xs: seq<nat>) returns (xs': seq<nat>)
    requires Repeatless(xs)
    ensures Repeatless(xs') && Elements(xs') == Elements(xs) + {v}
  {
    ElementsOneMore(xs, v);
    xs' := if v in xs then xs else xs + [v];
  }

  /** A number that names a source is used, any other is unknown. */
  method Place(v: nat, n: nat, used: seq<nat>, unknown: seq<nat>) returns (used': seq<nat>, unknown': seq<nat>)
    requires Repeatless(used) && Repeatless(unknown)
    ensures Repeatless(used') && Elements(used') == Elements(used) + Sources({v}, n)
    ensures Repeatless(unknown') && Elements(unknown') == Elements(unknown) + Others({v}, n)
  {
    used', unknown' := used, unknown;
    if 1 <= v <= n {
      used' := Note(v, used);
    } else {
      unknown' := Note(v, unknown);
    }
  }

  method CollectGroup(group: string, n: nat, used: seq<nat>, unknown: seq<nat>)
    returns (used': seq<nat>, unknown': seq<nat>)
    requires Repeatless(used) && Repeatless(unknown)
    ensures Repeatless(used') && Elements(used') == Elements(used) + Sources(Values(Numerals(group)), n)
    ensures Repeatless(unknown') && Elements(unknown') == Elements(unknown) + Others(Values(Numerals(group)), n)
  {
    used', unknown' := used, unknown;
    var raws := Numerals(group);
    for k := 0 to |raws|
      invariant Repeatless(used') && Elements(used') == Elements(used) + Sources(UpTo(raws, k), n)
      invariant Repeatless(unknown') && Elements(unknown') == Elements(unknown) + Others(UpTo(raws, k), n)
    {
      UpToOneMore(raws, k, n);
      used', unknown' := Place(Value(raws[k]), n, used', unknown');
    }
    assert UpTo(raws, |raws|) == Values(raws);
  }

  method ParseCitations(answer: string, n: nat) returns (used: seq<nat>, unknown: seq<nat>)
    ensures Parsed(answer, n, used, unknown)
  {
    used, unknown := [], [];
    var groups := Groups(Tokens(answer));
    for k := 0 to |groups|
      invariant Repeatless(used) && Repeatless(unknown)
      invariant Elements(used) == Sources(CitedBy(groups[..k]), n)
      invariant Elements(unknown) == Others(CitedBy(groups[..k]), n)
    {
      assert groups[..k + 1][..k] == groups[..k];
      used, unknown := CollectGroup(groups[k], n, used, unknown);
    }
    assert groups[..|groups|] == groups;
    GroupsCite(Tokens(answer));
    used := SortInts(used);
    unknown := SortInts(unknown);
  }

  // ---------------------------------------------------------------- stripping

  function Keep(raws: seq<string>, bad: set<nat>): (kept: seq<string>)
    requires AllNumerals(raws)
    ensures AllNumerals(kept)
  {
    if raws == [] then [] else
    (if Value(raws[0]) in bad then [] else [raws[0]]) + Keep(raws[1..], bad)
  }

  predicate Increasing(at: seq<nat>) { forall i, j :: 0 <= i < j < |at| ==> at[i] < at[j] }

  function Later(at: seq<nat>): (later: seq<nat>)
    ensures |later| == |at| && forall i :: 0 <= i < |at| ==> later[i] == at[i] + 1
  {
    seq(|at|, i requires 0 <= i < |at| => at[i] + 1)
  }

  lemma InLater(at: seq<nat>, k: nat)
    ensures k in Later(at) <==> k > 0 && k - 1 in at
  {
    if k > 0 && k - 1 in at {
      var i :| 0 <= i < |at| && at[i] == k - 1;
      assert Later(at)[i] == k;
    }
  }

  /** The positions, in order, of the numbers that are kept: those not unknown. */
  function KeptAt(raws: seq<string>, bad: set<nat>): seq<nat>
    requires AllNumerals(raws)
  {
    if raws == [] then [] else (if Value(raws[0]) in bad then [] else [0]) + Later(KeptAt(raws[1..], bad))
  }

  lemma {:induction false} KeptAtIncreases(raws: seq<string>, bad: set<nat>)
    requires AllNumerals(raws)
    ensures Increasing(KeptAt(raws, bad)) && forall i :: 0 <= i < |KeptAt(raws, bad)| ==> KeptAt(raws, bad)[i] < |raws|
  {
    if raws != [] {
      KeptAtIncreases(raws[1..], bad);
    }
  }

  lemma {:induction false} KeptAtIff(raws: seq<string>, bad: set<nat>, k: nat)
    requires AllNumerals(raws) && k < |raws|
    ensures k in KeptAt(raws, bad) <==> Value(raws[k]) !in bad
  {
    var later := Later(KeptAt(raws[1..], bad));
    InLater(KeptAt(raws[1..], bad), k);
    assert k in (if Value(raws[0]) in bad then [] else [0]) + later
      <==> k in (if Value(raws[0]) in bad then [] else [0]) || k in later;
    if k > 0 {
      KeptAtIff(raws[1..], bad, k - 1);
    }
  }

  /** A rewritten marker keeps the numbers that are not unknown, each where and as often as it stood. */
  lemma {:induction false} KeepInOrder(raws: seq<string>, bad: set<nat>)
    requires AllNumerals(raws)
    ensures var at := KeptAt(raws, bad);
      |at| == |Keep(raws, bad)| && forall i :: 0 <= i < |at| ==> at[i] < |raws| && Keep(raws, bad)[i] == raws[at[i]]
  {
    if raws != [] {
      KeepInOrder(raws[1..], bad);
      KeptAtIncreases(raws, bad);
    }
  }

  function RenderGroup(g: string, bad: set<nat>): string {
    var kept := Keep(Numerals(g), bad);
    if kept == [] then "" else "[" + Join(kept, ", ") + "]"
  }

  function Render(t: Token, bad: set<nat>): string {
    if t.Lit? then [t.c] else RenderGroup(t.text, bad)
  }

  /** Every character outside a marker stays; a marker keeps its known numbers or goes. */
  function RenderAll(toks: seq<Token>, bad: set<nat>): string {
    if toks == [] then "" else Render(toks[0], bad) + RenderAll(toks[1..], bad)
  }

  function Strip(s: string, bad: set<nat>): string { RenderAll(Tokens(s), bad) }

  lemma {:induction false} RenderConcat(a: seq<Token>, b: seq<Token>, bad: set<nat>)
    ensures RenderAll(a + b, bad) == RenderAll(a, bad) + RenderAll(b, bad)
  {
    if a == [] {
      assert a + b == b;
    } else {
      assert (a + b)[1..] == a[1..] + b;
      RenderConcat(a[1..], b, bad);
      Assoc(Render(a[0], bad), RenderAll(a[1..], bad), RenderAll(b, bad));
    }
  }

  lemma {:induction false} KeepConcat(a: seq<string>, b: seq<string>, bad: set<nat>)
    requires AllNumerals(a) && AllNumerals(b)
    ensures AllNumerals(a + b) && Keep(a + b, bad) == Keep(a, bad) + Keep(b, bad)
  {
    if a == [] {
      assert a + b == b;
    } else {
      assert (a + b)[1..] == a[1..] + b;
      KeepConcat(a[1..], b, bad);
    }
  }

  method RewriteGroup(group: string, bad: set<nat>) returns (text: string)
    ensures text == RenderGroup(group, bad)
  {
    var keep: seq<string> := [];
    var raws := Numerals(group);
    for k := 0 to |raws|
      invariant keep == Keep(raws[..k], bad)
    {
      assert raws[..k + 1] == raws[..k] + [raws[k]];
      KeepConcat(raws[..k], [raws[k]], bad);
      if Value(raws[k]) in bad {
        continue;
      }
      keep := keep + [raws[k]];
    }
    assert raws[..|raws|] == raws;
    text := if keep == [] then "" else "[" + Join(keep, ", ") + "]";
  }

  method StripUnknownMarkers(answer: string, unknown: seq<nat>) returns (text: string)
    ensures text == Strip(answer, Elements(unknown))
  {
    var bad := set x | x in unknown;
    var toks := Tokens(answer);
    text := "";
    for k := 0 to |toks|
      invariant text == RenderAll(toks[..k], bad)
    {
      assert toks[..k + 1] == toks[..k] + [toks[k]];
      RenderConcat(toks[..k], [toks[k]], bad);
      assert RenderAll([toks[k]], bad) == Render(toks[k], bad) + RenderAll([], bad) == Render(toks[k], bad);
      if toks[k].Lit? {
        text := text + [toks[k].c];
      } else {
        var group := RewriteGroup(toks[k].text, bad);
        text := text + group;
      }
    }
    assert toks[..|toks|] == toks;
  }

  // ---------------------------------------------------------------- citations of an answer

  datatype Citation = Citation(marker: nat, chunkId: int)

  /** The citations of a fresh answer: source m of the ranked chunks for every used marker m. */
  function Sourced(used: seq<nat>, ranked: seq<int>): (cits: seq<Citation>)
    requires forall i :: 0 <= i < |used| ==> 1 <= used[i] <= |ranked|
    ensures |cits| == |used|
    ensures forall i :: 0 <= i < |cits| ==> cits[i] == Citation(used[i], ranked[used[i] - 1])
  {
    seq(|used|, i requires 0 <= i < |used| => Citation(used[i], ranked[used[i] - 1]))
  }

  method HydrateCitations(chunkIds: seq<int>) returns (cits: seq<Citation>)
    ensures |cits| == |chunkIds| && forall i :: 0 <= i < |cits| ==> cits[i] == Citation(i + 1, chunkIds[i])
  {
    cits := [];
    for i := 0 to |chunkIds|
      invariant |cits| == i && forall k :: 0 <= k < i ==> cits[k] == Citation(k + 1, chunkIds[k])
    {
      cits := cits + [Citation(i + 1, chunkIds[i])];
    }
  }

  lemma {:induction false} SortedGap(used: seq<nat>, k: nat)
    requires StrictlySorted(used) && k <= |used| && forall i :: 0 <= i < |used| ==> 1 <= used[i]
    ensures forall i :: 0 <= i < k ==> used[i] >= i + 1
    ensures k > 0 && used[k - 1] == k ==> forall i :: 0 <= i < k ==> used[i] == i + 1
  {
    if k > 0 {
      SortedGap(used, k - 1);
      if k > 1 {
        assert used[k - 2] < used[k - 1];
      }
    }
  }

  /** A cache hit, which renumbers from 1, shows the original pairs exactly when the used markers were 1..k. */
  lemma HitKeepsPairsIffDense(used: seq<nat>, ranked: seq<int>, hit: seq<Citation>)
    requires StrictlySorted(used) && forall i :: 0 <= i < |used| ==> 1 <= used[i] <= |ranked|
    requires |hit| == |used| && forall i :: 0 <= i < |hit| ==>
      hit[i] == Citation(i + 1, Sourced(used, ranked)[i].chunkId)
    ensures hit == Sourced(used, ranked) <==> (used == [] || used[|used| - 1] == |used|)
  {
    SortedGap(used, |used|);
    if used != [] && used[|used| - 1] != |used| {
      assert hit[|used| - 1] != Sourced(used, ranked)[|used| - 1];
    }
  }
}
