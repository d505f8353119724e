/** What stripping unknown markers leaves: which markers the stripped answer holds, for every answer. */
module CitationStripping {
  import opened Wrappers
  import opened Text
  import opened Citations

  // ---------------------------------------------------------------- the expression

  lemma {:induction false} TailSpaces(before: string, s: string, ph: Phase)
    requires Spaces(before) && (ph == Due || ph == Gap)
    ensures Tail(before + s, ph) == match Tail(s, ph) case None => None case Some(n) => Some(|before| + n)
  {
    if before == "" {
      assert before + s == s;
    } else {
      assert (before + s)[1..] == before[1..] + s;
      TailSpaces(before[1..], s, ph);
    }
  }

  /** A number, then white space or the end of the number: what follows is matched from One, Two or Gap alike. */
  lemma AfterNumber(s: string)
    requires s == "" || !IsDigit(s[0])
    ensures Tail(s, One) == Tail(s, Two) == Tail(s, Gap)
  {
  }

  lemma TailNumber(digits: string, s: string)
    requires OneOrTwoDigits(digits) && (s == "" || !IsDigit(s[0]))
    ensures Tail(digits + s, Due) == match Tail(s, Gap) case None => None case Some(n) => Some(|digits| + n)
  {
    AfterNumber(s);
    assert (digits + s)[0] == digits[0];
    if |digits| == 1 {
      assert (digits + s)[1..] == s;
    } else {
      assert (digits + s)[1..] == [digits[1]] + s;
      assert ([digits[1]] + s)[1..] == s;
    }
  }

  lemma FourInARow(a: string, b: string, c: string, d: string)
    ensures a + b + c + d == a + (b + (c + d))
  {
  }

  lemma NumberAccepted(digits: string, after: string, rest: string)
    requires OneOrTwoDigits(digits) && Spaces(after)
    requires rest != "" && !IsDigit(rest[0]) && Tail(rest, Gap) == Some(|rest|)
    ensures Tail(digits + (after + rest), Due) == Some(|digits + (after + rest)|)
  {
    TailSpaces(after, rest, Gap);
    assert (after + rest)[0] == if after == "" then rest[0] else after[0];
    TailNumber(digits, after + rest);
  }

  lemma PartsAccepted(before: string, digits: string, after: string, rest: string)
    requires Spaces(before) && OneOrTwoDigits(digits) && Spaces(after)
    requires rest != "" && !IsDigit(rest[0]) && Tail(rest, Gap) == Some(|rest|)
    ensures Tail(before + digits + after + rest, Due) == Some(|before + digits + after + rest|)
  {
    FourInARow(before, digits, after, rest);
    NumberAccepted(digits, after, rest);
    TailSpaces(before, digits + (after + rest), Due);
  }

  lemma RestAccepted(rest: string)
    requires rest == "]" || (rest != "" && rest[0] == ',' && Tail(rest[1..], Due) == Some(|rest[1..]|))
    ensures rest != "" && !IsDigit(rest[0]) && Tail(rest, Gap) == Some(|rest|)
  {
  }

  /** The scan accepts every text the expression describes. */
  lemma {:induction false} MatchesAccepted(s: string)
    requires Matches(s)
    ensures Tail(s, Due) == Some(|s|)
    decreases |s|
  {
    var before: string, digits: string, after: string, rest: string :|
      && s == before + digits + after + rest
      && Spaces(before) && OneOrTwoDigits(digits) && Spaces(after)
      && (rest == "]" || (rest != "" && rest[0] == ',' && |rest[1..]| < |s| && Matches(rest[1..])));
    if rest != "]" {
      MatchesAccepted(rest[1..]);
    }
    RestAccepted(rest);
    PartsAccepted(before, digits, after, rest);
  }

  /** Reading on from `ph` accepts exactly `s`. */
  predicate Accepts(s: string, ph: Phase) { Tail(s, ph) == Some(|s|) }

  lemma NoDigitInGap(s: string)
    requires Accepts(s, Gap)
    ensures s == "" || !IsDigit(s[0])
  {
  }

  lemma {:induction false} SplitGap(s: string, ph: Phase) returns (after: string, rest: string)
    requires Accepts(s, ph) && ph != Due && (s == "" || !IsDigit(s[0]))
    ensures s == after + rest && Spaces(after)
    ensures rest == "]" || (rest != "" && rest[0] == ',' && Accepts(rest[1..], Due))
    decreases |s|
  {
    if IsSpace(s[0]) {
      var a: string;
      NoDigitInGap(s[1..]);
      a, rest := SplitGap(s[1..], Gap);
      after := [s[0]] + a;
      assert s == [s[0]] + s[1..];
    } else {
      after, rest := "", s;
      if s[0] == ']' {
        assert s == "]";
      }
    }
  }

  lemma MatchesFrom(s: string, before: string, digits: string, after: string, rest: string)
    requires s == before + digits + after + rest
    requires Spaces(before) && OneOrTwoDigits(digits) && Spaces(after)
    requires rest == "]" || (rest != "" && rest[0] == ',' && Matches(rest[1..]))
    ensures Matches(s)
  {
  }

  lemma Prepended(s: string, before: string, digits: string, after: string, rest: string)
    requires s != "" && s[1..] == before + digits + after + rest
    ensures s == [s[0]] + before + digits + after + rest
  {
    assert s == [s[0]] + s[1..];
  }

  lemma SpaceExtends(s: string)
    requires s != "" && IsSpace(s[0]) && Matches(s[1..])
    ensures Matches(s)
  {
    var before: string, digits: string, after: string, rest: string :|
      && s[1..] == before + digits + after + rest
      && Spaces(before) && OneOrTwoDigits(digits) && Spaces(after)
      && (rest == "]" || (rest != "" && rest[0] == ',' && |rest[1..]| < |s[1..]| && Matches(rest[1..])));
    Prepended(s, before, digits, after, rest);
    MatchesFrom(s, [s[0]] + before, digits, after, rest);
  }

  lemma FirstNumber(s: string) returns (digits: string, ph: Phase)
    requires Accepts(s, Due) && !IsSpace(s[0])
    ensures OneOrTwoDigits(digits) && digits <= s && ph != Due && Accepts(s[|digits|..], ph)
    ensures s[|digits|..] == "" || !IsDigit(s[|digits|])
  {
    assert IsDigit(s[0]) && Tail(s[1..], One) == Some(|s| - 1);
    if IsDigit(s[1]) {
      digits, ph := s[..2], Two;
      assert s[1..][0] == s[1] && s[1..][1..] == s[2..];
    } else {
      digits, ph := s[..1], One;
    }
  }

  lemma NumberAndGap(s: string) returns (digits: string, after: string, rest: string)
    requires Accepts(s, Due) && !IsSpace(s[0])
    ensures s == "" + digits + after + rest && OneOrTwoDigits(digits) && Spaces(after)
    ensures rest == "]" || (rest != "" && rest[0] == ',' && Accepts(rest[1..], Due) && |rest| < |s|)
  {
    var ph;
    digits, ph := FirstNumber(s);
    after, rest := SplitGap(s[|digits|..], ph);
    assert s == digits + s[|digits|..];
    assert s == "" + digits + after + rest;
  }

  /** The expression describes every text the scan accepts. */
  lemma {:induction false} AcceptedMatches(s: string)
    requires Accepts(s, Due)
    ensures Matches(s)
    decreases |s|
  {
    if IsSpace(s[0]) {
      AcceptedMatches(s[1..]);
      SpaceExtends(s);
    } else {
      var digits, after, rest := NumberAndGap(s);
      if rest != "]" {
        AcceptedMatches(rest[1..]);
      }
      MatchesFrom(s, "", digits, after, rest);
    }
  }

  /** The marker scan and the expression agree. */
  lemma MarkerIsExpression(s: string)
    ensures Tail(s, Due) == Some(|s|) <==> Matches(s)
  {
    if Tail(s, Due) == Some(|s|) {
      AcceptedMatches(s);
    }
    if Matches(s) {
      MatchesAccepted(s);
    }
  }

  lemma {:induction false} TailOfPrefix(s: string, n: nat, ph: Phase)
    requires n <= |s|
    ensures Tail(s[..n], ph) == Some(n) <==> Tail(s, ph) == Some(n)
  {
    if n > 0 && !(s[0] == ']' && ph != Due) && Next(ph, s[0]).Some? {
      TailOfPrefix(s[1..], n - 1, Next(ph, s[0]).value);
      assert s[..n][1..] == s[1..][..n - 1];
    }
  }

  ghost predicate MatchesTo(s: string, n: nat) { n <= |s| && Matches(s[..n]) }

  ghost predicate BeginsMarker(s: string) { exists n: nat :: MatchesTo(s, n) }

  /** A marker begins at an opening bracket exactly where the expression matches some text behind it. */
  lemma MarkerBehind(s: string)
    ensures Tail(s, Due).Some? <==> BeginsMarker(s)
    ensures Tail(s, Due).Some? ==> Matches(s[..Tail(s, Due).value])
  {
    if Tail(s, Due).Some? {
      TailOfPrefix(s, Tail(s, Due).value, Due);
      MarkerIsExpression(s[..Tail(s, Due).value]);
      assert MatchesTo(s, Tail(s, Due).value);
    }
    if n: nat :| MatchesTo(s, n) {
      MarkerIsExpression(s[..n]);
      TailOfPrefix(s, n, Due);
    }
  }

  /** The token at position p of the text: a marker if one begins there, otherwise the character. */
  ghost predicate TokenAt(s: string, p: nat, t: Token)
    requires p < |s|
  {
    match t
    case Group(text) =>
      && text != "" && p + |text| <= |s| && text == s[p..p + |text|] && s[p] == '[' && Matches(text[1..])
    case Lit(c) => c == s[p] && (c == '[' ==> !BeginsMarker(s[p + 1..]))
  }

  lemma FirstTokenAt(s: string)
    requires s != ""
    ensures Tokens(s) != [] && TokenAt(s, 0, Tokens(s)[0]) && Tokens(s)[1..] == Tokens(s[|Raw(Tokens(s)[0])|..])
  {
    MarkerBehind(s[1..]);
    if s[0] == '[' && Tail(s[1..], Due).Some? {
      var n := Tail(s[1..], Due).value;
      assert s[..n + 1][1..] == s[1..][..n];
    }
  }

  lemma TokenAtLater(s: string, n: nat, p: nat, t: Token)
    requires n <= |s| && p < |s[n..]| && TokenAt(s[n..], p, t)
    ensures TokenAt(s, n + p, t)
  {
    assert s[n..][p + 1..] == s[n + p + 1..];
    if t.Group? {
      assert s[n..][p..p + |t.text|] == s[n + p..n + p + |t.text|];
    }
  }

  /** The length of the first k tokens. */
  function Before(toks: seq<Token>, k: nat): nat
    requires k <= |toks|
  {
    |RawAll(toks[..k])|
  }

  lemma BeforeStep(toks: seq<Token>, k: nat)
    requires 0 < k <= |toks|
    ensures Before(toks, k) == |Raw(toks[0])| + Before(toks[1..], k - 1)
  {
    assert toks[..k][1..] == toks[1..][..k - 1] && toks[..k][0] == toks[0];
  }

  lemma TokenBehind(s: string, toks: seq<Token>, n: nat, later: seq<Token>, k: nat)
    requires 0 < k < |toks| && later == toks[1..] && n == |Raw(toks[0])| <= |s|
    requires Before(later, k - 1) < |s[n..]| && TokenAt(s[n..], Before(later, k - 1), later[k - 1])
    ensures Before(toks, k) < |s| && TokenAt(s, Before(toks, k), toks[k])
  {
    BeforeStep(toks, k);
    TokenAtLater(s, n, Before(later, k - 1), later[k - 1]);
  }

  lemma NothingBefore(toks: seq<Token>)
    ensures Before(toks, 0) == 0
  {
    assert toks[..0] == [];
  }

  /** Markers are found from the left: where the tokens before end, the next one is a marker if one begins there. */
  lemma {:induction false} MarkersFromTheLeft(s: string, toks: seq<Token>, k: nat)
    requires toks == Tokens(s) && k < |toks|
    ensures Before(toks, k) < |s| && TokenAt(s, Before(toks, k), toks[k])
    decreases k
  {
    FirstTokenAt(s);
    if k == 0 {
      NothingBefore(toks);
    } else {
      var n := |Raw(toks[0])|;
      MarkersFromTheLeft(s[n..], toks[1..], k - 1);
      TokenBehind(s, toks, n, toks[1..], k);
    }
  }

  // ---------------------------------------------------------------- a rewritten marker is a marker

  lemma CommaTail(text: string, n: nat)
    requires Tail(text, Due) == Some(n)
    ensures Tail(", " + text, Gap) == Some(n + 2)
  {
    TailSpaces(" ", text, Due);
    assert (", " + text)[1..] == " " + text;
  }

  lemma TailAfterComma(first: string, text: string, n: nat)
    requires OneOrTwoDigits(first) && Tail(text, Due) == Some(n)
    ensures Tail(first + (", " + text), Due) == Some(|first| + 2 + n)
  {
    CommaTail(text, n);
    TailNumber(first, ", " + text);
  }

  lemma JoinCons(kept: seq<string>, s: string)
    requires |kept| > 1
    ensures Join(kept, ", ") + "]" + s == kept[0] + (", " + (Join(kept[1..], ", ") + "]" + s))
    ensures |Join(kept, ", ")| == |kept[0]| + 2 + |Join(kept[1..], ", ")|
  {
  }

  lemma {:induction false} JoinedTail(kept: seq<string>, s: string)
    requires kept != [] && AllNumerals(kept)
    ensures Tail(Join(kept, ", ") + "]" + s, Due) == Some(|Join(kept, ", ")| + 1)
  {
    if |kept| == 1 {
      Assoc(kept[0], "]", s);
      TailNumber(kept[0], "]" + s);
    } else {
      JoinedTail(kept[1..], s);
      JoinCons(kept, s);
      TailAfterComma(kept[0], Join(kept[1..], ", ") + "]" + s, |Join(kept[1..], ", ")| + 1);
    }
  }

  lemma NumeralsSkip(c: char, s: string)
    requires !IsDigit(c)
    ensures Numerals([c] + s) == Numerals(s)
  {
    assert ([c] + s)[1..] == s;
  }

  lemma NumeralsTake(raw: string, s: string)
    requires OneOrTwoDigits(raw) && (s == "" || !IsDigit(s[0]))
    ensures Numerals(raw + s) == [raw] + Numerals(s)
  {
    assert (raw + s)[0] == raw[0] && (raw + s)[..|raw|] == raw && (raw + s)[|raw|..] == s;
  }

  lemma NumeralsOfCloser()
    ensures Numerals("]") == []
  {
    NumeralsSkip(']', "");
    assert [']'] + "" == "]";
  }

  lemma NumeralsAfterComma(raw: string, rest: string)
    requires OneOrTwoDigits(raw)
    ensures Numerals(raw + (", " + rest)) == [raw] + Numerals(rest)
  {
    NumeralsSkip(' ', rest);
    NumeralsSkip(',', [' '] + rest);
    assert [','] + ([' '] + rest) == ", " + rest;
    NumeralsTake(raw, ", " + rest);
  }

  lemma {:induction false} NumeralsOfJoined(kept: seq<string>)
    requires AllNumerals(kept)
    ensures Numerals(Join(kept, ", ") + "]") == kept
  {
    NumeralsOfCloser();
    if kept == [] {
      assert "" + "]" == "]";
    } else if |kept| == 1 {
      NumeralsTake(kept[0], "]");
    } else {
      NumeralsOfJoined(kept[1..]);
      JoinCons(kept, "");
      var rest := Join(kept[1..], ", ") + "]";
      NumeralsAfterComma(kept[0], rest);
      assert rest + "" == rest && Join(kept, ", ") + "]" + "" == Join(kept, ", ") + "]";
    }
  }

  predicate Doomed(t: Token, bad: set<nat>) { t.Group? && Keep(Numerals(t.text), bad) == [] }

  lemma ValuesConcat(a: seq<string>, b: seq<string>)
    requires AllNumerals(a) && AllNumerals(b)
    ensures AllNumerals(a + b) && Values(a + b) == Values(a) + Values(b)
  {
    forall i | 0 <= i < |b|
      ensures Value(b[i]) in Values(a + b)
    {
      assert (a + b)[|a| + i] == b[i];
    }
    forall i | 0 <= i < |a|
      ensures Value(a[i]) in Values(a + b)
    {
      assert (a + b)[i] == a[i];
    }
  }

  lemma {:induction false} KeptValues(raws: seq<string>, bad: set<nat>)
    requires AllNumerals(raws)
    ensures Values(Keep(raws, bad)) == Values(raws) - bad
  {
    if raws != [] {
      KeptValues(raws[1..], bad);
      ValuesConcat([raws[0]], raws[1..]);
      assert raws == [raws[0]] + raws[1..];
      var head: seq<string> := if Value(raws[0]) in bad then [] else [raws[0]];
      ValuesConcat(head, Keep(raws[1..], bad));
      assert Values([raws[0]]) == {Value(raws[0])};
    }
  }

  lemma NumeralsOfBracketed(kept: seq<string>)
    requires AllNumerals(kept)
    ensures Numerals("[" + Join(kept, ", ") + "]") == kept
  {
    NumeralsOfJoined(kept);
    NumeralsSkip('[', Join(kept, ", ") + "]");
    assert ['['] + (Join(kept, ", ") + "]") == "[" + Join(kept, ", ") + "]";
  }

  /** A rewritten marker says its known numbers, in order, and nothing else. */
  lemma RewrittenSays(g: string, bad: set<nat>)
    ensures Numerals(RenderGroup(g, bad)) == Keep(Numerals(g), bad)
    ensures RenderGroup(g, bad) == "" <==> Values(Numerals(g)) <= bad
  {
    var kept := Keep(Numerals(g), bad);
    KeptValues(Numerals(g), bad);
    if kept != [] {
      NumeralsOfBracketed(kept);
      assert Value(kept[0]) in Values(kept);
    }
  }

  lemma DoomedCitesBad(t: Token, bad: set<nat>)
    requires Doomed(t, bad)
    ensures Values(Numerals(t.text)) <= bad
  {
    KeptValues(Numerals(t.text), bad);
    var values := Values(Numerals(t.text));
    assert values - bad == Values(Keep(Numerals(t.text), bad)) == {};
    assert forall x :: x in values ==> x in bad || x in values - bad;
  }

  // ---------------------------------------------------------------- markers with holes

  function OneMore(r: Option<nat>): Option<nat> { match r case None => None case Some(n) => Some(n + 1) }

  /** The rest of a marker read over tokens, doomed markers counting for nothing: how many tokens it takes. */
  function HoledTail(toks: seq<Token>, ph: Phase, bad: set<nat>): (r: Option<nat>)
    ensures r.Some? ==> 0 < r.value <= |toks|
  {
    if toks == [] then None
    else if Doomed(toks[0], bad) then OneMore(HoledTail(toks[1..], ph, bad))
    else if toks[0].Group? then None
    else if toks[0].c == ']' && ph != Due then Some(1)
    else match Next(ph, toks[0].c)
      case None => None
      case Some(next) => OneMore(HoledTail(toks[1..], next, bad))
  }

  predicate StartsHoled(toks: seq<Token>, bad: set<nat>) {
    toks != [] && toks[0] == Lit('[') && HoledTail(toks[1..], Due, bad).Some?
  }

  /** How many tokens the holed marker at the front takes. */
  function HoledLength(toks: seq<Token>, bad: set<nat>): (n: nat)
    requires StartsHoled(toks, bad)
    ensures 0 < n <= |toks|
  {
    HoledTail(toks[1..], Due, bad).value + 1
  }

  /** The numbers of the markers that deleting the doomed ones would complete. */
  function Completed(toks: seq<Token>, bad: set<nat>): set<nat>
    decreases |toks|
  {
    if toks == [] then {}
    else if StartsHoled(toks, bad) then
      var n := HoledLength(toks, bad);
      Values(Numerals(RenderAll(toks[..n], bad))) + Completed(toks[n..], bad)
    else Completed(toks[1..], bad)
  }

  predicate TailAgrees(toks: seq<Token>, ph: Phase, bad: set<nat>) {
    match HoledTail(toks, ph, bad)
    case None => Tail(RenderAll(toks, bad), ph).None?
    case Some(n) => Tail(RenderAll(toks, bad), ph) == Some(|RenderAll(toks[..n], bad)|)
  }

  lemma CloserAgrees(toks: seq<Token>, ph: Phase, bad: set<nat>)
    requires toks != [] && toks[0] == Lit(']') && ph != Due
    ensures TailAgrees(toks, ph, bad)
  {
    assert toks[..1][1..] == [];
    assert RenderAll(toks[..1], bad) == [']'] + RenderAll([], bad) == [']'];
    assert RenderAll(toks, bad)[0] == ']';
  }

  lemma TailStep(s: string, ph: Phase)
    requires s != "" && !(s[0] == ']' && ph != Due) && Next(ph, s[0]).Some?
    ensures Tail(s, ph) == OneMore(Tail(s[1..], Next(ph, s[0]).value))
  {
  }

  lemma RenderLit(toks: seq<Token>, bad: set<nat>)
    requires toks != [] && toks[0].Lit?
    ensures var text := RenderAll(toks, bad);
      text != "" && text[0] == toks[0].c && text[1..] == RenderAll(toks[1..], bad)
  {
  }

  lemma HoledStep(toks: seq<Token>, ph: Phase, bad: set<nat>)
    requires toks != []
    ensures var r := HoledTail(toks[1..], ph, bad);
      r.Some? ==> RenderAll(toks[..r.value + 1], bad) == Render(toks[0], bad) + RenderAll(toks[1..][..r.value], bad)
  {
    var r := HoledTail(toks[1..], ph, bad);
    if r.Some? {
      assert toks[..r.value + 1][1..] == toks[1..][..r.value];
    }
  }

  lemma LitGoesOn(toks: seq<Token>, ph: Phase, next: Phase, bad: set<nat>)
    requires toks != [] && toks[0].Lit? && !(toks[0].c == ']' && ph != Due) && Next(ph, toks[0].c) == Some(next)
    requires TailAgrees(toks[1..], next, bad)
    ensures TailAgrees(toks, ph, bad)
  {
    RenderLit(toks, bad);
    HoledStep(toks, next, bad);
    TailStep(RenderAll(toks, bad), ph);
  }

  lemma LitAgrees(toks: seq<Token>, ph: Phase, bad: set<nat>)
    requires toks != [] && toks[0].Lit? && !(toks[0].c == ']' && ph != Due)
    requires Next(ph, toks[0].c).Some? ==> TailAgrees(toks[1..], Next(ph, toks[0].c).value, bad)
    ensures TailAgrees(toks, ph, bad)
  {
    RenderLit(toks, bad);
    if Next(ph, toks[0].c).Some? {
      LitGoesOn(toks, ph, Next(ph, toks[0].c).value, bad);
    }
  }

  lemma DoomedAgrees(toks: seq<Token>, ph: Phase, bad: set<nat>)
    requires toks != [] && Doomed(toks[0], bad) && TailAgrees(toks[1..], ph, bad)
    ensures TailAgrees(toks, ph, bad)
  {
    assert RenderAll(toks, bad) == "" + RenderAll(toks[1..], bad) == RenderAll(toks[1..], bad);
    HoledStep(toks, ph, bad);
  }

  lemma {:induction false} HoledTailRenders(toks: seq<Token>, ph: Phase, bad: set<nat>)
    ensures TailAgrees(toks, ph, bad)
  {
    if toks != [] {
      var t, rest := toks[0], toks[1..];
      if Doomed(t, bad) {
        HoledTailRenders(rest, ph, bad);
        DoomedAgrees(toks, ph, bad);
      } else if t.Group? {
        assert RenderAll(toks, bad)[0] == '[';
      } else if t.c == ']' && ph != Due {
        CloserAgrees(toks, ph, bad);
      } else {
        if Next(ph, t.c).Some? {
          HoledTailRenders(rest, Next(ph, t.c).value, bad);
        }
        LitAgrees(toks, ph, bad);
      }
    }
  }

  /** A holed marker takes no number that survives: only characters and doomed markers. */
  lemma {:induction false} HoledTakesNothing(toks: seq<Token>, ph: Phase, bad: set<nat>)
    requires HoledTail(toks, ph, bad).Some?
    ensures Cited(toks[..HoledTail(toks, ph, bad).value]) <= bad
  {
    var n := HoledTail(toks, ph, bad).value;
    var front := toks[..n];
    if Doomed(toks[0], bad) {
      HoledTakesNothing(toks[1..], ph, bad);
      assert front[1..] == toks[1..][..n - 1];
      DoomedCitesBad(toks[0], bad);
    } else if toks[0].c == ']' && ph != Due {
      assert front[1..] == [];
    } else {
      HoledTakesNothing(toks[1..], Next(ph, toks[0].c).value, bad);
      assert front[1..] == toks[1..][..n - 1];
    }
  }

  lemma {:induction false} CitedConcat(a: seq<Token>, b: seq<Token>)
    ensures Cited(a + b) == Cited(a) + Cited(b)
  {
    if a == [] {
      assert a + b == b;
    } else {
      assert (a + b)[1..] == a[1..] + b;
      CitedConcat(a[1..], b);
    }
  }

  lemma CitedOne(g: string, s: string)
    ensures Cited([Group(g)] + Tokens(s)) == Values(Numerals(g)) + Cited(Tokens(s))
  {
    assert ([Group(g)] + Tokens(s))[1..] == Tokens(s);
  }

  lemma CitedLit(c: char, s: string)
    ensures Cited([Lit(c)] + Tokens(s)) == Cited(Tokens(s))
  {
    assert ([Lit(c)] + Tokens(s))[1..] == Tokens(s);
  }

  lemma OneGroupFirst(inner: string, s: string)
    requires Tail(inner + s, Due) == Some(|inner|)
    ensures Tokens("[" + inner + s) == [Group("[" + inner)] + Tokens(s)
  {
    var text := "[" + inner + s;
    assert text[0] == '[' && text[1..] == inner + s;
    assert text[..|inner| + 1] == "[" + inner && text[|inner| + 1..] == s;
  }

  lemma KeptGroup(g: string, s: string, bad: set<nat>)
    requires Keep(Numerals(g), bad) != []
    ensures Cited(Tokens(RenderGroup(g, bad) + s)) == (Values(Numerals(g)) - bad) + Cited(Tokens(s))
  {
    var kept := Keep(Numerals(g), bad);
    var inner := Join(kept, ", ") + "]";
    JoinedTail(kept, s);
    OneGroupFirst(inner, s);
    assert RenderGroup(g, bad) == "[" + inner;
    CitedOne("[" + inner, s);
    NumeralsSkip('[', inner);
    NumeralsOfJoined(kept);
    KeptValues(Numerals(g), bad);
  }

  lemma PrefixSuffixTokens(toks: seq<Token>, n: nat)
    requires n <= |toks|
    ensures toks[..n] + toks[n..] == toks
  {
  }

  lemma HoledGroup(toks: seq<Token>, bad: set<nat>)
    requires StartsHoled(toks, bad)
    ensures var n := HoledLength(toks, bad);
      Cited(Tokens(RenderAll(toks, bad))) == Values(Numerals(RenderAll(toks[..n], bad))) +
        Cited(Tokens(RenderAll(toks[n..], bad)))
  {
    var n := HoledLength(toks, bad);
    var text, front, rest := RenderAll(toks, bad), RenderAll(toks[..n], bad), RenderAll(toks[n..], bad);
    HoledTailRenders(toks[1..], Due, bad);
    HoledStep(toks, Due, bad);
    RenderConcat(toks[..n], toks[n..], bad);
    PrefixSuffixTokens(toks, n);
    assert text == front + rest;
    assert text[0] == '[' && text[1..] == RenderAll(toks[1..], bad);
    assert text[..|front|] == front && text[|front|..] == rest;
    assert Tokens(text) == [Group(front)] + Tokens(rest);
    CitedOne(front, rest);
  }

  lemma LitKept(toks: seq<Token>, bad: set<nat>)
    requires toks != [] && toks[0].Lit? && !StartsHoled(toks, bad)
    ensures Cited(Tokens(RenderAll(toks, bad))) == Cited(Tokens(RenderAll(toks[1..], bad)))
  {
    var text, rest := RenderAll(toks, bad), RenderAll(toks[1..], bad);
    HoledTailRenders(toks[1..], Due, bad);
    assert text == [toks[0].c] + rest && text[1..] == rest;
    CitedLit(toks[0].c, rest);
  }

  lemma HoledNumbersGone(toks: seq<Token>, bad: set<nat>)
    requires StartsHoled(toks, bad)
    ensures Cited(toks) - bad == Cited(toks[HoledLength(toks, bad)..]) - bad
  {
    var n := HoledLength(toks, bad);
    HoledTakesNothing(toks[1..], Due, bad);
    assert toks[..n][1..] == toks[1..][..n - 1];
    CitedConcat(toks[..n], toks[n..]);
    PrefixSuffixTokens(toks, n);
  }

  lemma GroupStripped(toks: seq<Token>, bad: set<nat>)
    requires toks != [] && toks[0].Group?
    requires Cited(Tokens(RenderAll(toks[1..], bad))) == (Cited(toks[1..]) - bad) + Completed(toks[1..], bad)
    ensures Cited(Tokens(RenderAll(toks, bad))) == (Cited(toks) - bad) + Completed(toks, bad)
  {
    if Doomed(toks[0], bad) {
      DoomedCitesBad(toks[0], bad);
      NoneBefore(RenderAll(toks[1..], bad));
    } else {
      KeptGroup(toks[0].text, RenderAll(toks[1..], bad), bad);
    }
  }

  /** The markers of a stripped text: the known numbers it had, and those of the markers a deletion completes. */
  lemma {:induction false} StrippedCites(toks: seq<Token>, bad: set<nat>)
    ensures Cited(Tokens(RenderAll(toks, bad))) == (Cited(toks) - bad) + Completed(toks, bad)
    decreases |toks|
  {
    if toks == [] {
    } else if StartsHoled(toks, bad) {
      HoledGroup(toks, bad);
      StrippedCites(toks[HoledLength(toks, bad)..], bad);
      HoledNumbersGone(toks, bad);
    } else if toks[0].Lit? {
      LitKept(toks, bad);
      StrippedCites(toks[1..], bad);
    } else {
      StrippedCites(toks[1..], bad);
      GroupStripped(toks, bad);
    }
  }

  lemma CleanIff(all: set<nat>, n: nat, more: set<nat>)
    ensures var left := (all - Others(all, n)) + more;
      Sources(left, n) == Sources(all, n) && Others(left, n) == {} <==> more <= Sources(all, n)
  {
    var left := (all - Others(all, n)) + more;
    assert left == Sources(all, n) + more;
    if more <= Sources(all, n) {
      assert left == Sources(all, n) == Sources(left, n);
    } else {
      var x :| x in more && x !in Sources(all, n);
      assert x in left;
      assert x in Sources(left, n) || x in Others(left, n);
    }
  }

  /**
   * Parsing the stripped answer gives (used, none) exactly when every number of a marker that the
   * deletions complete was already used.
   */
  lemma StrippedParse(answer: string, n: nat, used: seq<nat>, unknown: seq<nat>)
    requires Parsed(answer, n, used, unknown)
    ensures Parsed(Strip(answer, Elements(unknown)), n, used, []) <==>
      Completed(Tokens(answer), Elements(unknown)) <= Elements(used)
  {
    var bad := Elements(unknown);
    StrippedCites(Tokens(answer), bad);
    EmptyElements([]);
    CleanIff(Cited(Tokens(answer)), n, Completed(Tokens(answer), bad));
  }

  // ---------------------------------------------------------------- nesting

  /** Some '[' stands in `s` before any ']'. */
  predicate OpensFirst(s: string) {
    s != "" && s[0] != ']' && (s[0] == '[' || OpensFirst(s[1..]))
  }

  /** No '[' is followed by another before a ']'. */
  predicate NoNesting(s: string) {
    s == "" || ((s[0] == '[' ==> !OpensFirst(s[1..])) && NoNesting(s[1..]))
  }

  lemma {:induction false} HolesNeedNesting(s: string, ph: Phase, bad: set<nat>)
    requires HoledTail(Tokens(s), ph, bad).Some?
    ensures Tail(s, ph).Some? || OpensFirst(s)
    decreases |s|
  {
    if s[0] != '[' && !(s[0] == ']' && ph != Due) {
      assert Tokens(s)[1..] == Tokens(s[1..]);
      HolesNeedNesting(s[1..], Next(ph, s[0]).value, bad);
    }
  }

  lemma {:induction false} NoNestingDrop(s: string, n: nat)
    requires NoNesting(s) && n <= |s|
    ensures NoNesting(s[n..])
  {
    if n > 0 {
      NoNestingDrop(s[1..], n - 1);
      assert s[1..][n - 1..] == s[n..];
    }
  }

  lemma {:induction false} NoNestingCompletesNothing(s: string, bad: set<nat>)
    requires NoNesting(s)
    ensures Completed(Tokens(s), bad) == {}
    decreases |s|
  {
    if s != "" {
      if s[0] == '[' && Tail(s[1..], Due).Some? {
        var n := Tail(s[1..], Due).value + 1;
        NoNestingDrop(s, n);
        NoNestingCompletesNothing(s[n..], bad);
        assert Tokens(s)[1..] == Tokens(s[n..]);
      } else {
        NoNestingCompletesNothing(s[1..], bad);
        assert Tokens(s)[1..] == Tokens(s[1..]);
        if StartsHoled(Tokens(s), bad) {
          HolesNeedNesting(s[1..], Due, bad);
        }
      }
    }
  }

  /** Without nested brackets the stripped answer cites the used sources and nothing else. */
  lemma StrippedIsClean(answer: string, n: nat, used: seq<nat>, unknown: seq<nat>)
    requires NoNesting(answer) && Parsed(answer, n, used, unknown)
    ensures Parsed(Strip(answer, Elements(unknown)), n, used, [])
  {
    NoNestingCompletesNothing(answer, Elements(unknown));
    StrippedParse(answer, n, used, unknown);
  }

  lemma NineIsDoomed()
    ensures RenderGroup("[9]", {9}) == "" && Values(Numerals("[9]")) == {9}
  {
    NumeralsSkip('[', "9]");
    NumeralsSkip(']', "");
    NumeralsTake("9", "]");
    assert "[" + "9]" == "[9]" && "9" + "]" == "9]" && "]" + "" == "]";
    assert Numerals("[9]") == ["9"];
    assert Value("9") == 9;
  }

  lemma ValuesOfOne(raw: string)
    requires OneOrTwoDigits(raw)
    ensures Values([raw]) == {Value(raw)}
  {
    var raws := [raw];
    assert raws[0] == raw && Value(raws[0]) in Values(raws);
  }

  lemma TenIsCited()
    ensures Values(Numerals("[10]")) == {10}
  {
    NumeralsSkip('[', "10]");
    NumeralsTake("10", "]");
    NumeralsSkip(']', "");
    assert ['['] + "10]" == "[10]" && "10" + "]" == "10]" && [']'] + "" == "]";
    assert Numerals("[10]") == ["10"];
    assert Value("10") == 10;
    ValuesOfOne("10");
  }

  lemma TenIsMarker()
    ensures Tokens("[10]") == [Group("[10]")] + []
  {
    TailNumber("10", "]");
    assert "10" + "]" == "10]" == "[10]"[1..];
    assert "[10]"[..4] == "[10]" && "[10]"[4..] == "";
    assert Tokens("") == [];
  }

  lemma NestedTokens()
    ensures Tokens("[1[9]0]") == [Lit('['), Lit('1'), Group("[9]"), Lit('0'), Lit(']')]
  {
    assert "[1[9]0]"[1..] == "1[9]0]" && "1[9]0]"[1..] == "[9]0]" && "[9]0]"[1..] == "9]0]";
    assert "9]0]"[1..] == "]0]" && "[9]0]"[..3] == "[9]" && "[9]0]"[3..] == "0]" && "0]"[1..] == "]" && "]"[1..] == "";
    assert Tail("[9]0]", One).None?;
    assert Tail("1[9]0]", Due).None?;
    assert Tail("]0]", One) == Some(1);
    assert Tail("9]0]", Due) == Some(2);
    assert Tokens("]") == [Lit(']')];
    assert Tokens("0]") == [Lit('0'), Lit(']')];
    assert Tokens("[9]0]") == [Group("[9]"), Lit('0'), Lit(']')];
  }

  lemma RenderCons(t: Token, rest: seq<Token>, bad: set<nat>)
    ensures RenderAll([t] + rest, bad) == Render(t, bad) + RenderAll(rest, bad)
  {
    assert ([t] + rest)[1..] == rest;
  }

  lemma NestedRenders()
    ensures RenderAll([Lit('[')] + ([Lit('1')] + ([Group("[9]")] + ([Lit('0')] + ([Lit(']')] + [])))), {9}) == "[10]"
  {
    NineIsDoomed();
    RenderCons(Lit(']'), [], {9});
    RenderCons(Lit('0'), [Lit(']')] + [], {9});
    RenderCons(Group("[9]"), [Lit('0')] + ([Lit(']')] + []), {9});
    RenderCons(Lit('1'), [Group("[9]")] + ([Lit('0')] + ([Lit(']')] + [])), {9});
    RenderCons(Lit('['), [Lit('1')] + ([Group("[9]")] + ([Lit('0')] + ([Lit(']')] + []))), {9});
  }

  lemma CitedCons(t: Token, rest: seq<Token>)
    ensures Cited([t] + rest) == (if t.Group? then Values(Numerals(t.text)) else {}) + Cited(rest)
  {
    assert ([t] + rest)[1..] == rest;
  }

  lemma NestedCites()
    ensures Cited([Lit('[')] + ([Lit('1')] + ([Group("[9]")] + ([Lit('0')] + ([Lit(']')] + []))))) == {9}
  {
    NineIsDoomed();
    CitedCons(Lit(']'), []);
    CitedCons(Lit('0'), [Lit(']')] + []);
    CitedCons(Group("[9]"), [Lit('0')] + ([Lit(']')] + []));
    CitedCons(Lit('1'), [Group("[9]")] + ([Lit('0')] + ([Lit(']')] + [])));
    CitedCons(Lit('['), [Lit('1')] + ([Group("[9]")] + ([Lit('0')] + ([Lit(']')] + []))));
  }

  lemma NestedAnswer()
    ensures Cited(Tokens("[1[9]0]")) == {9} && Strip("[1[9]0]", {9}) == "[10]"
  {
    NestedTokens();
    NestedCites();
    NestedRenders();
    assert [Lit('[')] + ([Lit('1')] + ([Group("[9]")] + ([Lit('0')] + ([Lit(']')] + [])))) == Tokens("[1[9]0]");
  }

  /**
   * "[1[9]0]", given to fewer than 9 sources: deleting the unknown marker makes a new one, [10], and the stripped
   * answer, parsed once more, has an unknown citation.
   */
  lemma NestedMarkerReappears(n: nat, used: seq<nat>, unknown: seq<nat>)
    requires Parsed("[1[9]0]", n, used, unknown) && n < 9
    ensures Strip("[1[9]0]", Elements(unknown)) == "[10]"
    ensures !Parsed(Strip("[1[9]0]", Elements(unknown)), n, used, [])
  {
    NestedAnswer();
    assert Elements(unknown) == {9};
    TenIsMarker();
    TenIsCited();
    CitedCons(Group("[10]"), []);
    assert 10 in Others(Cited([Group("[10]")] + []), n);
  }
}
