/**
 * Keys of the answer cache (AnswerKey and normalizeQuestion of internal/cache/cache.go, corpusVersion of
 * internal/chat/chat.go). A key here is the text that is hashed: the hash is taken to be injective.
 */
module AnswerKeys {
  import opened Text

  // ---------------------------------------------------------------- numbers as text

  predicate IsBase(base: nat) { base == 10 || base == 36 }

  function Digit(d: nat): char
    requires d < 36
  {
    if d < 10 then '0' + d as char else 'a' + (d - 10) as char
  }

  function DigitValue(c: char): int {
    if '0' <= c <= '9' then c as int - '0' as int else c as int - 'a' as int + 10
  }

  function Digits(n: nat, base: nat): (s: string)
    requires IsBase(base)
    ensures s != "" && forall i :: 0 <= i < |s| ==> '0' <= s[i] <= '9' || 'a' <= s[i] <= 'z'
    decreases n
  {
    if n < base then [Digit(n)] else Digits(n / base, base) + [Digit(n % base)]
  }

  /** strconv.FormatInt. */
  function FormatInt(n: int, base: nat): string
    requires IsBase(base)
  {
    if n < 0 then "-" + Digits(-n, base) else Digits(n, base)
  }

  function DigitsValue(s: string, base: nat): int {
    if s == "" then 0 else DigitsValue(s[..|s| - 1], base) * base + DigitValue(s[|s| - 1])
  }

  function ParseInt(s: string, base: nat): int {
    if s != "" && s[0] == '-' then -DigitsValue(s[1..], base) else DigitsValue(s, base)
  }

  lemma {:induction false} DigitsRoundTrip(n: nat, base: nat)
    requires IsBase(base)
    ensures DigitsValue(Digits(n, base), base) == n
    decreases n
  {
    if n < base {
      assert [Digit(n)][..0] == "";
    } else {
      DigitsRoundTrip(n / base, base);
      var s := Digits(n, base);
      assert s[..|s| - 1] == Digits(n / base, base);
      assert DigitValue(s[|s| - 1]) == n % base;
    }
  }

  lemma FormatIntRoundTrip(n: int, base: nat)
    requires IsBase(base)
    ensures ParseInt(FormatInt(n, base), base) == n
  {
    DigitsRoundTrip(if n < 0 then -n else n, base);
    if n < 0 {
      assert FormatInt(n, base)[1..] == Digits(-n, base);
    }
  }

  // ---------------------------------------------------------------- the corpus fingerprint

  /** What corpusVersion saw, or the second at which it could not see anything. */
  datatype Version = Known(ready: nat, chunks: nat, lastIngest: int) | Unknown(second: int)

  function Render(v: Version): string {
    match v
    case Known(ready, chunks, lastIngest) =>
      "d" + Digits(ready, 10) + "-c" + Digits(chunks, 10) + "-" + FormatInt(lastIngest, 10)
    case Unknown(second) => "unknown-" + FormatInt(second, 36)
  }

  lemma FirstAt(x: string, a: string, c: char, r: string)
    requires x == a + [c] + r && c !in a
    ensures |a| < |x| && x[|a|] == c && forall i :: 0 <= i < |a| ==> x[i] != c
    ensures a == x[..|a|] && r == x[|a| + 1..]
  {
    assert forall i :: 0 <= i < |a| ==> x[i] == a[i];
  }

  /** Text is cut in one way only at the first occurrence of a character. */
  lemma CutAtFirst(a: string, b: string, c: char, r: string, s: string)
    requires c !in a && c !in b && a + [c] + r == b + [c] + s
    ensures a == b && r == s
  {
    FirstAt(a + [c] + r, a, c, r);
    FirstAt(a + [c] + r, b, c, s);
  }

  lemma KnownShape(v: Version)
    requires v.Known?
    ensures Render(v) ==
      ("d" + Digits(v.ready, 10)) + ['-'] + (("c" + Digits(v.chunks, 10)) + ['-'] + FormatInt(v.lastIngest, 10))
  {
    var c, x := Digits(v.chunks, 10), FormatInt(v.lastIngest, 10);
    assert "-c" + c + "-" + x == ['-'] + (("c" + c) + ['-'] + x);
  }

  lemma NoDash(n: nat, letter: char)
    requires letter != '-'
    ensures '-' !in [letter] + Digits(n, 10)
  {
  }

  lemma DigitsApart(m: nat, n: nat, letter: char)
    requires [letter] + Digits(m, 10) == [letter] + Digits(n, 10)
    ensures m == n
  {
    assert ([letter] + Digits(m, 10))[1..] == Digits(m, 10);
    assert ([letter] + Digits(n, 10))[1..] == Digits(n, 10);
    DigitsRoundTrip(m, 10);
    DigitsRoundTrip(n, 10);
  }

  lemma KnownRendersApart(v: Version, w: Version)
    requires v.Known? && w.Known? && Render(v) == Render(w)
    ensures v == w
  {
    var a, b := "d" + Digits(v.ready, 10), "d" + Digits(w.ready, 10);
    var r, s := "c" + Digits(v.chunks, 10), "c" + Digits(w.chunks, 10);
    var x, y := FormatInt(v.lastIngest, 10), FormatInt(w.lastIngest, 10);
    KnownShape(v);
    KnownShape(w);
    NoDash(v.ready, 'd');
    NoDash(w.ready, 'd');
    CutAtFirst(a, b, '-', r + ['-'] + x, s + ['-'] + y);
    NoDash(v.chunks, 'c');
    NoDash(w.chunks, 'c');
    CutAtFirst(r, s, '-', x, y);
    DigitsApart(v.ready, w.ready, 'd');
    DigitsApart(v.chunks, w.chunks, 'c');
    FormatIntRoundTrip(v.lastIngest, 10);
    FormatIntRoundTrip(w.lastIngest, 10);
  }

  lemma UnknownRendersApart(v: Version, w: Version)
    requires v.Unknown? && w.Unknown? && Render(v) == Render(w)
    ensures v == w
  {
    assert Render(v)[8..] == FormatInt(v.second, 36);
    assert Render(w)[8..] == FormatInt(w.second, 36);
    FormatIntRoundTrip(v.second, 36);
    FormatIntRoundTrip(w.second, 36);
  }

  lemma FirstLetters(v: Version)
    ensures Render(v) != "" && Render(v)[0] == if v.Known? then 'd' else 'u'
  {
  }

  /** Different fingerprints are written differently, the ones of an unreadable corpus included. */
  lemma RenderInjective(v: Version, w: Version)
    requires Render(v) == Render(w)
    ensures v == w
  {
    FirstLetters(v);
    FirstLetters(w);
    if v.Known? && w.Known? {
      KnownRendersApart(v, w);
    } else if v.Unknown? && w.Unknown? {
      UnknownRendersApart(v, w);
    }
  }

  // ---------------------------------------------------------------- the question

  /** unicode.ToLower and unicode.IsPunct. */
  datatype Alphabet = Alphabet(lower: char -> char, punct: char -> bool)

  /** White space has no case. */
  function LowerOf(al: Alphabet, c: char): char { if IsGoSpace(c) then c else al.lower(c) }

  /** strings.ToLower. */
  function Lower(al: Alphabet, s: string): string { seq(|s|, i requires 0 <= i < |s| => LowerOf(al, s[i])) }

  function Trailing(al: Alphabet): char -> bool { c => al.punct(c) || IsGoSpace(c) }

  /** The longest prefix without white space. */
  function Word(s: string, space: char -> bool): (w: string)
    ensures |w| <= |s| && s[..|w|] == w
    ensures forall i :: 0 <= i < |w| ==> !space(w[i])
    ensures |w| == |s| || space(s[|w|])
    ensures s != "" && !space(s[0]) ==> w != ""
  {
    if s == "" || space(s[0]) then "" else [s[0]] + Word(s[1..], space)
  }

  /** strings.Fields. */
  function Fields(s: string, space: char -> bool): seq<string>
    decreases |s|
  {
    var t := TrimLeft(s, space);
    if t == "" then [] else var w := Word(t, space); [w] + Fields(t[|w|..], space)
  }

  function Words(al: Alphabet, q: string): seq<string> {
    Fields(TrimRight(Lower(al, Trim(q, IsGoSpace)), Trailing(al)), IsGoSpace)
  }

  function Normalize(al: Alphabet, q: string): string { Join(Words(al, q), " ") }

  predicate IsWord(w: string, space: char -> bool) { w != "" && forall i :: 0 <= i < |w| ==> !space(w[i]) }

  predicate AreWords(ws: seq<string>, space: char -> bool) { forall i :: 0 <= i < |ws| ==> IsWord(ws[i], space) }

  lemma WordsFirst(w: string, ws: seq<string>, space: char -> bool)
    requires IsWord(w, space) && AreWords(ws, space)
    ensures AreWords([w] + ws, space)
  {
  }

  lemma {:induction false} FieldsAreWords(s: string, space: char -> bool)
    ensures AreWords(Fields(s, space), space)
    decreases |s|
  {
    var t := TrimLeft(s, space);
    if t != "" {
      var w := Word(t, space);
      FieldsAreWords(t[|w|..], space);
      assert IsWord(w, space);
      WordsFirst(w, Fields(t[|w|..], space), space);
    }
  }

  lemma {:induction false} WordUpTo(w: string, rest: string, space: char -> bool)
    requires forall i :: 0 <= i < |w| ==> !space(w[i])
    requires rest == "" || space(rest[0])
    ensures Word(w + rest, space) == w
  {
    if w == "" {
      assert w + rest == rest;
    } else {
      assert (w + rest)[1..] == w[1..] + rest;
      WordUpTo(w[1..], rest, space);
    }
  }

  lemma FirstField(w: string, rest: string, space: char -> bool)
    requires IsWord(w, space) && (rest == "" || space(rest[0]))
    ensures Fields(w + rest, space) == [w] + Fields(rest, space)
  {
    WordUpTo(w, rest, space);
    assert (w + rest)[0] == w[0];
    assert TrimLeft(w + rest, space) == w + rest;
    assert (w + rest)[|w|..] == rest;
  }

  lemma LeadingSpace(s: string, space: char -> bool)
    requires space(' ')
    ensures Fields(" " + s, space) == Fields(s, space)
  {
    assert (" " + s)[1..] == s;
  }

  /** Splitting joined words gives the words back. */
  lemma {:induction false} FieldsOfJoin(ws: seq<string>, space: char -> bool)
    requires AreWords(ws, space) && space(' ')
    ensures Fields(Join(ws, " "), space) == ws
  {
    if |ws| == 1 {
      FirstField(ws[0], "", space);
      assert ws[0] + "" == ws[0];
    } else if |ws| > 1 {
      var rest := Join(ws[1..], " ");
      FieldsOfJoin(ws[1..], space);
      LeadingSpace(rest, space);
      assert (" " + rest)[0] == ' ' && IsWord(ws[0], space);
      FirstField(ws[0], " " + rest, space);
      Assoc(ws[0], " ", rest);
      assert ws == [ws[0]] + ws[1..];
    }
  }

  predicate All(s: string, ok: char -> bool) { forall i :: 0 <= i < |s| ==> ok(s[i]) }

  lemma {:induction false} TrimRightAll(s: string, t: string, blank: char -> bool)
    requires All(t, blank)
    ensures TrimRight(s + t, blank) == TrimRight(s, blank)
  {
    if t == "" {
      assert s + t == s;
    } else {
      TrimRightAll(s, t[..|t| - 1], blank);
      assert (s + t)[..|s + t| - 1] == s + t[..|t| - 1];
    }
  }

  lemma {:induction false} TrimLeftAll(s: string, t: string, blank: char -> bool)
    requires All(s, blank)
    ensures TrimLeft(s + t, blank) == TrimLeft(t, blank)
  {
    if s == "" {
      assert s + t == t;
    } else {
      DropFirst(s, t);
      TrimLeftAll(s[1..], t, blank);
    }
  }

  /** A tail that the right trim removes anyway may be cut before the left trim. */
  lemma {:induction false} TrimsMeet(s: string, t: string, space: char -> bool, blank: char -> bool)
    requires All(t, blank)
    ensures TrimRight(TrimLeft(s + t, space), blank) == TrimRight(TrimLeft(s, space), blank)
  {
    if s == "" {
      assert s + t == t;
      var u := TrimLeft(t, space);
      assert All(u, blank) by {
        assert u == t[|t| - |u|..];
      }
      TrimRightAll("", u, blank);
      assert "" + u == u;
    } else if space(s[0]) {
      assert (s + t)[1..] == s[1..] + t;
      TrimsMeet(s[1..], t, space, blank);
    } else {
      TrimRightAll(s, t, blank);
    }
  }

  lemma {:induction false} TrimRightOfCons(c: char, rest: string, blank: char -> bool)
    ensures TrimRight([c] + rest, blank) ==
      if TrimRight(rest, blank) == "" && blank(c) then "" else [c] + TrimRight(rest, blank)
  {
    if rest == "" {
      assert [c] + rest == [c] && [c][..0] == "";
    } else if blank(rest[|rest| - 1]) {
      TrimRightOfCons(c, rest[..|rest| - 1], blank);
      ButLast([c], rest);
    }
  }

  /** White space in front may be cut after the trailing characters. */
  lemma {:induction false} TrimsCommute(s: string, space: char -> bool, blank: char -> bool)
    requires forall c :: space(c) ==> blank(c)
    ensures TrimRight(TrimLeft(s, space), blank) == TrimLeft(TrimRight(s, blank), space)
  {
    if s != "" {
      TrimRightOfCons(s[0], s[1..], blank);
      assert s == [s[0]] + s[1..];
      if space(s[0]) {
        TrimsCommute(s[1..], space, blank);
        assert ([s[0]] + TrimRight(s[1..], blank))[1..] == TrimRight(s[1..], blank);
      }
    }
  }

  function Core(al: Alphabet, s: string): string { TrimRight(TrimLeft(s, IsGoSpace), Trailing(al)) }

  lemma FieldsOfCore(al: Alphabet, s: string)
    ensures Fields(TrimRight(s, Trailing(al)), IsGoSpace) == Fields(Core(al, s), IsGoSpace)
  {
    TrimsCommute(s, IsGoSpace, Trailing(al));
  }

  lemma LowerConcat(al: Alphabet, a: string, b: string)
    ensures Lower(al, a + b) == Lower(al, a) + Lower(al, b)
  {
  }

  lemma LowerKeepsSpace(al: Alphabet, s: string)
    requires All(s, IsGoSpace)
    ensures Lower(al, s) == s && All(s, Trailing(al))
  {
  }

  lemma OneMoreInFront(c: char, a: string, b: string, blank: char -> bool)
    requires All(a, blank) && blank(c)
    ensures All([c] + a, blank) && [c] + (a + b) == [c] + a + b
  {
  }

  lemma {:induction false} TrimLeftCuts(s: string, blank: char -> bool) returns (a: string)
    ensures s == a + TrimLeft(s, blank) && All(a, blank)
  {
    if s != "" && blank(s[0]) {
      var c, tail := s[0], s[1..];
      var rest := TrimLeftCuts(tail, blank);
      OneMoreInFront(c, rest, TrimLeft(tail, blank), blank);
      Halves(s, 1);
      a := [c] + rest;
    } else {
      a := "";
      NoneBefore(s);
    }
  }

  lemma {:induction false} TrimRightCuts(s: string, blank: char -> bool) returns (b: string)
    ensures s == TrimRight(s, blank) + b && All(b, blank)
  {
    b := "";
    if s != "" && blank(s[|s| - 1]) {
      var rest := TrimRightCuts(s[..|s| - 1], blank);
      b := rest + [s[|s| - 1]];
      Assoc(TrimRight(s[..|s| - 1], blank), rest, [s[|s| - 1]]);
      SplitLast(s);
    }
  }

  /** Padding makes no difference: neither in front nor, as white space, behind. */
  lemma CoreOfPadded(al: Alphabet, pad: string, m: string, tail: string)
    requires All(pad, IsGoSpace) && All(tail, Trailing(al))
    ensures Core(al, pad + m + tail) == Core(al, m)
  {
    TrimsMeet(pad + m, tail, IsGoSpace, Trailing(al));
    TrimLeftAll(pad, m, IsGoSpace);
  }

  lemma TrimmedParts(q: string, blank: char -> bool) returns (a: string, b: string)
    ensures q == a + Trim(q, blank) + b && All(a, blank) && All(b, blank)
  {
    a := TrimLeftCuts(q, blank);
    b := TrimRightCuts(TrimLeft(q, blank), blank);
    Assoc(a, Trim(q, blank), b);
  }

  lemma LowerOfPadded(al: Alphabet, a: string, m: string, b: string)
    requires All(a, IsGoSpace) && All(b, IsGoSpace)
    ensures Lower(al, a + m + b) == a + Lower(al, m) + b && All(b, Trailing(al))
  {
    LowerKeepsSpace(al, a);
    LowerKeepsSpace(al, b);
    LowerConcat(al, a + m, b);
    LowerConcat(al, a, m);
  }

  lemma CoreWords(al: Alphabet, q: string)
    ensures Words(al, q) == Fields(Core(al, Lower(al, q)), IsGoSpace)
  {
    var a, b := TrimmedParts(q, IsGoSpace);
    var m := Trim(q, IsGoSpace);
    LowerOfPadded(al, a, m, b);
    CoreOfPadded(al, a, Lower(al, m), b);
    FieldsOfCore(al, Lower(al, m));
  }

  // ---------------------------------------------------------------- what a normal form tells apart

  /** The lower-cased text, cut where its last run of punctuation and white space begins. */
  predicate IsCut(al: Alphabet, q: string, front: string, tail: string) {
    && |front| + |tail| == |q|
    && (forall i :: 0 <= i < |q| ==> (front + tail)[i] == if IsGoSpace(q[i]) then q[i] else al.lower(q[i]))
    && (forall i :: 0 <= i < |tail| ==> al.punct(tail[i]) || IsGoSpace(tail[i]))
    && (front == "" || !(al.punct(front[|front| - 1]) || IsGoSpace(front[|front| - 1])))
  }

  lemma CutExists(al: Alphabet, q: string) returns (front: string, tail: string)
    ensures IsCut(al, q, front, tail)
  {
    var low := Lower(al, q);
    front := TrimRight(low, Trailing(al));
    tail := TrimRightCuts(low, Trailing(al));
  }

  lemma CoreOfCut(front: string, tail: string, blank: char -> bool)
    requires All(tail, blank) && (front == "" || !blank(front[|front| - 1]))
    ensures TrimRight(TrimLeft(front + tail, IsGoSpace), blank) == TrimLeft(front, IsGoSpace)
    ensures Fields(TrimLeft(front, IsGoSpace), IsGoSpace) == Fields(front, IsGoSpace)
  {
    TrimsMeet(front, tail, IsGoSpace, blank);
    var left := TrimLeft(front, IsGoSpace);
    assert left != "" ==> left[|left| - 1] == front[|front| - 1];
  }

  lemma CutWords(al: Alphabet, q: string, front: string, tail: string)
    requires IsCut(al, q, front, tail)
    ensures Words(al, q) == Fields(front, IsGoSpace)
  {
    assert Lower(al, q) == front + tail;
    CoreWords(al, q);
    CoreOfCut(front, tail, Trailing(al));
  }

  lemma InkOfFirst(w: string, rest: string, fields: seq<string>, space: char -> bool)
    requires Ink(Concat(fields), space) == Ink(rest, space)
    ensures Ink(Concat([w] + fields), space) == Ink(w + rest, space)
  {
    assert ([w] + fields)[1..] == fields;
    InkConcat(w, Concat(fields), space);
    InkConcat(w, rest, space);
  }

  lemma {:induction false} FieldsKeepInk(s: string, space: char -> bool)
    ensures Ink(Concat(Fields(s, space)), space) == Ink(s, space)
    decreases |s|
  {
    var t := TrimLeft(s, space);
    InkTrimLeft(s, space);
    if t != "" {
      var w := Word(t, space);
      var rest := t[|w|..];
      FieldsKeepInk(rest, space);
      InkOfFirst(w, rest, Fields(rest, space), space);
      Halves(t, |w|);
    }
  }

  lemma NormalizeKeepsWords(al: Alphabet, q: string)
    ensures Fields(Normalize(al, q), IsGoSpace) == Words(al, q)
  {
    FieldsAreWords(TrimRight(Lower(al, Trim(q, IsGoSpace)), Trailing(al)), IsGoSpace);
    FieldsOfJoin(Words(al, q), IsGoSpace);
  }

  lemma InkOfWords(ws: seq<string>)
    ensures Ink(Join(ws, " "), IsGoSpace) == Ink(Concat(ws), IsGoSpace)
  {
    InkOfBlanks(" ", IsGoSpace);
    InkJoin(ws, " ", IsGoSpace);
  }

  /** A normal form keeps every character of the lower-cased question but white space and the trailing run. */
  lemma NormalizeKeepsInk(al: Alphabet, q: string, front: string, tail: string)
    requires IsCut(al, q, front, tail)
    ensures Ink(Normalize(al, q), IsGoSpace) == Ink(front, IsGoSpace)
    ensures Fields(Normalize(al, q), IsGoSpace) == Fields(front, IsGoSpace)
  {
    CutWords(al, q, front, tail);
    NormalizeKeepsWords(al, q);
    FieldsKeepInk(front, IsGoSpace);
    InkOfWords(Words(al, q));
  }

  /** The texts read alike: the same characters in the same words, whatever stands between the words. */
  predicate SameButSpacing(a: string, b: string) {
    Ink(a, IsGoSpace) == Ink(b, IsGoSpace) && Fields(a, IsGoSpace) == Fields(b, IsGoSpace)
  }

  /** The lower-cased questions read alike up to their trailing punctuation. */
  ghost predicate SameQuestion(al: Alphabet, q: string, p: string) {
    exists front, tail, front', tail' ::
      IsCut(al, q, front, tail) && IsCut(al, p, front', tail') && SameButSpacing(front, front')
  }

  /** Two questions share a normal form exactly when they read alike. */
  lemma WordsDecide(al: Alphabet, q: string, p: string)
    ensures Normalize(al, q) == Normalize(al, p) <==> SameQuestion(al, q, p)
  {
    if Normalize(al, q) == Normalize(al, p) {
      var front, tail := CutExists(al, q);
      var front', tail' := CutExists(al, p);
      NormalizeKeepsInk(al, q, front, tail);
      NormalizeKeepsInk(al, p, front', tail');
    }
    if SameQuestion(al, q, p) {
      var front, tail, front', tail' :|
        IsCut(al, q, front, tail) && IsCut(al, p, front', tail') && SameButSpacing(front, front');
      CutWords(al, q, front, tail);
      CutWords(al, p, front', tail');
    }
  }

  /** Case, surrounding white space and trailing punctuation never cost a cache hit. */
  lemma TidyingHits(al: Alphabet, pad: string, q: string, p: string, tail: string)
    requires Lower(al, p) == Lower(al, q)
    requires All(pad, IsGoSpace) && All(Lower(al, tail), Trailing(al))
    ensures Normalize(al, pad + p + tail) == Normalize(al, q)
  {
    LowerConcat(al, pad + p, tail);
    LowerConcat(al, pad, p);
    LowerKeepsSpace(al, pad);
    CoreOfPadded(al, pad, Lower(al, p), Lower(al, tail));
    CoreWords(al, pad + p + tail);
    CoreWords(al, q);
  }

  // ---------------------------------------------------------------- the key

  const NUL: char := 0 as char

  /** What AnswerKey hashes. */
  function AnswerKey(al: Alphabet, question: string, version: Version): string {
    Normalize(al, question) + [NUL] + Render(version)
  }

  lemma NoNulInDigits(n: nat, base: nat)
    requires IsBase(base)
    ensures NUL !in Digits(n, base)
  {
  }

  lemma NoNulInInt(n: int, base: nat)
    requires IsBase(base)
    ensures NUL !in FormatInt(n, base)
  {
    NoNulInDigits(if n < 0 then -n else n, base);
  }

  lemma RenderHasNoNul(v: Version)
    ensures NUL !in Render(v)
  {
    if v.Known? {
      NoNulInDigits(v.ready, 10);
      NoNulInDigits(v.chunks, 10);
      NoNulInInt(v.lastIngest, 10);
    } else {
      NoNulInInt(v.second, 36);
    }
  }

  lemma LastAt(x: string, a: string, c: char, r: string)
    requires x == a + [c] + r && c !in r
    ensures |a| < |x| && x[|a|] == c && forall i :: |a| < i < |x| ==> x[i] != c
    ensures a == x[..|a|] && r == x[|a| + 1..]
  {
    assert forall i :: |a| < i < |x| ==> x[i] == r[i - |a| - 1];
  }

  lemma CutAtLast(a: string, b: string, c: char, r: string, s: string)
    requires c !in r && c !in s && a + [c] + r == b + [c] + s
    ensures a == b && r == s
  {
    LastAt(a + [c] + r, a, c, r);
    LastAt(a + [c] + r, b, c, s);
  }

  /**
   * Two requests share a key exactly when their questions read alike and their fingerprints are equal: even a
   * question holding NUL cannot forge another's key.
   */
  lemma KeyInjective(al: Alphabet, q: string, v: Version, p: string, w: Version)
    ensures AnswerKey(al, q, v) == AnswerKey(al, p, w) <==> SameQuestion(al, q, p) && v == w
  {
    WordsDecide(al, q, p);
    if AnswerKey(al, q, v) == AnswerKey(al, p, w) {
      RenderHasNoNul(v);
      RenderHasNoNul(w);
      CutAtLast(Normalize(al, q), Normalize(al, p), NUL, Render(v), Render(w));
      RenderInjective(v, w);
    }
  }
}
