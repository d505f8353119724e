/** String helpers shared by the chunker, the JSON extractor and the citation verifier. */
module Text {

  /** Go's unicode.IsSpace. */
  predicate IsGoSpace(c: char) {
    || '\t' <= c <= '\r' || c == ' ' || c == '\U{85}' || c == '\U{a0}' || c == '\U{1680}'
    || '\U{2000}' <= c <= '\U{200a}' || c == '\U{2028}' || c == '\U{2029}' || c == '\U{202f}'
    || c == '\U{205f}' || c == '\U{3000}'
  }

  /** Trims the leading characters that `blank` accepts. */
  function TrimLeft(s: string, blank: char -> bool): (r: string)
    ensures |r| <= |s| && s[|s| - |r|..] == r
    ensures r != "" ==> !blank(r[0])
    ensures s != "" && !blank(s[0]) ==> r == s
  {
    if s != "" && blank(s[0]) then TrimLeft(s[1..], blank) else s
  }

  /** Trims the trailing characters that `blank` accepts. */
  function TrimRight(s: string, blank: char -> bool): (r: string)
    ensures |r| <= |s| && s[..|r|] == r
    ensures r != "" ==> !blank(r[|r| - 1])
    ensures s != "" && !blank(s[|s| - 1]) ==> r == s
  {
    if s != "" && blank(s[|s| - 1]) then TrimRight(s[..|s| - 1], blank) else s
  }

  function Trim(s: string, blank: char -> bool): (r: string)
    ensures |r| <= |s|
    ensures r != "" ==> !blank(r[0]) && !blank(r[|r| - 1])
  {
    var t := TrimRight(TrimLeft(s, blank), blank);
    assert t != "" ==> t[0] == TrimLeft(s, blank)[0];
    t
  }

  /** The characters of `s` that `blank` rejects, in order. */
  function Ink(s: string, blank: char -> bool): (r: string)
    ensures |r| <= |s|
  {
    if s == "" then "" else (if blank(s[0]) then "" else [s[0]]) + Ink(s[1..], blank)
  }

  lemma Assoc<T>(a: seq<T>, b: seq<T>, c: seq<T>)
    ensures (a + b) + c == a + (b + c)
  {
  }

  lemma SplitLast<T>(s: seq<T>)
    requires s != []
    ensures s[..|s| - 1] + [s[|s| - 1]] == s
  {
  }

  lemma TakeAll<T>(s: seq<T>)
    ensures s[..|s|] == s
  {
  }

  lemma NoneBefore<T>(s: seq<T>)
    ensures [] + s == s
  {
  }

  lemma ButLast<T>(a: seq<T>, b: seq<T>)
    requires b != []
    ensures a + b != [] && (a + b)[..|a + b| - 1] == a + b[..|b| - 1] && (a + b)[|a + b| - 1] == b[|b| - 1]
  {
  }

  lemma Halves<T>(s: seq<T>, n: nat)
    requires n <= |s|
    ensures s[..n] + s[n..] == s
  {
  }

  lemma DropFirst(s: string, t: string)
    requires s != ""
    ensures (s + t)[1..] == s[1..] + t && (s + t)[0] == s[0]
  {
  }

  lemma {:induction false} InkConcat(a: string, b: string, blank: char -> bool)
    ensures Ink(a + b, blank) == Ink(a, blank) + Ink(b, blank)
  {
    if a == "" {
      assert a + b == b;
    } else {
      assert (a + b)[1..] == a[1..] + b;
      InkConcat(a[1..], b, blank);
    }
  }

  lemma {:induction false} InkOfBlanks(s: string, blank: char -> bool)
    requires forall i :: 0 <= i < |s| ==> blank(s[i])
    ensures Ink(s, blank) == ""
  {
    if s != "" {
      InkOfBlanks(s[1..], blank);
    }
  }

  lemma {:induction false} InkTrimLeft(s: string, blank: char -> bool)
    ensures Ink(TrimLeft(s, blank), blank) == Ink(s, blank)
  {
    if s != "" && blank(s[0]) {
      InkTrimLeft(s[1..], blank);
    }
  }

  lemma {:induction false} InkTrimRight(s: string, blank: char -> bool)
    ensures Ink(TrimRight(s, blank), blank) == Ink(s, blank)
  {
    if s != "" && blank(s[|s| - 1]) {
      InkTrimRight(s[..|s| - 1], blank);
      assert s == s[..|s| - 1] + [s[|s| - 1]];
      InkConcat(s[..|s| - 1], [s[|s| - 1]], blank);
      assert Ink([s[|s| - 1]], blank) == "";
    }
  }

  lemma InkTrim(s: string, blank: char -> bool)
    ensures Ink(Trim(s, blank), blank) == Ink(s, blank)
  {
    InkTrimLeft(s, blank);
    InkTrimRight(TrimLeft(s, blank), blank);
  }

  /** Trimming leaves a piece of the string. */
  lemma TrimInside(s: string, blank: char -> bool) returns (p: string, q: string)
    ensures p + Trim(s, blank) + q == s
  {
    var l := TrimLeft(s, blank);
    var t := TrimRight(l, blank);
    Halves(s, |s| - |l|);
    Halves(l, |t|);
    p, q := s[..|s| - |l|], l[|t|..];
    Assoc(p, t, q);
  }

  /** A string survives trimming exactly when it holds some ink. */
  lemma InkOfTrimmed(s: string, blank: char -> bool)
    ensures Trim(s, blank) == "" <==> Ink(s, blank) == ""
  {
    InkTrim(s, blank);
    var t := Trim(s, blank);
    if t != "" {
      assert Ink(t, blank)[0] == t[0];
    }
  }

  function Join(parts: seq<string>, sep: string): string
  {
    if |parts| == 0 then "" else
    if |parts| == 1 then parts[0] else
    parts[0] + sep + Join(parts[1..], sep)
  }

  function Concat(parts: seq<string>): string
  {
    if |parts| == 0 then "" else parts[0] + Concat(parts[1..])
  }

  lemma {:induction false} ConcatAppend(a: seq<string>, b: seq<string>)
    ensures Concat(a + b) == Concat(a) + Concat(b)
  {
    if a == [] {
      assert a + b == b;
    } else {
      assert (a + b)[1..] == a[1..] + b;
      ConcatAppend(a[1..], b);
    }
  }

  /** Joining with a blank separator keeps exactly the ink of the parts. */
  lemma {:induction false} InkJoin(parts: seq<string>, sep: string, blank: char -> bool)
    requires Ink(sep, blank) == ""
    ensures Ink(Join(parts, sep), blank) == Ink(Concat(parts), blank)
  {
    if |parts| == 1 {
      assert parts[0] + "" == parts[0];
      assert Concat(parts[1..]) == "";
    } else if |parts| > 1 {
      InkJoin(parts[1..], sep, blank);
      InkConcat(parts[0] + sep, Join(parts[1..], sep), blank);
      InkConcat(parts[0], sep, blank);
      InkConcat(parts[0], Concat(parts[1..]), blank);
    }
  }

  lemma {:induction false} JoinAppend(a: seq<string>, b: seq<string>, sep: string)
    requires a != [] && b != []
    ensures Join(a + b, sep) == Join(a, sep) + sep + Join(b, sep)
  {
    if |a| == 1 {
      assert (a + b)[1..] == b;
    } else {
      assert (a + b)[1..] == a[1..] + b;
      JoinAppend(a[1..], b, sep);
    }
  }
}
