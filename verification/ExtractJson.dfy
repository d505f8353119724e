/** ExtractJSON (internal/llm/gemini.go): a string-aware scan that counts one kind of bracket. */
module ExtractJson {
  import opened Wrappers
  import opened Text
  import opened Json

  const FENCE := "```"

  predicate OccursAt(s: string, pat: string, i: nat) { i + |pat| <= |s| && s[i..i + |pat|] == pat }

  predicate Contains(s: string, pat: string) { exists i: nat :: i <= |s| && OccursAt(s, pat, i) }

  /** strings.Index. */
  function IndexOf(s: string, pat: string, from: nat := 0): (r: Option<nat>)
    requires from <= |s|
    ensures r.Some? ==> from <= r.value <= |s| && OccursAt(s, pat, r.value)
    ensures r.Some? ==> forall i: nat :: from <= i < r.value ==> !OccursAt(s, pat, i)
    ensures r.None? ==> forall i: nat :: from <= i <= |s| ==> !OccursAt(s, pat, i)
    decreases |s| - from
  {
    if OccursAt(s, pat, from) then Some(from) else if from == |s| then None else IndexOf(s, pat, from + 1)
  }

  function AfterFirstLine(s: string): string {
    match IndexOf(s, "\n")
    case None => s
    case Some(nl) => s[nl + 1..]
  }

  /** The content of the first closed fence; the text itself when there is none. */
  function Unfenced(t: string): string {
    match IndexOf(t, FENCE)
    case None => t
    case Some(fence) =>
      var body := AfterFirstLine(t[fence + 3..]);
      match IndexOf(body, FENCE)
      case None => t
      case Some(end) => Trim(body[..end], IsGoSpace)
  }

  /** The text that is scanned for JSON. */
  function Unwrap(s: string): string { Unfenced(Trim(s, IsGoSpace)) }

  function FirstOpener(s: string): (i: nat)
    ensures i <= |s| && (i < |s| ==> s[i] == '{' || s[i] == '[')
    ensures forall k :: 0 <= k < i ==> s[k] != '{' && s[k] != '['
  {
    if s == "" || s[0] == '{' || s[0] == '[' then 0 else 1 + FirstOpener(s[1..])
  }

  // ---------------------------------------------------------------- the scanner

  datatype Brackets = Curly | Square {
    function Open(): char { if Curly? then '{' else '[' }
    function Close(): char { if Curly? then '}' else ']' }
  }

  function BracketsOf(c: char): Brackets { if c == '[' then Square else Curly }

  datatype Scan = Scan(depth: int, inStr: bool, escaped: bool)

  const START := Scan(0, false, false)

  function Step(b: Brackets, st: Scan, ch: char): Scan {
    if st.escaped then st.(escaped := false)
    else if ch == '\\' && st.inStr then st.(escaped := true)
    else if ch == '"' then st.(inStr := !st.inStr)
    else if st.inStr then st
    else if ch == b.Open() then st.(depth := st.depth + 1)
    else if ch == b.Close() then st.(depth := st.depth - 1)
    else st
  }

  function Run(b: Brackets, st: Scan, s: string): Scan {
    if s == "" then st else Step(b, Run(b, st, s[..|s| - 1]), s[|s| - 1])
  }

  /** The first `n` characters close the bracket they open with, and no shorter prefix does. */
  predicate Span(b: Brackets, s: string, n: nat) {
    && 0 < n <= |s| && Run(b, START, s[..n]).depth == 0
    && forall k :: 0 < k < n ==> Run(b, START, s[..k]).depth > 0
  }

  /** What extraction returns: the shortest balanced span from the first opener, if there is one. */
  predicate Extracts(s: string, r: Option<string>) {
    var u := Unwrap(s);
    var start := FirstOpener(u);
    match r
    case None => start == |u| || forall n: nat :: n <= |u| ==> !Span(BracketsOf(u[start]), u[start..], n)
    case Some(text) => start < |u| && text <= u[start..] && Span(BracketsOf(u[start]), u[start..], |text|)
  }

  lemma ExtractionUnique(s: string, r: Option<string>, q: Option<string>)
    requires Extracts(s, r) && Extracts(s, q)
    ensures r == q
  {
    var u := Unwrap(s);
    if FirstOpener(u) < |u| {
      var t := u[FirstOpener(u)..];
      var b := BracketsOf(t[0]);
      if r.Some? && q.Some? {
        assert t[..|r.value|] == r.value && t[..|q.value|] == q.value;
        assert |r.value| == |q.value|;
      }
    }
  }

  method DropFirstLine(s: string) returns (r: string)
    ensures r == AfterFirstLine(s)
  {
    var nl := IndexOf(s, "\n");
    r := if nl.Some? then s[nl.value + 1..] else s;
  }

  method Unfence(s: string) returns (r: string)
    ensures r == Unfenced(s)
  {
    var fence := IndexOf(s, FENCE);
    if fence.None? {
      return s;
    }
    var rest := DropFirstLine(s[fence.value + 3..]);
    var end := IndexOf(rest, FENCE);
    if end.None? {
      return s;
    }
    return Trim(rest[..end.value], IsGoSpace);
  }

  lemma RunOneMore(b: Brackets, t: string, n: nat)
    requires n < |t|
    ensures Run(b, START, t[..n + 1]) == Step(b, Run(b, START, t[..n]), t[n])
  {
    assert t[..n + 1][..n] == t[..n];
  }

  /** One character of the scan; `closed` tells whether it is a closing bracket that counts. */
  method Advance(st: Scan, ch: char, open: char, close: char, ghost b: Brackets) returns (next: Scan, closed: bool)
    requires open == b.Open() && close == b.Close()
    ensures next == Step(b, st, ch)
    ensures closed <==> !st.escaped && !st.inStr && ch == close
  {
    var depth, inStr, escaped := st.depth, st.inStr, st.escaped;
    closed := false;
    if escaped {
      escaped := false;
    } else if ch == '\\' && inStr {
      escaped := true;
    } else if ch == '"' {
      inStr := !inStr;
    } else if inStr {
    } else if ch == open {
      depth := depth + 1;
    } else if ch == close {
      depth := depth - 1;
      closed := true;
    }
    next := Scan(depth, inStr, escaped);
  }

  /** After its first character, an opener, a scan that never touched 0 stands above 0. */
  lemma DepthAfterFirst(b: Brackets, t: string, n: nat)
    requires 0 < n <= |t| && t[0] == b.Open()
    requires forall k :: 0 < k < n ==> Run(b, START, t[..k]).depth > 0
    ensures Run(b, START, t[..n]).depth >= 0
    ensures var st := Run(b, START, t[..n - 1]);
      Run(b, START, t[..n]).depth == 0 ==> n > 1 && !st.escaped && !st.inStr && t[n - 1] == b.Close()
  {
    assert t[..n][..n - 1] == t[..n - 1];
    assert t[..0] == "";
  }

  /** The loop of the scan over the text from its first opener on. */
  method ScanText(t: string) returns (r: Option<string>)
    requires t != "" && (t[0] == '{' || t[0] == '[')
    ensures match r
      case None => forall n: nat :: !Span(BracketsOf(t[0]), t, n)
      case Some(text) => text <= t && Span(BracketsOf(t[0]), t, |text|)
  {
    var open := t[0];
    var close := if open == '[' then ']' else '}';
    ghost var b := BracketsOf(open);
    var st := START;
    for i := 0 to |t|
      invariant st == Run(b, START, t[..i])
      invariant forall k :: 0 < k <= i ==> Run(b, START, t[..k]).depth > 0
    {
      var closed;
      RunOneMore(b, t, i);
      st, closed := Advance(st, t[i], open, close, b);
      DepthAfterFirst(b, t, i + 1);
      if closed && st.depth == 0 {
        return Some(t[..i + 1]);
      }
    }
    return None;
  }

  method ScanFrom(s: string) returns (r: Option<string>)
    ensures var start := FirstOpener(s);
      match r
      case None => start == |s| || forall n: nat :: n <= |s| ==> !Span(BracketsOf(s[start]), s[start..], n)
      case Some(text) => start < |s| && text <= s[start..] && Span(BracketsOf(s[start]), s[start..], |text|)
  {
    var start := FirstOpener(s);
    if start == |s| {
      return None;
    }
    r := ScanText(s[start..]);
  }

  method ExtractJSON(response: string) returns (r: Option<string>)
    ensures Extracts(response, r)
  {
    var s := Unfence(Trim(response, IsGoSpace));
    r := ScanFrom(s);
  }
}
