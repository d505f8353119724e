/** Extraction against the JSON printer: what was printed is what comes back. */
module JsonRoundTrip {
  import opened Wrappers
  import opened Text
  import opened Json
  import opened ExtractJson

  // ---------------------------------------------------------------- the scan over a concatenation

  lemma {:induction false} RunConcat(b: Brackets, st: Scan, x: string, y: string)
    ensures Run(b, st, x + y) == Run(b, Run(b, st, x), y)
  {
    if y == "" {
      assert x + y == x;
    } else {
      var n := |y| - 1;
      RunConcat(b, st, x, y[..n]);
      assert (x + y)[..|x| + n] == x + y[..n];
    }
  }

  predicate Outside(st: Scan) { !st.inStr && !st.escaped }

  /** Scanning `s` never goes below the depth it starts at. */
  predicate Above(b: Brackets, st: Scan, s: string) {
    forall k :: 0 <= k <= |s| ==> Run(b, st, s[..k]).depth >= st.depth
  }

  /** Scanning `s` returns to the state it starts in, never below its depth. */
  predicate Neutral(b: Brackets, st: Scan, s: string) { Run(b, st, s) == st && Above(b, st, s) }

  lemma AboveConcat(b: Brackets, st: Scan, x: string, y: string)
    requires Above(b, st, x) && Above(b, Run(b, st, x), y)
    ensures Above(b, st, x + y)
  {
    TakeAll(x);
    forall k | 0 <= k <= |x + y|
      ensures Run(b, st, (x + y)[..k]).depth >= st.depth
    {
      if k <= |x| {
        assert (x + y)[..k] == x[..k];
      } else {
        assert (x + y)[..k] == x + y[..k - |x|];
        RunConcat(b, st, x, y[..k - |x|]);
        assert Run(b, st, x[..|x|]).depth >= st.depth;
      }
    }
  }

  lemma NeutralConcat(b: Brackets, st: Scan, x: string, y: string)
    requires Neutral(b, st, x) && Neutral(b, st, y)
    ensures Neutral(b, st, x + y)
  {
    RunConcat(b, st, x, y);
    AboveConcat(b, st, x, y);
  }

  lemma NeutralEmpty(b: Brackets, st: Scan)
    ensures Neutral(b, st, "")
  {
  }

  lemma RunOne(b: Brackets, st: Scan, c: char)
    ensures Run(b, st, [c]) == Step(b, st, c)
  {
    assert [c][..0] == "";
  }

  lemma NeutralOne(b: Brackets, st: Scan, c: char)
    requires Step(b, st, c) == st
    ensures Neutral(b, st, [c])
  {
    RunOne(b, st, c);
    assert [c][..0] == "" && [c][..1] == [c];
  }

  lemma WrappedPrefix(b: Brackets, st: Scan, x: char, inner: string, y: char, k: nat)
    requires Neutral(b, Step(b, st, x), inner)
    requires k <= |inner| + 2
    ensures var s := [x] + inner + [y];
      && (k == 0 ==> Run(b, st, s[..k]) == st)
      && (0 < k <= |inner| + 1 ==> Run(b, st, s[..k]).depth >= Step(b, st, x).depth)
      && (k == |inner| + 2 ==> Run(b, st, s[..k]) == Step(b, Step(b, st, x), y))
  {
    var s := [x] + inner + [y];
    RunOne(b, st, x);
    if k == 0 {
      assert s[..k] == "";
    } else if k <= |inner| + 1 {
      assert s[..k] == [x] + inner[..k - 1];
      RunConcat(b, st, [x], inner[..k - 1]);
    } else {
      assert s[..k] == s;
      RunConcat(b, st, [x], inner);
      RunConcat(b, st, [x] + inner, [y]);
      RunOne(b, Step(b, st, x), y);
    }
  }

  /** `inner` between two characters that lead in and out of the state it is neutral in. */
  lemma Wrapped(b: Brackets, st: Scan, x: char, inner: string, y: char)
    requires Neutral(b, Step(b, st, x), inner) && Step(b, st, x).depth >= st.depth
    requires Step(b, Step(b, st, x), y) == st
    ensures Neutral(b, st, [x] + inner + [y])
    ensures forall k :: 0 < k < |[x] + inner + [y]| ==>
      Run(b, st, ([x] + inner + [y])[..k]).depth >= Step(b, st, x).depth
  {
    var mid := Step(b, st, x);
    RunOne(b, st, x);
    RunOne(b, mid, y);
    RunConcat(b, st, [x], inner);
    RunConcat(b, st, [x] + inner, [y]);
    forall k | 0 <= k <= |[x] + inner + [y]|
      ensures Run(b, st, ([x] + inner + [y])[..k]).depth >= st.depth
      ensures 0 < k < |[x] + inner + [y]| ==> Run(b, st, ([x] + inner + [y])[..k]).depth >= mid.depth
    {
      WrappedPrefix(b, st, x, inner, y, k);
    }
  }

  // ---------------------------------------------------------------- tokens

  predicate Plainish(s: string) { forall i :: 0 <= i < |s| ==> s[i] !in "{}[]\"" }

  lemma {:induction false} PlainishNeutral(b: Brackets, st: Scan, s: string)
    requires Outside(st) && Plainish(s)
    ensures Neutral(b, st, s)
  {
    if s == "" {
      NeutralEmpty(b, st);
    } else {
      var n := |s| - 1;
      PlainishNeutral(b, st, s[..n]);
      NeutralOne(b, st, s[n]);
      NeutralConcat(b, st, s[..n], [s[n]]);
      SplitLast(s);
    }
  }

  lemma PlainishConcat(x: string, y: string)
    requires Plainish(x) && Plainish(y)
    ensures Plainish(x + y)
  {
  }

  lemma ExponentPlainish(e: Exponent)
    requires e.mark in "eE" && e.sign in ["", "+", "-"] && Digits(e.digits)
    ensures Plainish([e.mark] + e.sign + e.digits)
  {
    PlainishConcat([e.mark], e.sign);
    PlainishConcat([e.mark] + e.sign, e.digits);
  }

  lemma NumberPlainish(n: Number)
    requires ValidNumber(n)
    ensures Plainish(PrintNumber(n)) && PrintNumber(n) != ""
  {
    var sign := if n.minus then "-" else "";
    var frac := if n.frac.Some? then "." + n.frac.value else "";
    PlainishConcat(sign, n.whole);
    PlainishConcat(sign + n.whole, frac);
    if n.exp.Some? {
      ExponentPlainish(n.exp.value);
    }
  }

  lemma EscapeNeutral(b: Brackets, st: Scan, c: char)
    requires st.inStr && !st.escaped
    ensures Neutral(b, st, ['\\', c])
  {
    var s := ['\\', c];
    assert s[..0] == "" && s[..1] == ['\\'] && s[..2] == s;
    RunOne(b, st, '\\');
  }

  lemma {:induction false} HexNeutral(b: Brackets, st: Scan, hex: string)
    requires st.inStr && !st.escaped && forall i :: 0 <= i < |hex| ==> IsHex(hex[i])
    ensures Neutral(b, st, hex)
  {
    if hex == "" {
      NeutralEmpty(b, st);
    } else {
      var n := |hex| - 1;
      HexNeutral(b, st, hex[..n]);
      NeutralOne(b, st, hex[n]);
      NeutralConcat(b, st, hex[..n], [hex[n]]);
      SplitLast(hex);
    }
  }

  /** Inside a string every part leaves the scan inside the string. */
  lemma PartNeutral(b: Brackets, st: Scan, p: StrPart)
    requires st.inStr && !st.escaped && ValidPart(p)
    ensures Neutral(b, st, PrintPart(p))
  {
    match p
    case Plain(c) =>
      NeutralOne(b, st, c);
    case Escape(c) =>
      EscapeNeutral(b, st, c);
    case Unicode(hex) =>
      EscapeNeutral(b, st, 'u');
      HexNeutral(b, st, hex);
      assert "\\u" == ['\\', 'u'];
      NeutralConcat(b, st, "\\u", hex);
  }

  lemma {:induction false} PartsNeutral(b: Brackets, st: Scan, parts: seq<StrPart>)
    requires st.inStr && !st.escaped && ValidParts(parts)
    ensures Neutral(b, st, PrintParts(parts))
  {
    if parts == [] {
      NeutralEmpty(b, st);
    } else {
      PartNeutral(b, st, parts[0]);
      PartsNeutral(b, st, parts[1..]);
      NeutralConcat(b, st, PrintPart(parts[0]), PrintParts(parts[1..]));
    }
  }

  lemma StrNeutral(b: Brackets, st: Scan, parts: seq<StrPart>)
    requires Outside(st) && ValidParts(parts)
    ensures Neutral(b, st, PrintStr(parts))
  {
    PartsNeutral(b, Step(b, st, '"'), parts);
    Wrapped(b, st, '"', PrintParts(parts), '"');
  }

  // ---------------------------------------------------------------- values

  lemma Padded(b: Brackets, st: Scan, pre: string, text: string, post: string)
    requires Outside(st) && IsWs(pre) && IsWs(post) && Neutral(b, st, text)
    ensures Neutral(b, st, pre + text + post)
  {
    PlainishNeutral(b, st, pre);
    PlainishNeutral(b, st, post);
    NeutralConcat(b, st, pre, text);
    NeutralConcat(b, st, pre + text, post);
  }

  /** One entry, and after a comma the others. */
  lemma EntriesNeutral(b: Brackets, st: Scan, first: string, more: string)
    requires Outside(st) && Neutral(b, st, first) && Neutral(b, st, more)
    ensures Neutral(b, st, first + ("," + more)) && Neutral(b, st, first + "")
  {
    assert first + "" == first;
    NeutralOne(b, st, ',');
    NeutralConcat(b, st, ",", more);
    NeutralConcat(b, st, first, "," + more);
  }

  lemma {:induction false} ItemsNeutral(b: Brackets, st: Scan, items: Items)
    requires Outside(st) && ValidItems(items)
    ensures Neutral(b, st, PrintItems(items))
    decreases items, 0
  {
    match items
    case NoItems => NeutralEmpty(b, st);
    case Item(pre, v, post, rest) =>
      ValueNeutral(b, st, v);
      Padded(b, st, pre, Print(v), post);
      ItemsNeutral(b, st, rest);
      EntriesNeutral(b, st, pre + Print(v) + post, PrintItems(rest));
  }

  lemma {:induction false} ArrayBodyNeutral(b: Brackets, st: Scan, ws: string, items: Items)
    requires Outside(st) && IsWs(ws) && ValidItems(items)
    ensures Neutral(b, st, ws + PrintItems(items))
    decreases items, 1
  {
    PlainishNeutral(b, st, ws);
    ItemsNeutral(b, st, items);
    NeutralConcat(b, st, ws, PrintItems(items));
  }

  lemma KeyNeutral(b: Brackets, st: Scan, pre: string, key: seq<StrPart>, before: string, after: string)
    requires Outside(st) && IsWs(pre) && ValidParts(key) && IsWs(before) && IsWs(after)
    ensures Neutral(b, st, pre + PrintStr(key) + before + ":" + after)
  {
    PlainishNeutral(b, st, pre);
    StrNeutral(b, st, key);
    PlainishNeutral(b, st, before);
    PlainishNeutral(b, st, ":");
    PlainishNeutral(b, st, after);
    NeutralConcat(b, st, pre, PrintStr(key));
    NeutralConcat(b, st, pre + PrintStr(key), before);
    NeutralConcat(b, st, pre + PrintStr(key) + before, ":");
    NeutralConcat(b, st, pre + PrintStr(key) + before + ":", after);
  }

  lemma {:induction false} MembersNeutral(b: Brackets, st: Scan, members: Members)
    requires Outside(st) && ValidMembers(members)
    ensures Neutral(b, st, PrintMembers(members))
    decreases members, 0
  {
    match members
    case NoMembers => NeutralEmpty(b, st);
    case Member(pre, key, before, after, v, post, rest) =>
      var head := pre + PrintStr(key) + before + ":" + after;
      KeyNeutral(b, st, pre, key, before, after);
      ValueNeutral(b, st, v);
      NeutralConcat(b, st, head, Print(v));
      PlainishNeutral(b, st, post);
      NeutralConcat(b, st, head + Print(v), post);
      MembersNeutral(b, st, rest);
      EntriesNeutral(b, st, head + Print(v) + post, PrintMembers(rest));
  }

  lemma {:induction false} ObjectBodyNeutral(b: Brackets, st: Scan, ws: string, members: Members)
    requires Outside(st) && IsWs(ws) && ValidMembers(members)
    ensures Neutral(b, st, ws + PrintMembers(members))
    decreases members, 1
  {
    PlainishNeutral(b, st, ws);
    MembersNeutral(b, st, members);
    NeutralConcat(b, st, ws, PrintMembers(members));
  }

  /** Whichever bracket is counted, a printed value leaves the scan where it was. */
  lemma {:induction false} ValueNeutral(b: Brackets, st: Scan, v: Value)
    requires Outside(st) && Valid(v)
    ensures Neutral(b, st, Print(v))
    decreases v
  {
    match v
    case Null => PlainishNeutral(b, st, "null");
    case True => PlainishNeutral(b, st, "true");
    case False => PlainishNeutral(b, st, "false");
    case Num(n) =>
      NumberPlainish(n);
      PlainishNeutral(b, st, PrintNumber(n));
    case Str(parts) => StrNeutral(b, st, parts);
    case Arr(ws, items) =>
      ArrayBodyNeutral(b, Step(b, st, '['), ws, items);
      Wrapped(b, st, '[', ws + PrintItems(items), ']');
    case Obj(ws, members) =>
      ObjectBodyNeutral(b, Step(b, st, '{'), ws, members);
      Wrapped(b, st, '{', ws + PrintMembers(members), '}');
  }

  // ---------------------------------------------------------------- extraction

  predicate IsContainer(v: Value) { v.Arr? || v.Obj? }

  function Kind(v: Value): Brackets { if v.Arr? then Square else Curly }

  /** The scan of a printed container closes at its last character and not before. */
  lemma ContainerSpan(v: Value)
    requires Valid(v) && IsContainer(v)
    ensures Span(Kind(v), Print(v), |Print(v)|)
    ensures Print(v)[0] == Kind(v).Open() && Print(v)[|Print(v)| - 1] == Kind(v).Close()
  {
    var b, s := Kind(v), Print(v);
    var inner := if v.Arr? then v.ws + PrintItems(v.items) else v.ws + PrintMembers(v.members);
    if v.Arr? {
      ArrayBodyNeutral(b, Step(b, START, '['), v.ws, v.items);
    } else {
      ObjectBodyNeutral(b, Step(b, START, '{'), v.ws, v.members);
    }
    Wrapped(b, START, b.Open(), inner, b.Close());
    assert s == [b.Open()] + inner + [b.Close()];
    TakeAll(s);
  }

  lemma SpanOfPrefix(b: Brackets, s: string, t: string, n: nat)
    requires Span(b, s, n)
    ensures Span(b, s + t, n)
  {
    assert (s + t)[..n] == s[..n];
    forall k | 0 < k < n
      ensures Run(b, START, (s + t)[..k]).depth > 0
    {
      assert (s + t)[..k] == s[..k];
    }
  }

  predicate NoOpener(s: string) { forall i :: 0 <= i < |s| ==> s[i] != '{' && s[i] != '[' }

  lemma {:induction false} OpenerAfter(p: string, s: string)
    requires NoOpener(p) && s != "" && (s[0] == '{' || s[0] == '[')
    ensures FirstOpener(p + s) == |p|
  {
    if p == "" {
      assert p + s == s;
    } else {
      assert (p + s)[1..] == p[1..] + s;
      OpenerAfter(p[1..], s);
    }
  }

  lemma ContainerFound(p: string, v: Value, q: string)
    requires Valid(v) && IsContainer(v) && NoOpener(p)
    ensures var u := p + Print(v) + q;
      FirstOpener(u) == |p| < |u| && Print(v) <= u[|p|..] && Span(BracketsOf(u[|p|]), u[|p|..], |Print(v)|)
  {
    ContainerSpan(v);
    SpanOfPrefix(Kind(v), Print(v), q, |Print(v)|);
    OpenerAfter(p, Print(v) + q);
    var u := p + Print(v) + q;
    assert u == p + (Print(v) + q);
    assert u[|p|..] == Print(v) + q;
  }

  // ---------------------------------------------------------------- trimming around a text

  lemma {:induction false} TrimLeftAround(p: string, m: string) returns (p': string)
    requires m != "" && !IsGoSpace(m[0])
    ensures TrimLeft(p + m, IsGoSpace) == p' + m && |p'| <= |p| && p[|p| - |p'|..] == p'
  {
    if p == "" || !IsGoSpace(p[0]) {
      p' := p;
      assert p == "" ==> p + m == m;
    } else {
      assert (p + m)[1..] == p[1..] + m;
      p' := TrimLeftAround(p[1..], m);
    }
  }

  lemma {:induction false} TrimRightAround(m: string, q: string) returns (q': string)
    requires m != "" && !IsGoSpace(m[|m| - 1])
    ensures TrimRight(m + q, IsGoSpace) == m + q' && q' <= q
  {
    if q == "" || !IsGoSpace(q[|q| - 1]) {
      q' := q;
      assert q == "" ==> m + q == m;
    } else {
      assert (m + q)[..|m + q| - 1] == m + q[..|q| - 1];
      q' := TrimRightAround(m, q[..|q| - 1]);
    }
  }

  /** Trimming eats only into what surrounds a text with solid ends. */
  lemma TrimAround(p: string, m: string, q: string) returns (p': string, q': string)
    requires m != "" && !IsGoSpace(m[0]) && !IsGoSpace(m[|m| - 1])
    ensures Trim(p + m + q, IsGoSpace) == p' + m + q'
    ensures |p'| <= |p| && p[|p| - |p'|..] == p' && q' <= q
  {
    Assoc(p, m, q);
    p' := TrimLeftAround(p, m + q);
    Assoc(p', m, q);
    q' := TrimRightAround(p' + m, q);
  }

  lemma NoOpenerSuffix(p: string, n: nat)
    requires NoOpener(p) && n <= |p|
    ensures NoOpener(p[n..])
  {
  }

  lemma SolidEnds(v: Value)
    requires Valid(v) && IsContainer(v)
    ensures Print(v) != "" && !IsGoSpace(Print(v)[0]) && !IsGoSpace(Print(v)[|Print(v)| - 1])
  {
    ContainerSpan(v);
  }

  // ---------------------------------------------------------------- plain responses

  lemma ContainsInside(p: string, m: string, q: string, pat: string)
    requires Contains(m, pat)
    ensures Contains(p + m + q, pat)
  {
    var i: nat :| i <= |m| && OccursAt(m, pat, i);
    assert (p + m + q)[|p| + i..|p| + i + |pat|] == m[i..i + |pat|];
    assert OccursAt(p + m + q, pat, |p| + i);
  }

  lemma TrimIsInside(s: string)
    requires !Contains(s, FENCE)
    ensures !Contains(Trim(s, IsGoSpace), FENCE)
  {
    var p, q := TrimInside(s, IsGoSpace);
    if Contains(Trim(s, IsGoSpace), FENCE) {
      ContainsInside(p, Trim(s, IsGoSpace), q, FENCE);
    }
  }

  lemma UnwrapPlain(s: string)
    requires !Contains(s, FENCE)
    ensures Unwrap(s) == Trim(s, IsGoSpace)
  {
    TrimIsInside(s);
  }

  /** Prose without an opener, a printed object or array, any suffix: extraction recovers the printed text. */
  lemma PlainRoundTrip(p: string, v: Value, q: string)
    requires Valid(v) && IsContainer(v) && NoOpener(p) && !Contains(p + Print(v) + q, FENCE)
    ensures Extracts(p + Print(v) + q, Some(Print(v)))
  {
    SolidEnds(v);
    UnwrapPlain(p + Print(v) + q);
    var p', q' := TrimAround(p, Print(v), q);
    NoOpenerSuffix(p, |p| - |p'|);
    ContainerFound(p', v, q');
  }

  // ---------------------------------------------------------------- fenced responses

  /** After text free of fences, the first fence starts at most two characters early (its own back-ticks). */
  lemma FirstFence(a: string, z: string)
    requires !Contains(a, FENCE)
    ensures IndexOf(a + FENCE + z, FENCE).Some?
    ensures var e := IndexOf(a + FENCE + z, FENCE).value; e <= |a| < e + 3
  {
    var s := a + FENCE + z;
    assert s[|a|..|a| + 3] == FENCE;
    assert OccursAt(s, FENCE, |a|);
    forall i: nat | i + 3 <= |a|
      ensures !OccursAt(s, FENCE, i)
    {
      assert a[i..i + 3] == s[i..i + 3];
      assert OccursAt(s, FENCE, i) == OccursAt(a, FENCE, i);
    }
  }

  lemma FirstLine(tag: string, z: string)
    requires forall i :: 0 <= i < |tag| ==> tag[i] != '\n'
    ensures AfterFirstLine(tag + "\n" + z) == z
  {
    var s := tag + "\n" + z;
    assert s[|tag|..|tag| + 1] == "\n";
    assert OccursAt(s, "\n", |tag|);
    forall i: nat | i < |tag|
      ensures !OccursAt(s, "\n", i)
    {
      assert s[i..i + 1] == [tag[i]];
    }
    assert s[|tag| + 1..] == z;
  }

  lemma SuffixNoFence(p: string, suffix: string)
    requires !Contains(p, FENCE) && |suffix| <= |p| && p[|p| - |suffix|..] == suffix
    ensures !Contains(suffix, FENCE)
  {
    var n := |p| - |suffix|;
    assert p[..n] + suffix + "" == p;
    if Contains(suffix, FENCE) {
      ContainsInside(p[..n], suffix, "", FENCE);
    }
  }

  lemma FenceTail(p: string, fence: nat, z: string)
    requires fence <= |p| < fence + 3
    ensures (p + FENCE + z)[fence + 3..] == seq(|p| - fence, i => '`') + z
  {
    var t := p + FENCE + z;
    assert |t| == |p| + 3 + |z|;
    forall j | fence + 3 <= j < |p| + 3
      ensures t[j] == '`'
    {
      assert FENCE[j - |p|] == '`';
    }
  }

  /** Behind the opening fence and its tag line comes `rest`, whatever back-ticks the fence swallowed from `p`. */
  lemma FenceOpens(p: string, tag: string, rest: string)
    requires !Contains(p, FENCE) && forall i :: 0 <= i < |tag| ==> tag[i] != '\n'
    ensures var t := p + FENCE + (tag + "\n" + rest);
      IndexOf(t, FENCE).Some? && IndexOf(t, FENCE).value + 3 <= |t|
      && AfterFirstLine(t[IndexOf(t, FENCE).value + 3..]) == rest
  {
    var line := tag + "\n" + rest;
    FirstFence(p, line);
    var fence := IndexOf(p + FENCE + line, FENCE).value;
    var left := seq(|p| - fence, i => '`');
    FenceTail(p, fence, line);
    assert left + line == (left + tag) + "\n" + rest;
    FirstLine(left + tag, rest);
  }

  lemma UnfencedAt(t: string, rest: string, end: nat)
    requires var fence := IndexOf(t, FENCE);
      fence.Some? && fence.value + 3 <= |t| && AfterFirstLine(t[fence.value + 3..]) == rest
    requires IndexOf(rest, FENCE) == Some(end)
    ensures end <= |rest| && Unfenced(t) == Trim(rest[..end], IsGoSpace)
  {
  }

  /** The content of a fence is cut at its first closing fence. */
  lemma FenceContent(p: string, tag: string, body: string, z: string) returns (end: nat)
    requires !Contains(p, FENCE) && !Contains(body, FENCE) && forall i :: 0 <= i < |tag| ==> tag[i] != '\n'
    ensures end <= |body| < end + 3 && (body + FENCE + z)[end..end + 3] == FENCE
    ensures Unfenced(p + FENCE + (tag + "\n" + (body + FENCE + z))) == Trim((body + FENCE + z)[..end], IsGoSpace)
  {
    FenceOpens(p, tag, body + FENCE + z);
    FirstFence(body, z);
    end := IndexOf(body + FENCE + z, FENCE).value;
    UnfencedAt(p + FENCE + (tag + "\n" + (body + FENCE + z)), body + FENCE + z, end);
  }

  lemma FenceIsSolid(tag: string, body: string)
    ensures var m := FENCE + tag + "\n" + body + FENCE;
      m != "" && !IsGoSpace(m[0]) && !IsGoSpace(m[|m| - 1])
  {
  }

  lemma FencedShape(p: string, tag: string, body: string, z: string)
    ensures p + (FENCE + tag + "\n" + body + FENCE) + z == p + FENCE + (tag + "\n" + (body + FENCE + z))
  {
  }

  lemma FencedUnwrap(p: string, tag: string, body: string, q: string) returns (z: string, end: nat)
    requires !Contains(p, FENCE) && !Contains(body, FENCE) && forall i :: 0 <= i < |tag| ==> tag[i] != '\n'
    ensures end <= |body| < end + 3 && (body + FENCE + z)[end..end + 3] == FENCE
    ensures Unwrap(p + (FENCE + tag + "\n" + body + FENCE) + q) == Trim((body + FENCE + z)[..end], IsGoSpace)
  {
    FenceIsSolid(tag, body);
    var p', q' := TrimAround(p, FENCE + tag + "\n" + body + FENCE, q);
    SuffixNoFence(p, p');
    FencedShape(p', tag, body, q');
    z := q';
    end := FenceContent(p', tag, body, q');
  }

  /** Wherever the closing fence cuts, it cuts behind the printed value. */
  lemma FencedSpan(lead: string, v: Value, tail: string, z: string, end: nat)
    requires Valid(v) && IsContainer(v) && NoOpener(lead)
    requires var body := lead + Print(v) + tail;
      end <= |body| < end + 3 && (body + FENCE + z)[end..end + 3] == FENCE
    ensures var u := Trim((lead + Print(v) + tail + FENCE + z)[..end], IsGoSpace);
      var start := FirstOpener(u);
      start < |u| && Print(v) <= u[start..] && Span(BracketsOf(u[start]), u[start..], |Print(v)|)
  {
    SolidEnds(v);
    ContainerSpan(v);
    var body := lead + Print(v) + tail;
    var last := |lead + Print(v)| - 1;
    var s := body + FENCE + z;
    assert s[end..end + 3] == [s[end], s[end + 1], s[end + 2]];
    assert s[last] == body[last] == Print(v)[|Print(v)| - 1] != '`';
    assert end > last;
    var cut := tail[..end - last - 1];
    assert (body + FENCE + z)[..end] == lead + Print(v) + cut;
    var lead', cut' := TrimAround(lead, Print(v), cut);
    NoOpenerSuffix(lead, |lead| - |lead'|);
    ContainerFound(lead', v, cut');
  }

  /** A printed object or array inside a fence: extraction recovers it from the fence's content. */
  lemma FencedRoundTrip(p: string, tag: string, lead: string, v: Value, tail: string, q: string)
    requires Valid(v) && IsContainer(v) && NoOpener(lead)
    requires !Contains(p, FENCE) && !Contains(lead + Print(v) + tail, FENCE)
    requires forall i :: 0 <= i < |tag| ==> tag[i] != '\n'
    ensures Extracts(p + (FENCE + tag + "\n" + (lead + Print(v) + tail) + FENCE) + q, Some(Print(v)))
  {
    var z, end := FencedUnwrap(p, tag, lead + Print(v) + tail, q);
    FencedSpan(lead, v, tail, z, end);
  }

  // ---------------------------------------------------------------- a fence that is never closed

  lemma UnclosedAt(t: string, rest: string)
    requires var fence := IndexOf(t, FENCE);
      fence.Some? && fence.value + 3 <= |t| && AfterFirstLine(t[fence.value + 3..]) == rest
    requires !Contains(rest, FENCE)
    ensures Unfenced(t) == t
  {
    assert IndexOf(rest, FENCE) == None;
  }

  /** Without a closing fence behind its first line, a fence is text like any other. */
  lemma UnclosedStays(p: string, tag: string, rest: string)
    requires !Contains(p, FENCE) && !Contains(rest, FENCE) && forall i :: 0 <= i < |tag| ==> tag[i] != '\n'
    ensures Unfenced(p + FENCE + (tag + "\n" + rest)) == p + FENCE + (tag + "\n" + rest)
  {
    FenceOpens(p, tag, rest);
    UnclosedAt(p + FENCE + (tag + "\n" + rest), rest);
  }

  lemma PrefixNoFence(a: string, b: string, c: string)
    requires !Contains(a + c, FENCE) && b <= c
    ensures !Contains(a + b, FENCE)
  {
    assert "" + (a + b) + c[|b|..] == a + c;
    if Contains(a + b, FENCE) {
      ContainsInside("", a + b, c[|b|..], FENCE);
    }
  }

  lemma UnclosedShape(p: string, tag: string, lead: string, text: string, q: string)
    ensures p + (FENCE + tag + "\n" + lead + text) + q == p + FENCE + (tag + "\n" + (lead + text + q))
    ensures p + (FENCE + tag + "\n" + lead + text) + q == (p + FENCE + tag + "\n" + lead) + text + q
  {
  }

  lemma OpenerlessLead(p: string, tag: string, lead: string)
    requires NoOpener(p) && NoOpener(tag) && NoOpener(lead)
    ensures NoOpener(p + FENCE + tag + "\n" + lead)
  {
  }

  lemma UnclosedIsSolid(tag: string, lead: string, text: string)
    requires text != "" && !IsGoSpace(text[|text| - 1])
    ensures var m := FENCE + tag + "\n" + lead + text; m != "" && !IsGoSpace(m[0]) && !IsGoSpace(m[|m| - 1])
  {
  }

  lemma UnclosedUnwrap(p: string, tag: string, lead: string, v: Value, q: string) returns (p': string, q': string)
    requires Valid(v) && IsContainer(v) && !Contains(p, FENCE) && !Contains(lead + Print(v) + q, FENCE)
    requires forall i :: 0 <= i < |tag| ==> tag[i] != '\n'
    ensures |p'| <= |p| && p[|p| - |p'|..] == p'
    ensures Unwrap(p + (FENCE + tag + "\n" + lead + Print(v)) + q) ==
      (p' + FENCE + tag + "\n" + lead) + Print(v) + q'
  {
    SolidEnds(v);
    UnclosedIsSolid(tag, lead, Print(v));
    p', q' := TrimAround(p, FENCE + tag + "\n" + lead + Print(v), q);
    SuffixNoFence(p, p');
    PrefixNoFence(lead + Print(v), q', q);
    UnclosedShape(p', tag, lead, Print(v), q');
    UnclosedStays(p', tag, lead + Print(v) + q');
  }

  lemma UnclosedFound(p: string, tag: string, lead: string, v: Value, q: string)
    requires Valid(v) && IsContainer(v) && NoOpener(p) && NoOpener(tag) && NoOpener(lead)
    ensures var u := (p + FENCE + tag + "\n" + lead) + Print(v) + q;
      var start := FirstOpener(u);
      start < |u| && Print(v) <= u[start..] && Span(BracketsOf(u[start]), u[start..], |Print(v)|)
  {
    OpenerlessLead(p, tag, lead);
    ContainerFound(p + FENCE + tag + "\n" + lead, v, q);
  }

  /** A printed object or array behind a fence that is never closed: extraction recovers it all the same. */
  lemma UnclosedRoundTrip(p: string, tag: string, lead: string, v: Value, q: string)
    requires Valid(v) && IsContainer(v) && NoOpener(p) && NoOpener(tag) && NoOpener(lead)
    requires !Contains(p, FENCE) && !Contains(lead + Print(v) + q, FENCE)
    requires forall i :: 0 <= i < |tag| ==> tag[i] != '\n'
    ensures Extracts(p + (FENCE + tag + "\n" + lead + Print(v)) + q, Some(Print(v)))
  {
    var p', q' := UnclosedUnwrap(p, tag, lead, v, q);
    NoOpenerSuffix(p, |p| - |p'|);
    UnclosedFound(p', tag, lead, v, q');
  }
}
