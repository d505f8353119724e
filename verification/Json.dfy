/** JSON texts (RFC 8259 sections 2 to 7): a concrete syntax with its white space, and its printer. */
module Json {
  import opened Wrappers

  /** A piece of a string: a plain character, a short escape or \uXXXX. */
  datatype StrPart = Plain(c: char) | Escape(c: char) | Unicode(hex: string)

  datatype Exponent = Exponent(mark: char, sign: string, digits: string)

  datatype Number = Number(minus: bool, whole: string, frac: Option<string>, exp: Option<Exponent>)

  datatype Value =
    | Null
    | True
    | False
    | Num(n: Number)
    | Str(parts: seq<StrPart>)
    | Arr(ws: string, items: Items)
    | Obj(ws: string, members: Members)

  /** Comma-separated values, each between white space; an empty list leaves only the `ws` of its array. */
  datatype Items = NoItems | Item(pre: string, v: Value, post: string, rest: Items)

  datatype Members =
    | NoMembers
    | Member(pre: string, key: seq<StrPart>, beforeColon: string, afterColon: string,
             v: Value, post: string, rest: Members)

  // ---------------------------------------------------------------- validity

  predicate IsWs(s: string) { forall i :: 0 <= i < |s| ==> s[i] in " \t\n\r" }

  predicate Digits(s: string) { s != "" && forall i :: 0 <= i < |s| ==> '0' <= s[i] <= '9' }

  predicate IsHex(c: char) { '0' <= c <= '9' || 'a' <= c <= 'f' || 'A' <= c <= 'F' }

  predicate ValidPart(p: StrPart) {
    match p
    case Plain(c) => c >= ' ' && c != '"' && c != '\\'
    case Escape(c) => c in "\"\\/bfnrt"
    case Unicode(hex) => |hex| == 4 && forall i :: 0 <= i < 4 ==> IsHex(hex[i])
  }

  predicate ValidParts(parts: seq<StrPart>) { forall i :: 0 <= i < |parts| ==> ValidPart(parts[i]) }

  predicate ValidNumber(n: Number) {
    && Digits(n.whole) && (n.whole[0] == '0' ==> |n.whole| == 1)
    && (n.frac.Some? ==> Digits(n.frac.value))
    && (n.exp.Some? ==> n.exp.value.mark in "eE" && n.exp.value.sign in ["", "+", "-"] && Digits(n.exp.value.digits))
  }

  predicate Valid(v: Value) {
    match v
    case Null => true
    case True => true
    case False => true
    case Num(n) => ValidNumber(n)
    case Str(parts) => ValidParts(parts)
    case Arr(ws, items) => IsWs(ws) && ValidItems(items)
    case Obj(ws, members) => IsWs(ws) && ValidMembers(members)
  }

  predicate ValidItems(items: Items) {
    match items
    case NoItems => true
    case Item(pre, v, post, rest) => IsWs(pre) && Valid(v) && IsWs(post) && ValidItems(rest)
  }

  predicate ValidMembers(members: Members) {
    match members
    case NoMembers => true
    case Member(pre, key, before, after, v, post, rest) =>
      IsWs(pre) && ValidParts(key) && IsWs(before) && IsWs(after) && Valid(v) && IsWs(post) && ValidMembers(rest)
  }

  // ---------------------------------------------------------------- printer

  function PrintPart(p: StrPart): string {
    match p
    case Plain(c) => [c]
    case Escape(c) => ['\\', c]
    case Unicode(hex) => "\\u" + hex
  }

  function PrintParts(parts: seq<StrPart>): string {
    if parts == [] then "" else PrintPart(parts[0]) + PrintParts(parts[1..])
  }

  function PrintStr(parts: seq<StrPart>): string { "\"" + PrintParts(parts) + "\"" }

  function PrintNumber(n: Number): string {
    (if n.minus then "-" else "") + n.whole
    + (if n.frac.Some? then "." + n.frac.value else "")
    + (if n.exp.Some? then [n.exp.value.mark] + n.exp.value.sign + n.exp.value.digits else "")
  }

  function Print(v: Value): string {
    match v
    case Null => "null"
    case True => "true"
    case False => "false"
    case Num(n) => PrintNumber(n)
    case Str(parts) => PrintStr(parts)
    case Arr(ws, items) => "[" + (ws + PrintItems(items)) + "]"
    case Obj(ws, members) => "{" + (ws + PrintMembers(members)) + "}"
  }

  function PrintItems(items: Items): string {
    match items
    case NoItems => ""
    case Item(pre, v, post, rest) =>
      pre + Print(v) + post + (if rest.NoItems? then "" else "," + PrintItems(rest))
  }

  function PrintMembers(members: Members): string {
    match members
    case NoMembers => ""
    case Member(pre, key, before, after, v, post, rest) =>
      pre + PrintStr(key) + before + ":" + after + Print(v) + post +
        (if rest.NoMembers? then "" else "," + PrintMembers(rest))
  }
}
