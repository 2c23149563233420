/** The slice of the JavaScript runtime that the modelled code relies on:
    JSON values, `undefined` (as `None`), truthiness, property access,
    `String(v)` / template-literal rendering, `Array.prototype.join`,
    `String.prototype.trim`, `startsWith` / `endsWith`, and the
    status/body pair of an HTTP response. Numbers are integers only. */
module Js {

  datatype Option<+T> = None | Some(value: T)

  /** A JSON value as parsed by `JSON.parse` or `express.json()`. */
  datatype Json =
    | JNull
    | JBool(b: bool)
    | JNum(n: int)
    | JStr(s: string)
    | JArr(items: seq<Json>)
    | JObj(fields: map<string, Json>)

  /** A possibly-`undefined` value: `None` is `undefined`. */
  type Value = Option<Json>

  /** JavaScript truthiness; `undefined`, `null`, `false`, `0` and `""` are falsy. */
  predicate Truthy(v: Value)
  {
    match v
    case None => false
    case Some(JNull) => false
    case Some(JBool(b)) => b
    case Some(JNum(n)) => n != 0
    case Some(JStr(s)) => s != ""
    case Some(_) => true
  }

  /** `v[key]` on a non-null value: an own property of an object, otherwise
      `undefined` (no key read by the modelled code names an inherited property). */
  function Prop(v: Json, key: string): Value
  {
    match v
    case JObj(m) => if key in m then Some(m[key]) else None
    case _ => None
  }

  /** `key in v` for an object value (`'message' in value`). */
  predicate HasKey(v: Json, key: string)
  {
    v.JObj? && key in v.fields
  }

  function Digit(d: int): char
    requires 0 <= d < 10
  {
    "0123456789"[d]
  }

  /** Decimal rendering of a natural number, as `String(n)` does it. */
  function NatToString(n: nat): (r: string)
    ensures |r| > 0
    ensures forall i :: 0 <= i < |r| ==> '0' <= r[i] <= '9'
    decreases n
  {
    if n < 10 then [Digit(n)] else NatToString(n / 10) + [Digit(n % 10)]
  }

  function IntToString(n: int): (r: string)
    ensures |r| > 0
  {
    if n < 0 then "-" + NatToString(-n) else NatToString(n)
  }

  /** `parts.join(sep)`. */
  function Join(parts: seq<string>, sep: string): (r: string)
    ensures parts == [] ==> r == ""
    ensures |parts| == 1 ==> r == parts[0]
  {
    if |parts| == 0 then ""
    else if |parts| == 1 then parts[0]
    else parts[0] + sep + Join(parts[1..], sep)
  }

  /** Joining a leading part onto a non-empty rest puts one separator
      between them. */
  lemma JoinCons(p: string, ps: seq<string>, sep: string)
    requires ps != []
    ensures Join([p] + ps, sep) == p + sep + Join(ps, sep)
  {
    assert ([p] + ps)[1..] == ps;
  }

  /** Eight parts joined: one separator between each neighbouring pair. */
  lemma JoinEight(l0: string, l1: string, l2: string, l3: string, l4: string, l5: string,
    l6: string, l7: string, sep: string)
    ensures Join([l0, l1, l2, l3, l4, l5, l6, l7], sep)
      == l0 + sep + (l1 + sep + (l2 + sep + (l3 + sep + (l4 + sep + (l5 + sep + (l6 + sep + l7))))))
  {
    var t6 := [l6, l7];
    JoinCons(l6, [l7], sep);
    assert [l6] + [l7] == t6;
    var t5 := [l5] + t6;
    JoinCons(l5, t6, sep);
    var t4 := [l4] + t5;
    JoinCons(l4, t5, sep);
    var t3 := [l3] + t4;
    JoinCons(l3, t4, sep);
    var t2 := [l2] + t3;
    JoinCons(l2, t3, sep);
    var t1 := [l1] + t2;
    JoinCons(l1, t2, sep);
    var t0 := [l0] + t1;
    JoinCons(l0, t1, sep);
    assert t0 == [l0, l1, l2, l3, l4, l5, l6, l7];
  }

  /** Joining two non-empty lists is joining each and putting one separator
      between the results. */
  lemma {:induction false} JoinAppend(xs: seq<string>, ys: seq<string>, sep: string)
    requires xs != [] && ys != []
    ensures Join(xs + ys, sep) == Join(xs, sep) + sep + Join(ys, sep)
  {
    if |xs| == 1 {
      assert xs + ys == [xs[0]] + ys;
      JoinCons(xs[0], ys, sep);
    } else {
      assert xs + ys == [xs[0]] + (xs[1..] + ys);
      JoinCons(xs[0], xs[1..] + ys, sep);
      JoinAppend(xs[1..], ys, sep);
      assert xs == [xs[0]] + xs[1..];
      JoinCons(xs[0], xs[1..], sep);
    }
  }

  /** `String(v)` for a defined value; arrays render through `join(',')`,
      plain objects as "[object Object]". */
  function Render(v: Json): string
  {
    match v
    case JNull => "null"
    case JBool(b) => if b then "true" else "false"
    case JNum(n) => IntToString(n)
    case JStr(s) => s
    case JArr(items) =>
      Join(seq(|items|, i requires 0 <= i < |items| => if items[i] == JNull then "" else Render(items[i])), ",")
    case JObj(_) => "[object Object]"
  }

  /** How `Array.prototype.join` renders one element: `null` becomes "". */
  function ElementText(v: Json): string
  {
    if v == JNull then "" else Render(v)
  }

  /** `items.join(sep)` for an array of JSON values. */
  function JoinValues(items: seq<Json>, sep: string): string
  {
    Join(seq(|items|, i requires 0 <= i < |items| => ElementText(items[i])), sep)
  }

  /** `${v}` inside a template literal: `undefined` renders as "undefined". */
  function ToText(v: Value): string
  {
    match v
    case None => "undefined"
    case Some(j) => Render(j)
  }

  predicate StartsWith(s: string, prefix: string)
  {
    |prefix| <= |s| && s[..|prefix|] == prefix
  }

  predicate EndsWith(s: string, suffix: string)
  {
    |suffix| <= |s| && s[|s| - |suffix|..] == suffix
  }

  /** The characters `String.prototype.trim` removes: ECMAScript WhiteSpace
      and LineTerminator. */
  predicate IsWhitespace(c: char)
  {
    c == '\t' || c == '\n' || c == '\U{B}' || c == '\U{C}' || c == '\r' || c == ' '
    || c == '\U{A0}' || c == '\U{1680}' || ('\U{2000}' <= c <= '\U{200A}')
    || c == '\U{2028}' || c == '\U{2029}' || c == '\U{202F}' || c == '\U{205F}'
    || c == '\U{3000}' || c == '\U{FEFF}'
  }

  /** A string with nothing but whitespace (the empty string included). */
  predicate IsBlank(s: string)
  {
    forall i :: 0 <= i < |s| ==> IsWhitespace(s[i])
  }

  /** `s.trimStart()`: drops leading whitespace. */
  function TrimStart(s: string): string
  {
    if s == [] || !IsWhitespace(s[0]) then s else TrimStart(s[1..])
  }

  /** `s.trimEnd()`: drops trailing whitespace. */
  function TrimEnd(s: string): string
  {
    if s == [] || !IsWhitespace(s[|s| - 1]) then s else TrimEnd(s[..|s| - 1])
  }

  /** `trimStart` removes a blank prefix and stops at the first other
      character. */
  lemma {:induction false} TrimStartSpec(s: string)
    ensures var r := TrimStart(s);
      |r| <= |s| && r == s[|s| - |r|..] && IsBlank(s[..|s| - |r|]) &&
      (r == [] || !IsWhitespace(r[0]))
  {
    if s != [] && IsWhitespace(s[0]) {
      TrimStartSpec(s[1..]);
      var r := TrimStart(s[1..]);
      assert s[1..][..|s| - 1 - |r|] == s[..|s| - |r|][1..];
    }
  }

  /** `trimEnd` removes a blank suffix and stops at the last other
      character. */
  lemma {:induction false} TrimEndSpec(s: string)
    ensures var r := TrimEnd(s);
      |r| <= |s| && r == s[..|r|] && IsBlank(s[|r|..]) &&
      (r == [] || !IsWhitespace(r[|r| - 1]))
  {
    if s != [] && IsWhitespace(s[|s| - 1]) {
      TrimEndSpec(s[..|s| - 1]);
      var r := TrimEnd(s[..|s| - 1]);
      assert s[|r|..] == s[..|s| - 1][|r|..] + [s[|s| - 1]];
    }
  }

  /** `s.trim()`. */
  function Trim(s: string): string
  {
    TrimEnd(TrimStart(s))
  }

  /** A string trims to "" exactly when it is blank: the test behind every
      `x.trim()` guard in the modelled code. */
  lemma TrimEmptyIffBlank(s: string)
    ensures Trim(s) == "" <==> IsBlank(s)
  {
    var a := TrimStart(s);
    TrimStartSpec(s);
    TrimEndSpec(a);
    if Trim(s) == "" {
      assert a[0..] == a;
      assert a == [];
      forall i | 0 <= i < |s| ensures IsWhitespace(s[i]) {
        assert s[i] == s[..|s| - |a|][i];
      }
    } else {
      var t := Trim(s);
      assert !IsWhitespace(t[0]);
      assert t[0] == a[0];
      assert a[0] == s[|s| - |a|];
    }
  }

  /** A JSON HTTP response: status code and body. */
  datatype Response = Response(status: int, body: Json)

  /** `Response.ok`: the status is in 200..299. */
  predicate IsOkStatus(status: int)
  {
    200 <= status <= 299
  }

  /** A one-key object `{ key: text }`. */
  function Message(key: string, text: string): Json
  {
    JObj(map[key := JStr(text)])
  }
}
