/**
 * Parsed JSON values, the truthiness rules Python and JavaScript apply to them,
 * and the string-literal encoding `JSON.stringify` / `JSON.parse` use.
 */
module JsonData {
  import opened Wrappers
  import Text

  /** A parsed JSON document (numbers are restricted to integers). */
  datatype Json =
    | JNull
    | JBool(b: bool)
    | JNum(n: int)
    | JStr(s: string)
    | JArr(items: seq<Json>)
    | JObj(fields: map<string, Json>)

  /** Python's `bool(x)` for the value `json.loads` would produce. */
  predicate PyTruthy(j: Json) {
    match j
    case JNull => false
    case JBool(b) => b
    case JNum(n) => n != 0
    case JStr(s) => s != ""
    case JArr(items) => items != []
    case JObj(fields) => fields != map[]
  }

  /** Python's name for the type of a decoded JSON value. */
  function PyTypeName(j: Json): string {
    match j
    case JNull => "NoneType"
    case JBool(_) => "bool"
    case JNum(_) => "int"
    case JStr(_) => "str"
    case JArr(_) => "list"
    case JObj(_) => "dict"
  }

  /** JavaScript's `Boolean(x)`: arrays and objects are truthy even when empty. */
  predicate JsTruthy(j: Json) {
    match j
    case JNull => false
    case JBool(b) => b
    case JNum(n) => n != 0
    case JStr(s) => s != ""
    case _ => true
  }

  /** JavaScript truthiness of a value that may be `undefined` (`None`). */
  predicate Truthy(x: Option<Json>) {
    x.Some? && JsTruthy(x.value)
  }

  /** Python's `d.get(key)`: the stored value, or `None` (JSON null) when the key is absent. */
  function PyGet(fields: map<string, Json>, key: string): (r: Json)
    ensures key !in fields ==> r == JNull
    ensures key in fields ==> r == fields[key]
  {
    if key in fields then fields[key] else JNull
  }

  /** JavaScript's `x?.key` on a parsed value: `undefined` unless `x` is an object holding `key`. */
  function Prop(x: Option<Json>, key: string): (r: Option<Json>)
    ensures r.Some? <==> x.Some? && x.value.JObj? && key in x.value.fields
  {
    if x.Some? && x.value.JObj? && key in x.value.fields then Some(x.value.fields[key]) else None
  }

  /** JavaScript's `a || b`. */
  function Or(a: Option<Json>, b: Option<Json>): (r: Option<Json>)
    ensures Truthy(a) ==> r == a
    ensures !Truthy(a) ==> r == b
  {
    if Truthy(a) then a else b
  }

  /**
   * JavaScript's `String(x)`, the text a template literal gives an interpolated value. A value
   * placed directly as a JSX child is rendered differently (`JsxChild`).
   */
  function JsText(j: Json): string {
    match j
    case JNull => "null"
    case JBool(b) => if b then "true" else "false"
    case JNum(n) => Text.IntToString(n)
    case JStr(s) => s
    case JArr(items) =>
      Text.Join(seq(|items|, i requires 0 <= i < |items| => if items[i].JNull? then "" else JsText(items[i])), ",")
    case JObj(_) => "[object Object]"
  }

  // ----- React children -----

  /** React's complaint about an object placed as a child (the list of its keys is not modelled). */
  const ObjectChild := "Objects are not valid as a React child"

  /** Whether a value is an object or an array holding one, at any depth. */
  predicate HasObject(j: Json) {
    match j
    case JObj(_) => true
    case JArr(items) => exists i | 0 <= i < |items| :: HasObject(items[i])
    case _ => false
  }

  /**
   * The text React renders for a value placed as a JSX child: nothing for null and the two
   * booleans, the decimal digits of a number, a string as it is, the children of an array one
   * after another without separator; an object throws.
   */
  function JsxChild(j: Json): (r: Result<string, string>)
    ensures j.JObj? ==> r == Failure(ObjectChild)
    ensures j.JNull? || j.JBool? ==> r == Success("")
  {
    match j
    case JNull => Success("")
    case JBool(_) => Success("")
    case JNum(n) => Success(Text.IntToString(n))
    case JStr(s) => Success(s)
    case JArr(items) => Children(seq(|items|, i requires 0 <= i < |items| => JsxChild(items[i])))
    case JObj(_) => Failure(ObjectChild)
  }

  /** A child that may be `undefined`, which renders as nothing. */
  function JsxChildOf(x: Option<Json>): (r: Result<string, string>)
    ensures x.None? ==> r == Success("")
    ensures x.Some? ==> r == JsxChild(x.value)
    ensures r.Success? <==> x.None? || !HasObject(x.value)
    ensures r.Failure? ==> r.error == ObjectChild
  {
    if x.None? then Success("")
    else
      JsxChildFails(x.value);
      JsxChild(x.value)
  }

  /** Rendered children one after another; the first that throws stops the rendering. */
  function Children(rs: seq<Result<string, string>>): (r: Result<string, string>)
  {
    if rs == [] then Success("")
    else match rs[0]
      case Failure(e) => Failure(e)
      case Success(s) =>
        match Children(rs[1..])
        case Failure(e) => Failure(e)
        case Success(t) => Success(s + t)
  }

  /** Children render exactly when each of them does; a failure is the error of one of them. */
  lemma {:induction false} ChildrenOutcome(rs: seq<Result<string, string>>) returns (k: nat)
    ensures Children(rs).Success? <==> forall i | 0 <= i < |rs| :: rs[i].Success?
    ensures Children(rs).Failure? ==> k < |rs| && rs[k] == Children(rs)
  {
    if rs == [] {
      k := 0;
    } else {
      var k' := ChildrenOutcome(rs[1..]);
      k := if rs[0].Failure? then 0 else k' + 1;
      assert forall i | 1 <= i < |rs| :: rs[1..][i - 1] == rs[i];
    }
  }

  /** A value renders as a JSX child exactly when it holds no object, and otherwise throws React's complaint. */
  lemma {:induction false} JsxChildFails(j: Json)
    ensures JsxChild(j).Success? <==> !HasObject(j)
    ensures JsxChild(j).Failure? ==> JsxChild(j).error == ObjectChild
  {
    if j.JArr? {
      var rs := seq(|j.items|, i requires 0 <= i < |j.items| => JsxChild(j.items[i]));
      forall i | 0 <= i < |j.items|
        ensures (rs[i].Success? <==> !HasObject(j.items[i])) && (rs[i].Failure? ==> rs[i].error == ObjectChild)
      {
        JsxChildFails(j.items[i]);
      }
      var k := ChildrenOutcome(rs);
    }
  }

  /**
   * Strings and numbers render as a child exactly as `String(x)` writes them; `true` and an
   * array of two strings do not: the first renders as nothing, the second without the comma.
   */
  lemma JsxChildAgainstString(j: Json, a: string, b: string)
    ensures j.JStr? || j.JNum? ==> JsxChild(j) == Success(JsText(j))
    ensures JsxChild(JBool(true)) == Success("") && JsText(JBool(true)) == "true"
    ensures JsxChild(JArr([JStr(a), JStr(b)])) == Success(a + b)
    ensures JsText(JArr([JStr(a), JStr(b)])) == a + "," + b
  {
    var two := JArr([JStr(a), JStr(b)]);
    var rs := seq(2, i requires 0 <= i < 2 => JsxChild(two.items[i]));
    assert rs == [Success(a), Success(b)];
    assert Children(rs[1..]) == Success(b + "") by {
      assert rs[1..][1..] == [];
    }
    assert b + "" == b;
    var items := two.items;
    var ts := seq(|items|, i requires 0 <= i < |items| => if items[i].JNull? then "" else JsText(items[i]));
    assert JsText(two) == Text.Join(ts, ",");
    assert ts == [a, b] && ts[1..] == [b];
    assert Text.Join(ts[1..], ",") == b;
  }

  // ----- pydantic's lax coercions -----

  /**
   * A required `str` field of a pydantic model: present and a string, which it gives; strings
   * are not coerced from other types even in lax mode.
   */
  function StringField(f: map<string, Json>, key: string): (r: Result<string, string>)
    ensures r.Success? <==> key in f && f[key].JStr?
    ensures r.Success? ==> f[key] == JStr(r.value)
  {
    if key !in f then Failure(key + ": Field required")
    else if f[key].JStr? then Success(f[key].s)
    else Failure(key + ": Input should be a valid string")
  }

  /**
   * What a pydantic `int` field accepts in lax mode: an integer, a boolean (as 1 or 0), or
   * text holding a decimal integer with an optional sign; `None` for anything else.
   */
  function LaxInt(j: Json): (r: Option<int>)
    ensures j.JNum? ==> r == Some(j.n)
    ensures j.JBool? ==> r == Some(if j.b then 1 else 0)
    ensures j.JStr? ==> r == Text.SignedDecimal(j.s)
    ensures j.JNull? || j.JArr? || j.JObj? ==> r.None?
  {
    match j
    case JNum(n) => Some(n)
    case JBool(b) => Some(if b then 1 else 0)
    case JStr(s) => Text.SignedDecimal(s)
    case _ => None
  }

  const TrueWords: set<string> := {"1", "t", "y", "on", "yes", "true"}

  const FalseWords: set<string> := {"0", "f", "n", "no", "off", "false"}

  /**
   * What a pydantic `bool` field accepts in lax mode: a boolean, the numbers 0 and 1, or one of
   * the yes/no words in any ASCII case; `None` for anything else.
   */
  function LaxBool(j: Json): (r: Option<bool>)
    ensures j.JBool? ==> r == Some(j.b)
    ensures j.JNum? ==> (r.Some? <==> j.n == 0 || j.n == 1) && (r.Some? ==> r.value == (j.n == 1))
    ensures j.JStr? ==> (r == Some(true) <==> Text.ToLower(j.s) in TrueWords)
    ensures j.JStr? ==> (r == Some(false) <==> Text.ToLower(j.s) in FalseWords)
    ensures j.JNull? || j.JArr? || j.JObj? ==> r.None?
  {
    match j
    case JBool(b) => Some(b)
    case JNum(n) => if n == 1 then Some(true) else if n == 0 then Some(false) else None
    case JStr(s) =>
      var w := Text.ToLower(s);
      if w in TrueWords then Some(true) else if w in FalseWords then Some(false) else None
    case _ => None
  }

  /** An integer written as text by `str(n)` is read back as the same integer. */
  lemma LaxIntText(n: int)
    ensures LaxInt(JStr(Text.IntToString(n))) == Some(n)
  {
    Text.IntToStringValue(n);
  }

  /** The two spellings JSON and JavaScript give a boolean are both read back as that boolean. */
  lemma LaxBoolText(b: bool)
    ensures LaxBool(JStr(if b then "true" else "false")) == Some(b)
    ensures LaxBool(JStr(if b then "True" else "False")) == Some(b)
  {
    assert Text.ToLower("True") == "true";
    assert Text.ToLower("False") == "false";
    assert Text.ToLower("true") == "true";
    assert Text.ToLower("false") == "false";
  }

  // ----- string literals -----

  /** How `JSON.stringify` writes one character inside a string literal. */
  function EscapeChar(c: char): (r: string)
    ensures r != []
  {
    if c == '"' then "\\\""
    else if c == '\\' then "\\\\"
    else if c == 8 as char then "\\b"
    else if c == 12 as char then "\\f"
    else if c == '\n' then "\\n"
    else if c == '\r' then "\\r"
    else if c == '\t' then "\\t"
    else if (c as int) < 0x20 then "\\u00" + [Text.HexDigit(c as int / 16), Text.HexDigit(c as int % 16)]
    else [c]
  }

  function Escape(s: string): string {
    if s == [] then "" else EscapeChar(s[0]) + Escape(s[1..])
  }

  /** The quoted literal `JSON.stringify` writes for a string. */
  function Quote(s: string): string {
    "\"" + Escape(s) + "\""
  }

  /** The value of four hexadecimal digits. */
  function Hex4(u: string): (r: Option<nat>)
    requires |u| == 4
    ensures r.Some? ==> r.value < 0x10000
  {
    match (Text.HexValue(u[0]), Text.HexValue(u[1]), Text.HexValue(u[2]), Text.HexValue(u[3]))
    case (Some(a), Some(b), Some(c), Some(d)) => Some(((a * 16 + b) * 16 + c) * 16 + d)
    case _ => None
  }

  /** The character an escape sequence stands for (text after the backslash) and how many characters it spans. */
  function Unescape(u: string): (r: Option<(char, nat)>)
    ensures r.Some? ==> 1 <= r.value.1 <= |u|
  {
    if u == [] then None
    else if u[0] == '"' || u[0] == '\\' || u[0] == '/' then Some((u[0], 1))
    else if u[0] == 'b' then Some((8 as char, 1))
    else if u[0] == 'f' then Some((12 as char, 1))
    else if u[0] == 'n' then Some(('\n', 1))
    else if u[0] == 'r' then Some(('\r', 1))
    else if u[0] == 't' then Some(('\t', 1))
    else if u[0] == 'u' && |u| >= 5 then
      match Hex4(u[1..5])
      case Some(v) => if v < 0xD800 || 0xE000 <= v then Some((v as char, 5)) else None
      case None => None
    else None
  }

  function Prepend(c: char, o: Option<(string, string)>): Option<(string, string)> {
    match o
    case None => None
    case Some((s, rest)) => Some(([c] + s, rest))
  }

  /**
   * What `JSON.parse` reads as the body of a string literal whose opening quote is already
   * consumed: the decoded text and what follows the closing quote, or `None` on a syntax error.
   */
  function ReadString(t: string): Option<(string, string)>
    decreases |t|
  {
    if t == [] then None
    else if t[0] == '"' then Some(([], t[1..]))
    else if t[0] == '\\' then
      match Unescape(t[1..])
      case None => None
      case Some((c, n)) => Prepend(c, ReadString(t[1 + n..]))
    else if (t[0] as int) < 0x20 then None
    else Prepend(t[0], ReadString(t[1..]))
  }

  lemma EscapeCharRead(c: char, x: string)
    ensures ReadString(EscapeChar(c) + x) == Prepend(c, ReadString(x))
  {
    var e := EscapeChar(c);
    if c == '"' || c == '\\' || c == 8 as char || c == 12 as char || c == '\n' || c == '\r' || c == '\t' {
      assert (e + x)[1..][1..] == x;
    } else if (c as int) < 0x20 {
      ControlCharRead(c, x);
    } else {
      assert (e + x)[1..] == x;
    }
  }

  /** A control character written as `\u00XX` reads back as itself. */
  lemma ControlCharRead(c: char, x: string)
    requires (c as int) < 0x20 && c != 8 as char && c != 12 as char && c != '\n' && c != '\r' && c != '\t'
    ensures ReadString(EscapeChar(c) + x) == Prepend(c, ReadString(x))
  {
    var k := c as int;
    var u := "00" + [Text.HexDigit(k / 16), Text.HexDigit(k % 16)];
    var t := EscapeChar(c) + x;
    assert EscapeChar(c) == "\\u" + u;
    assert t[0] == '\\';
    assert t[1..][0] == 'u' && |t[1..]| >= 5;
    assert t[1..][1..5] == u;
    Text.HexDigitValue(k / 16);
    Text.HexDigitValue(k % 16);
    assert Text.HexValue('0') == Some(0);
    assert Hex4(u) == Some(k);
    assert (k as char) == c;
    assert Unescape(t[1..]) == Some((c, 5));
    assert t[1 + 5..] == x;
  }

  /** Reading back an escaped string up to its closing quote yields the string and the rest of the text. */
  lemma {:induction false} EscapeRead(s: string, rest: string)
    ensures ReadString(Escape(s) + "\"" + rest) == Some((s, rest))
  {
    if s == [] {
      assert Escape(s) + "\"" + rest == "\"" + rest;
      assert ("\"" + rest)[1..] == rest;
    } else {
      var tail := Escape(s[1..]) + "\"" + rest;
      assert Escape(s) + "\"" + rest == EscapeChar(s[0]) + tail;
      EscapeCharRead(s[0], tail);
      EscapeRead(s[1..], rest);
      assert [s[0]] + s[1..] == s;
    }
  }

  /** The text after `lit` when `t` starts with it. */
  function Expect(t: string, lit: string): (r: Option<string>)
    ensures r.Some? <==> lit <= t
    ensures r.Some? ==> t == lit + r.value
  {
    if lit <= t then Some(t[|lit|..]) else None
  }
}
