/** String helpers shared by the backend and frontend models. */
module Text {
  import opened Wrappers

  /** The characters JavaScript's `String.prototype.trim` removes (WhiteSpace and LineTerminator). */
  predicate IsSpace(c: char) {
    var k := c as int;
    k == 0x20 || 0x09 <= k <= 0x0D || k == 0xA0 || k == 0x1680 || 0x2000 <= k <= 0x200A
    || k == 0x2028 || k == 0x2029 || k == 0x202F || k == 0x205F || k == 0x3000 || k == 0xFEFF
  }

  /** JavaScript truthiness of an optional string: present and not empty. */
  predicate Given(s: Option<string>) {
    s.Some? && s.value != ""
  }

  /** A string holding nothing but whitespace (the empty string included). */
  predicate IsBlank(s: string) {
    forall i | 0 <= i < |s| :: IsSpace(s[i])
  }

  function TrimStart(s: string): (r: string)
    ensures |r| <= |s| && r == s[|s| - |r|..]
    ensures r == [] || !IsSpace(r[0])
    ensures forall i | 0 <= i < |s| - |r| :: IsSpace(s[i])
  {
    if s != [] && IsSpace(s[0]) then TrimStart(s[1..]) else s
  }

  function TrimEnd(s: string): (r: string)
    ensures |r| <= |s| && r == s[..|r|]
    ensures r == [] || !IsSpace(r[|r| - 1])
    ensures forall i | |r| <= i < |s| :: IsSpace(s[i])
  {
    if s != [] && IsSpace(s[|s| - 1]) then TrimEnd(s[..|s| - 1]) else s
  }

  /** JavaScript's `s.trim()`: whitespace removed at both ends, nothing else changed. */
  function Trim(s: string): (r: string)
    ensures |r| <= |s|
    ensures r == [] <==> IsBlank(s)
    ensures r != [] ==> !IsSpace(r[0]) && !IsSpace(r[|r| - 1])
  {
    var t := TrimStart(s);
    var r := TrimEnd(t);
    assert r == [] ==> IsBlank(s) by {
      if r == [] {
        assert t == [];
      }
    }
    r
  }

  /**
   * What `trim` keeps is one slice of the text: everything before it and everything after it
   * is whitespace. The slice's bounds are returned.
   */
  lemma TrimSlice(s: string) returns (i: nat, j: nat)
    ensures i <= j <= |s| && Trim(s) == s[i..j]
    ensures forall k | 0 <= k < i :: IsSpace(s[k])
    ensures forall k | j <= k < |s| :: IsSpace(s[k])
  {
    var t := TrimStart(s);
    var r := TrimEnd(t);
    assert Trim(s) == r;
    i := |s| - |t|;
    j := i + |r|;
    DropThenTake(s, i, |r|);
  }

  /** Cutting `n` elements after the first `i` is the slice `s[i..i + n]`, and the rest lines up. */
  lemma DropThenTake<T>(s: seq<T>, i: nat, n: nat)
    requires i + n <= |s|
    ensures s[i..][..n] == s[i..i + n]
    ensures forall k | i + n <= k < |s| :: s[k] == s[i..][k - i]
  {
  }

  /** The first `n` elements, or all of them when there are fewer (`slice(0, n)`, `substring(0, n)`). */
  function Take<T>(s: seq<T>, n: nat): (r: seq<T>)
    ensures |r| == if |s| < n then |s| else n
    ensures r <= s
  {
    if |s| < n then s else s[..n]
  }

  /** How many items a display cut to `limit` leaves out. */
  function Hidden<T>(s: seq<T>, limit: nat): (r: nat)
    ensures |Take(s, limit)| + r == |s|
    ensures r > 0 <==> |s| > limit
  {
    if |s| > limit then |s| - limit else 0
  }

  /** The position of the first occurrence of `c` in `s`. */
  function IndexOf(s: string, c: char): (i: nat)
    requires c in s
    ensures i < |s| && s[i] == c && c !in s[..i]
  {
    if s[0] == c then 0 else 1 + IndexOf(s[1..], c)
  }

  /**
   * Python's `str.splitlines()` restricted to `\n` as the only line boundary:
   * the pieces between newlines, where a final newline does not open an empty last line.
   */
  function SplitLines(s: string): (r: seq<string>)
    ensures forall i | 0 <= i < |r| :: '\n' !in r[i]
    decreases |s|
  {
    if s == [] then []
    else if '\n' !in s then [s]
    else
      var i := IndexOf(s, '\n');
      [s[..i]] + SplitLines(s[i + 1..])
  }

  /** `sep.join(parts)` in Python, `parts.join(sep)` in JavaScript. */
  function Join(parts: seq<string>, sep: string): string {
    if parts == [] then ""
    else if |parts| == 1 then parts[0]
    else parts[0] + sep + Join(parts[1..], sep)
  }

  /** Every line followed by a newline. */
  function Terminated(lines: seq<string>): string {
    if lines == [] then "" else lines[0] + "\n" + Terminated(lines[1..])
  }

  /** Joining a non-empty list of lines by `\n` and adding one final `\n` terminates every line. */
  lemma {:induction false} JoinThenNewline(lines: seq<string>)
    requires lines != []
    ensures Join(lines, "\n") + "\n" == Terminated(lines)
  {
    if |lines| > 1 {
      JoinThenNewline(lines[1..]);
      calc {
        Join(lines, "\n") + "\n";
        (lines[0] + "\n" + Join(lines[1..], "\n")) + "\n";
        lines[0] + "\n" + (Join(lines[1..], "\n") + "\n");
        lines[0] + "\n" + Terminated(lines[1..]);
      }
    } else {
      assert lines[1..] == [];
    }
  }

  /** Splitting newline-terminated lines that contain no newline gives the lines back. */
  lemma {:induction false} SplitTerminated(lines: seq<string>)
    requires forall i | 0 <= i < |lines| :: '\n' !in lines[i]
    ensures SplitLines(Terminated(lines)) == lines
  {
    if lines != [] {
      var s := Terminated(lines);
      var rest := Terminated(lines[1..]);
      assert s == lines[0] + "\n" + rest;
      assert s[|lines[0]|] == '\n';
      var i := IndexOf(s, '\n');
      assert s[..i] == lines[0];
      assert s[i + 1..] == rest;
      SplitTerminated(lines[1..]);
    }
  }

  function DigitChar(d: nat): char
    requires d < 10
  {
    "0123456789"[d]
  }

  /** Decimal rendering of a natural number, as `str(n)` or `${n}` print it. */
  function NatToString(n: nat): (r: string)
    ensures r != []
    ensures forall i | 0 <= i < |r| :: '0' <= r[i] <= '9'
  {
    if n < 10 then [DigitChar(n)] else NatToString(n / 10) + [DigitChar(n % 10)]
  }

  /** Decimal rendering of an integer, with a leading `-` when negative. */
  function IntToString(n: int): string {
    if n < 0 then "-" + NatToString(-n) else NatToString(n)
  }

  /** The value of a run of one or more ASCII decimal digits; `None` for anything else. */
  function DecimalValue(s: string): (r: Option<nat>)
    ensures r.Some? ==> s != [] && forall i | 0 <= i < |s| :: '0' <= s[i] <= '9'
    ensures s != [] && (forall i | 0 <= i < |s| :: '0' <= s[i] <= '9') ==> r.Some?
  {
    if s == [] || !('0' <= s[|s| - 1] <= '9') then None
    else
      var d: nat := s[|s| - 1] as int - '0' as int;
      if |s| == 1 then Some(d)
      else match DecimalValue(s[..|s| - 1])
        case None => None
        case Some(v) => Some(v * 10 + d)
  }

  /** Decimal digits with an optional leading `+` or `-`, the text form of an integer. */
  function SignedDecimal(s: string): (r: Option<int>)
    ensures s != [] && s[0] != '+' && s[0] != '-' ==> r == DecimalValue(s)
    ensures s != [] && s[0] == '-' && DecimalValue(s[1..]).Some? ==> r == Some(-(DecimalValue(s[1..]).value as int))
  {
    if s != [] && s[0] == '+' then DecimalValue(s[1..])
    else if s != [] && s[0] == '-' then
      match DecimalValue(s[1..])
      case None => None
      case Some(v) => Some(-(v as int))
    else DecimalValue(s)
  }

  /** Reading back the decimal rendering of a natural number gives the number. */
  lemma {:induction false} NatToStringValue(n: nat)
    ensures DecimalValue(NatToString(n)) == Some(n)
  {
    if n >= 10 {
      var s := NatToString(n);
      NatToStringValue(n / 10);
      assert s[..|s| - 1] == NatToString(n / 10);
      assert s[|s| - 1] == DigitChar(n % 10);
    }
  }

  /** Reading back the decimal rendering of an integer, sign included, gives the integer. */
  lemma {:induction false} IntToStringValue(n: int)
    ensures SignedDecimal(IntToString(n)) == Some(n)
  {
    if n < 0 {
      NegativeText(n);
    } else {
      NatToStringValue(n);
      SignedUnsigned(NatToString(n));
    }
  }

  lemma NegativeText(n: int)
    requires n < 0
    ensures SignedDecimal(IntToString(n)) == Some(n)
  {
    var m: nat := -n;
    var t := NatToString(m);
    assert IntToString(n) == "-" + t;
    NatToStringValue(m);
    SignedNegative(t);
  }

  lemma SignedNegative(t: string)
    requires DecimalValue(t).Some?
    ensures SignedDecimal("-" + t) == Some(-(DecimalValue(t).value as int))
  {
    assert ("-" + t)[1..] == t;
  }

  lemma SignedUnsigned(t: string)
    requires t != [] && '0' <= t[0] <= '9'
    ensures SignedDecimal(t) == DecimalValue(t)
  {
  }

  /** Lower-case hexadecimal digit, as Python's `uuid.hex` and JSON's `\u00xx` escapes write them. */
  function HexDigit(d: nat): char
    requires d < 16
  {
    "0123456789abcdef"[d]
  }

  /** The value of a hexadecimal digit of either case; `None` for any other character. */
  function HexValue(c: char): (r: Option<nat>)
    ensures r.Some? ==> r.value < 16
  {
    if '0' <= c <= '9' then Some(c as int - '0' as int)
    else if 'a' <= c <= 'f' then Some(c as int - 'a' as int + 10)
    else if 'A' <= c <= 'F' then Some(c as int - 'A' as int + 10)
    else None
  }

  /** Reading a written digit gives its value back. */
  lemma HexDigitValue(d: nat)
    requires d < 16
    ensures HexValue(HexDigit(d)) == Some(d)
  {
  }

  /** The characters Python's `str.isspace` accepts, which `int()` skips around a number. */
  predicate PyIsSpace(c: char) {
    var k := c as int;
    0x09 <= k <= 0x0D || 0x1C <= k <= 0x20 || k == 0x85 || k == 0xA0 || k == 0x1680 || 0x2000 <= k <= 0x200A
    || k == 0x2028 || k == 0x2029 || k == 0x202F || k == 0x205F || k == 0x3000
  }

  /** Python whitespace removed at both ends, as `int()` does before reading digits. */
  function PyStrip(s: string): (r: string)
    ensures |r| <= |s|
    ensures r == [] || (!PyIsSpace(r[0]) && !PyIsSpace(r[|r| - 1]))
    ensures (forall i | 0 <= i < |s| :: !PyIsSpace(s[i])) ==> r == s
    decreases |s|
  {
    if s != [] && PyIsSpace(s[0]) then PyStrip(s[1..])
    else if s != [] && PyIsSpace(s[|s| - 1]) then PyStrip(s[..|s| - 1])
    else s
  }

  /**
   * The digits of `s` when it is hex digits with single underscores between them, the digit
   * syntax of `int(s, 16)`; `None` for anything else, the empty text included.
   */
  function UnderscoredHex(s: string): (r: Option<seq<nat>>)
    ensures r.Some? ==> 1 <= |r.value| <= |s| && forall i | 0 <= i < |r.value| :: r.value[i] < 16
    ensures s != [] && (forall i | 0 <= i < |s| :: HexValue(s[i]).Some?) ==>
      r.Some? && |r.value| == |s| && forall i | 0 <= i < |s| :: HexValue(s[i]) == Some(r.value[i])
    decreases |s|
  {
    if s == [] then None
    else
      match HexValue(s[0])
      case None => None
      case Some(d) =>
        if |s| == 1 then Some([d])
        else
          var rest := if s[1] == '_' then s[2..] else s[1..];
          match UnderscoredHex(rest)
          case None => None
          case Some(ds) => Some([d] + ds)
  }

  /** ASCII lower-casing of one character. */
  function LowerChar(c: char): char {
    if 'A' <= c <= 'Z' then (c as int - 'A' as int + 'a' as int) as char else c
  }

  function ToLower(s: string): (r: string)
    ensures |r| == |s| && forall i | 0 <= i < |s| :: r[i] == LowerChar(s[i])
  {
    seq(|s|, i requires 0 <= i < |s| => LowerChar(s[i]))
  }

  /** A hex digit of either case is written back in lower case. */
  lemma HexValueLower(c: char)
    requires HexValue(c).Some?
    ensures HexDigit(HexValue(c).value) == LowerChar(c)
  {
  }

  /** JavaScript's `s.split(c)`: the pieces between occurrences of `c`, empty pieces included. */
  function Split(s: string, c: char): (r: seq<string>)
    ensures r != []
    ensures forall i | 0 <= i < |r| :: c !in r[i]
    decreases |s|
  {
    if c !in s then [s]
    else
      var i := IndexOf(s, c);
      [s[..i]] + Split(s[i + 1..], c)
  }

  /** Splitting a joined list at its separator gives the list back, when no piece holds the separator. */
  lemma {:induction false} SplitJoin(parts: seq<string>, c: char)
    requires parts != []
    requires forall i | 0 <= i < |parts| :: c !in parts[i]
    ensures Split(Join(parts, [c]), c) == parts
  {
    if |parts| > 1 {
      var s := Join(parts, [c]);
      var rest := Join(parts[1..], [c]);
      assert s == parts[0] + [c] + rest;
      assert s[|parts[0]|] == c;
      var i := IndexOf(s, c);
      assert s[..i] == parts[0];
      assert s[i + 1..] == rest;
      SplitJoin(parts[1..], c);
    }
  }
}
