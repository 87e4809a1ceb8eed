/**
 * The platform-independent UUID column type of the user model: a native UUID column on
 * PostgreSQL, a 32-character column of lower-case hex digits on every other database.
 */
module UuidCodec {
  import opened Wrappers
  import Text

  /** A UUID as its 32 hexadecimal digits (128 bits), most significant first. */
  type Uuid = s: seq<nat> | |s| == 32 && forall i | 0 <= i < |s| :: s[i] < 16
    witness seq(32, i => 0)

  /** `uuid.hex`: 32 lower-case hex digits without separators. */
  function Hex(u: Uuid): (r: string)
    ensures |r| == 32
    ensures forall i | 0 <= i < 32 :: Text.HexValue(r[i]) == Some(u[i])
  {
    var r := seq(32, i requires 0 <= i < 32 => Text.HexDigit(u[i]));
    assert forall i | 0 <= i < 32 :: Text.HexValue(r[i]) == Some(u[i]) by {
      forall i | 0 <= i < 32 ensures Text.HexValue(r[i]) == Some(u[i]) {
        Text.HexDigitValue(u[i]);
      }
    }
    r
  }

  /** `str(uuid)`: the 8-4-4-4-12 hyphenated form. */
  function Canonical(u: Uuid): (r: string)
    ensures |r| == 36
  {
    Grouped(Hex(u))
  }

  /** `s.replace(pat, '')`: every non-overlapping occurrence of `pat`, scanned left to right, removed. */
  function RemoveAll(s: string, pat: string): string
    requires pat != []
    decreases |s|
  {
    if s == [] then []
    else if pat <= s then RemoveAll(s[|pat|..], pat)
    else [s[0]] + RemoveAll(s[1..], pat)
  }

  predicate IsBrace(c: char) {
    c == '{' || c == '}'
  }

  /** `s.strip('{}')`: braces removed from both ends. */
  function StripBraces(s: string): (r: string)
    ensures r == [] || (!IsBrace(r[0]) && !IsBrace(r[|r| - 1]))
    decreases |s|
  {
    if s != [] && IsBrace(s[0]) then StripBraces(s[1..])
    else if s != [] && IsBrace(s[|s| - 1]) then StripBraces(s[..|s| - 1])
    else s
  }

  /** Every hex digit of `s` read, or `None` when one of them is not a hex digit. */
  function Nibbles(s: string): (r: Option<seq<nat>>)
    ensures r.Some? <==> forall i | 0 <= i < |s| :: Text.HexValue(s[i]).Some?
    ensures r.Some? ==> |r.value| == |s| && forall i | 0 <= i < |s| :: Text.HexValue(s[i]) == Some(r.value[i])
  {
    if s == [] then Some([])
    else
      match (Text.HexValue(s[0]), Nibbles(s[1..]))
      case (Some(d), Some(ds)) => Some([d] + ds)
      case (None, _) => None
      case (Some(_), None) => None
  }

  /** The text `uuid.UUID(s)` reads its 32 digits from: prefixes, braces and hyphens dropped. */
  function Digits(s: string): string {
    RemoveAll(StripBraces(RemoveAll(RemoveAll(s, "urn:"), "uuid:")), "-")
  }

  /** The UUID whose 32 digits `h` spells in either case; `None` when one is not a hex digit. */
  function FromHex(h: string): (r: Option<Uuid>)
    requires |h| == 32
    ensures r.Some? <==> forall i | 0 <= i < 32 :: Text.HexValue(h[i]).Some?
    ensures r.Some? ==> Hex(r.value) == Text.ToLower(h)
  {
    match Nibbles(h)
    case None => None
    case Some(ns) =>
      assert forall i | 0 <= i < 32 :: ns[i] < 16 by {
        forall i | 0 <= i < 32 ensures ns[i] < 16 {
          assert Text.HexValue(h[i]) == Some(ns[i]);
        }
      }
      var u: Uuid := ns;
      assert Hex(u) == Text.ToLower(h) by {
        forall i | 0 <= i < 32 ensures Hex(u)[i] == Text.ToLower(h)[i] {
          Text.HexValueLower(h[i]);
          Text.HexDigitValue(u[i]);
        }
      }
      Some(u)
  }

  /** The text after a `+` sign and a `0x` or `0X` prefix, with the one `_` that may follow the prefix. */
  function Unprefixed(t: string): (r: string)
    ensures |r| <= |t|
  {
    var unsigned := if t != [] && t[0] == '+' then t[1..] else t;
    if |unsigned| >= 2 && unsigned[0] == '0' && (unsigned[1] == 'x' || unsigned[1] == 'X') then
      (if |unsigned| >= 3 && unsigned[2] == '_' then unsigned[3..] else unsigned[2..])
    else unsigned
  }

  /**
   * The digits `int(h, 16)` reads from the cleaned-up text: Python whitespace around the number,
   * a `+` sign, a `0x` or `0X` prefix that one `_` may follow, and single underscores between
   * digits. A `-` sign cannot reach this point, since every hyphen was removed before.
   */
  function IntDigits(h: string): (r: Option<seq<nat>>)
    ensures r.Some? ==> 1 <= |r.value| <= |h| && forall i | 0 <= i < |r.value| :: r.value[i] < 16
  {
    Text.UnderscoredHex(Unprefixed(Text.PyStrip(h)))
  }

  /** The 128-bit value of at most 32 digits, as 32 digits: leading zeros added. */
  function Padded(ds: seq<nat>): (u: Uuid)
    requires |ds| <= 32 && forall i | 0 <= i < |ds| :: ds[i] < 16
    ensures u[32 - |ds|..] == ds && forall i | 0 <= i < 32 - |ds| :: u[i] == 0
  {
    seq(32 - |ds|, i => 0) + ds
  }

  /**
   * `uuid.UUID(s)`: `None` where Python raises ValueError (not 32 characters after the clean-up,
   * or text `int(h, 16)` refuses). The value is never out of range, as at most 32 digits remain.
   */
  function Parse(s: string): (r: Option<Uuid>)
    ensures r.Some? <==> |Digits(s)| == 32 && IntDigits(Digits(s)).Some?
    ensures r.Some? ==> r.value[32 - |IntDigits(Digits(s)).value|..] == IntDigits(Digits(s)).value
    ensures r.Some? ==> forall i | 0 <= i < 32 - |IntDigits(Digits(s)).value| :: r.value[i] == 0
  {
    var h := Digits(s);
    if |h| != 32 then None
    else
      match IntDigits(h)
      case None => None
      case Some(ds) => Some(Padded(ds))
  }

  /** Plain hex digits carry no whitespace, sign or prefix: `int(h, 16)` reads them one by one. */
  lemma IntDigitsPlain(h: string)
    requires h != [] && forall i | 0 <= i < |h| :: Text.HexValue(h[i]).Some?
    ensures IntDigits(h) == Text.UnderscoredHex(h)
  {
    NoSpaceInHex(h);
    assert Text.PyStrip(h) == h;
    assert h[0] != '+' by {
      assert Text.HexValue(h[0]).Some?;
    }
    if |h| >= 2 {
      assert h[1] != 'x' && h[1] != 'X' by {
        assert Text.HexValue(h[1]).Some?;
      }
    }
    assert Unprefixed(h) == h;
  }

  lemma NoSpaceInHex(h: string)
    requires forall i | 0 <= i < |h| :: Text.HexValue(h[i]).Some?
    ensures forall i | 0 <= i < |h| :: !Text.PyIsSpace(h[i])
  {
    forall i | 0 <= i < |h| ensures !Text.PyIsSpace(h[i]) {
      assert Text.HexValue(h[i]).Some?;
    }
  }

  /** The UUID the digits of `h` spell, once read as `int(h, 16)` and once digit by digit, is the same. */
  lemma PlainValue(h: string)
    requires |h| == 32 && forall i | 0 <= i < 32 :: Text.HexValue(h[i]).Some?
    ensures IntDigits(h).Some? && |IntDigits(h).value| == 32 && Some(Padded(IntDigits(h).value)) == FromHex(h)
  {
    IntDigitsPlain(h);
    var ds := Text.UnderscoredHex(h).value;
    var u := FromHex(h).value;
    assert Padded(ds) == ds;
    assert ds == u by {
      forall i | 0 <= i < 32 ensures ds[i] == u[i] {
        Text.HexValueLower(h[i]);
        Text.HexDigitValue(u[i]);
        assert Text.HexValue(Hex(u)[i]) == Some(u[i]);
      }
    }
  }

  /** Thirty-two plain hex digits are read digit by digit, in either case. */
  lemma PlainDigits(s: string)
    requires |Digits(s)| == 32 && forall i | 0 <= i < 32 :: Text.HexValue(Digits(s)[i]).Some?
    ensures Parse(s).Some? && Parse(s) == FromHex(Digits(s))
    ensures Hex(Parse(s).value) == Text.ToLower(Digits(s))
  {
    PlainValue(Digits(s));
  }

  /**
   * `int(h, 16)` also reads a `0x` prefix: "0x" and 30 hex digits is a UUID whose first two
   * digits are zero, although Python's UUID text never looks like that.
   */
  lemma PrefixedDigitsAccepted(h: string)
    requires |h| == 30 && forall i | 0 <= i < 30 :: Text.HexValue(h[i]).Some?
    ensures Parse("0x" + h).Some?
    ensures Parse("0x" + h).value[..2] == [0, 0]
  {
    var s := "0x" + h;
    PrefixedClean(h);
    PrefixedRead(h);
    var ds := Text.UnderscoredHex(h).value;
    assert |ds| == 30;
    ParseClean(s);
    assert Parse(s) == Some(Padded(ds));
  }

  lemma ParseClean(s: string)
    requires Digits(s) == s && |s| == 32 && IntDigits(s).Some?
    ensures Parse(s) == Some(Padded(IntDigits(s).value))
  {
  }

  lemma PrefixedClean(h: string)
    requires |h| == 30 && forall i | 0 <= i < 30 :: Text.HexValue(h[i]).Some?
    ensures Digits("0x" + h) == "0x" + h
  {
    var s := "0x" + h;
    assert forall i | 0 <= i < |s| :: s[i] != 'u' && s[i] != '-' && !IsBrace(s[i]) by {
      forall i | 0 <= i < |s| ensures s[i] != 'u' && s[i] != '-' && !IsBrace(s[i]) {
        if i >= 2 {
          assert s[i] == h[i - 2];
          assert Text.HexValue(h[i - 2]).Some?;
        }
      }
    }
    RemoveAllAbsent(s, "urn:");
    RemoveAllAbsent(s, "uuid:");
    RemoveAllAbsent(s, "-");
    assert StripBraces(s) == s;
  }

  lemma PrefixedRead(h: string)
    requires |h| == 30 && forall i | 0 <= i < 30 :: Text.HexValue(h[i]).Some?
    ensures IntDigits("0x" + h) == Text.UnderscoredHex(h)
  {
    var s := "0x" + h;
    PrefixedNoSpace(h);
    assert Text.PyStrip(s) == s;
    assert s[2..] == h;
    assert s[2] != '_' by {
      assert s[2] == h[0] && Text.HexValue(h[0]).Some?;
    }
    assert Unprefixed(s) == h;
  }

  lemma PrefixedNoSpace(h: string)
    requires |h| == 30 && forall i | 0 <= i < 30 :: Text.HexValue(h[i]).Some?
    ensures forall i | 0 <= i < 32 :: !Text.PyIsSpace(("0x" + h)[i])
  {
    NoSpaceInHex(h);
    var s := "0x" + h;
    forall i | 0 <= i < 32 ensures !Text.PyIsSpace(s[i]) {
      if i >= 2 {
        assert s[i] == h[i - 2];
      }
    }
  }

  lemma {:induction false} RemoveAllAbsent(s: string, pat: string)
    requires pat != [] && pat[0] !in s
    ensures RemoveAll(s, pat) == s
  {
    if s != [] {
      assert s[0] != pat[0];
      RemoveAllAbsent(s[1..], pat);
    }
  }

  /** The clean-up of `uuid.UUID`, one step at a time. */
  lemma DigitsSteps(s: string, a: string, b: string, c: string, d: string)
    requires RemoveAll(s, "urn:") == a && RemoveAll(a, "uuid:") == b && StripBraces(b) == c && RemoveAll(c, "-") == d
    ensures Digits(s) == d
  {
  }

  /** `replace(pat, '')` on text that starts with `pat` drops that occurrence first. */
  lemma RemoveAllHead(pat: string, rest: string)
    requires pat != []
    ensures RemoveAll(pat + rest, pat) == RemoveAll(rest, pat)
  {
    assert pat <= pat + rest;
    assert (pat + rest)[|pat|..] == rest;
  }

  /** Text in which no `u` is followed by an `r` holds no occurrence of "urn:". */
  lemma {:induction false} RemoveAllNoUrn(s: string)
    requires forall i | 0 <= i < |s| - 1 :: !(s[i] == 'u' && s[i + 1] == 'r')
    ensures RemoveAll(s, "urn:") == s
    decreases |s|
  {
    if s != [] {
      assert !("urn:" <= s) by {
        if |s| >= 4 {
          assert !(s[0] == 'u' && s[1] == 'r');
        }
      }
      RemoveAllNoUrn(s[1..]);
    }
  }

  lemma {:induction false} RemoveAllConcat(a: string, b: string, pat: string)
    requires |pat| == 1
    ensures RemoveAll(a + b, pat) == RemoveAll(a, pat) + RemoveAll(b, pat)
  {
    if a != [] {
      assert (a + b)[1..] == a[1..] + b;
      RemoveAllConcat(a[1..], b, pat);
    } else {
      assert a + b == b;
    }
  }

  lemma HexHasNoSeparator(u: Uuid)
    ensures forall i | 0 <= i < 32 :: Hex(u)[i] != 'u' && Hex(u)[i] != '-' && !IsBrace(Hex(u)[i])
  {
  }

  /** Reading the 32 digits of `u.hex` gives `u` back. */
  lemma FromHexHex(u: Uuid)
    ensures FromHex(Hex(u)) == Some(u)
  {
    var h := Hex(u);
    var r := FromHex(h);
    assert r.value == u by {
      forall i | 0 <= i < 32 ensures r.value[i] == u[i] {
        assert Text.HexValue(h[i]) == Some(u[i]);
        Text.HexValueLower(h[i]);
        Text.HexDigitValue(r.value[i]);
        assert Text.HexValue(Hex(r.value)[i]) == Some(r.value[i]);
        assert Text.ToLower(h)[i] == Text.ToLower(h[i..i + 1])[0];
      }
    }
  }

  /** `uuid.UUID(u.hex) == u`: the CHAR(32) form reads back to the same UUID. */
  lemma {:induction false} ParseHex(u: Uuid)
    ensures Parse(Hex(u)) == Some(u)
  {
    var h := Hex(u);
    HexHasNoSeparator(u);
    RemoveAllAbsent(h, "urn:");
    RemoveAllAbsent(h, "uuid:");
    RemoveAllAbsent(h, "-");
    assert Digits(h) == h;
    PlainDigits(h);
    FromHexHex(u);
  }

  lemma HyphenJoin(x: string, y: string)
    requires '-' !in x
    ensures RemoveAll(x + "-" + y, "-") == x + RemoveAll(y, "-")
  {
    assert x + "-" + y == x + ("-" + y);
    RemoveAllConcat(x, "-" + y, "-");
    RemoveAllAbsent(x, "-");
    assert ("-" + y)[1..] == y;
  }

  /** The 8-4-4-4-12 grouping of 32 characters, as `str(uuid)` writes it. */
  function Grouped(h: string): string
    requires |h| == 32
  {
    h[..8] + "-" + h[8..12] + "-" + h[12..16] + "-" + h[16..20] + "-" + h[20..]
  }

  lemma {:induction false} UngroupDigits(h: string)
    requires |h| == 32 && '-' !in h
    ensures RemoveAll(Grouped(h), "-") == h
  {
    var x1 := h[20..];
    var x2 := h[16..20] + "-" + x1;
    var x3 := h[12..16] + "-" + x2;
    var x4 := h[8..12] + "-" + x3;
    assert Grouped(h) == h[..8] + "-" + x4;
    RemoveAllAbsent(x1, "-");
    HyphenJoin(h[16..20], x1);
    HyphenJoin(h[12..16], x2);
    HyphenJoin(h[8..12], x3);
    HyphenJoin(h[..8], x4);
    assert h[..8] + (h[8..12] + (h[12..16] + (h[16..20] + x1))) == h;
  }

  /** Dropping the hyphens of the 8-4-4-4-12 form leaves the 32 hex digits. */
  lemma {:induction false} CanonicalDigits(u: Uuid)
    ensures Digits(Canonical(u)) == Hex(u)
  {
    var h := Hex(u);
    var c := Canonical(u);
    assert c == Grouped(h);
    HexHasNoSeparator(u);
    assert '-' !in h;
    assert forall i | 0 <= i < |c| :: c[i] != 'u' && (IsBrace(c[i]) ==> 0 < i < 35);
    RemoveAllAbsent(c, "urn:");
    RemoveAllAbsent(c, "uuid:");
    assert StripBraces(c) == c;
    UngroupDigits(h);
  }

  /** `uuid.UUID(str(u)) == u`: the hyphenated form reads back to the same UUID. */
  lemma {:induction false} ParseCanonical(u: Uuid)
    ensures Parse(Canonical(u)) == Some(u)
  {
    var h := Hex(u);
    CanonicalDigits(u);
    HexHasNoSeparator(u);
    RemoveAllAbsent(h, "urn:");
    RemoveAllAbsent(h, "uuid:");
    RemoveAllAbsent(h, "-");
    assert Digits(h) == h;
    ParseHex(u);
  }

  // ----- the column type -----

  /** The column type chosen for a database dialect. */
  datatype ColumnType = PgUuid | Char(width: nat)

  function LoadDialectImpl(dialect: string): (t: ColumnType)
    ensures t == PgUuid <==> dialect == "postgresql"
    ensures t != PgUuid ==> t == Char(32)
  {
    if dialect == "postgresql" then PgUuid else Char(32)
  }

  /** A Python value handed to or returned from the column. */
  datatype PyValue = PyNone | UuidValue(u: Uuid) | StrValue(s: string)

  /** `process_bind_param`: the value written to the database; `Failure` where `uuid.UUID` raises. */
  function BindParam(value: PyValue, dialect: string): (r: Result<Option<string>, string>)
    ensures value == PyNone ==> r == Success(None)
    ensures dialect == "postgresql" && value.UuidValue? ==> r == Success(Some(Canonical(value.u)))
    ensures dialect == "postgresql" && value.StrValue? ==> r == Success(Some(value.s))
    ensures dialect != "postgresql" && value.UuidValue? ==> r == Success(Some(Hex(value.u)))
    ensures dialect != "postgresql" && value.StrValue? ==>
      match Parse(value.s)
      case Some(u) => r == Success(Some(Hex(u)))
      case None => r.Failure?
  {
    match value
    case PyNone => Success(None)
    case UuidValue(u) => if dialect == "postgresql" then Success(Some(Canonical(u))) else Success(Some(Hex(u)))
    case StrValue(s) =>
      if dialect == "postgresql" then Success(Some(s))
      else
        match Parse(s)
        case Some(u) => Success(Some(Hex(u)))
        case None => Failure("badly formed hexadecimal UUID string")
  }

  /** `process_result_value`: the Python value read back; a UUID object is passed through. */
  function ResultValue(value: PyValue): (r: Result<Option<Uuid>, string>)
    ensures value == PyNone <==> r == Success(None)
    ensures value.UuidValue? ==> r == Success(Some(value.u))
    ensures value.StrValue? ==> (r.Success? <==> Parse(value.s).Some?) && (r.Success? ==> r.value == Parse(value.s))
  {
    match value
    case PyNone => Success(None)
    case UuidValue(u) => Success(Some(u))
    case StrValue(s) =>
      match Parse(s)
      case Some(u) => Success(Some(u))
      case None => Failure("badly formed hexadecimal UUID string")
  }

  /** Whatever a UUID is bound as, reading the stored text back yields the same UUID, on every dialect. */
  lemma {:induction false} BindThenRead(u: Uuid, dialect: string)
    ensures var b := BindParam(UuidValue(u), dialect);
      b.Success? && b.value.Some? && ResultValue(StrValue(b.value.value)) == Success(Some(u))
  {
    if dialect == "postgresql" {
      ParseCanonical(u);
    } else {
      ParseHex(u);
    }
  }

  /** On a CHAR(32) column a well-formed UUID string is stored exactly as the UUID itself would be, and fits the column. */
  lemma StringBindsLikeUuid(s: string, dialect: string)
    requires dialect != "postgresql" && Parse(s).Some?
    ensures BindParam(StrValue(s), dialect) == BindParam(UuidValue(Parse(s).value), dialect)
    ensures LoadDialectImpl(dialect) == Char(|BindParam(StrValue(s), dialect).value.value|)
  {
  }
}
