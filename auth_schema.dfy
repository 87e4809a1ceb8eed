/**
 * The authentication request and response bodies: which documents validate, and the
 * defaults filled in for fields a document leaves out.
 */
module AuthSchema {
  import opened Wrappers
  import opened JsonData
  import Text
  import UuidCodec

  datatype UserRegister = UserRegister(email: string, password: string, name: string)

  datatype UserLogin = UserLogin(email: string, password: string)

  datatype Token = Token(accessToken: string, tokenType: string)

  /** What a decoded access token says: its subject's email and user id, each possibly absent. */
  datatype TokenData = TokenData(email: Option<string>, userId: Option<UuidCodec.Uuid>)

  /** A user as the API shows it; the creation time is kept as the ISO text it is sent as. */
  datatype UserResponse = UserResponse(id: UuidCodec.Uuid, email: string, name: string, createdAt: string)

  datatype UserWithToken = UserWithToken(user: UserResponse, accessToken: string, tokenType: string)

  datatype AuthCheckResponse = AuthCheckResponse(authenticated: bool, user: Option<UserResponse>, message: Option<string>)

  const Bearer := "bearer"

  const MinPasswordLength := 6

  const MinNameLength := 1

  // ----- field readers -----

  /** An optional string field: absent or null is `None`. */
  function OptionalString(f: map<string, Json>, key: string): (r: Result<Option<string>, string>)
    ensures (key !in f || f[key] == JNull) ==> r == Success(None)
    ensures r.Success? && r.value.Some? ==> key in f && f[key] == JStr(r.value.value)
  {
    if key !in f || f[key] == JNull then Success(None)
    else if f[key].JStr? then Success(Some(f[key].s))
    else Failure(key + ": Input should be a valid string")
  }

  /** A string field with a default used when the key is absent. */
  function DefaultedString(f: map<string, Json>, key: string, default: string): (r: Result<string, string>)
    ensures key !in f ==> r == Success(default)
    ensures key in f ==> (r.Success? <==> f[key].JStr?)
  {
    if key !in f then Success(default)
    else if f[key].JStr? then Success(f[key].s)
    else Failure(key + ": Input should be a valid string")
  }

  /** The 32 digits around the hyphens of an 8-4-4-4-12 layout. */
  function Ungrouped(c: string): (g: string)
    requires |c| == 36
    ensures |g| == 32
  {
    c[..8] + c[9..13] + c[14..18] + c[19..23] + c[24..]
  }

  /** The 8-4-4-4-12 layout: hyphens at positions 8, 13, 18 and 23, hex digits of either case elsewhere. */
  function Hyphenated(c: string): (r: Option<UuidCodec.Uuid>)
    requires |c| == 36
  {
    if c[8] == '-' && c[13] == '-' && c[18] == '-' && c[23] == '-' then UuidCodec.FromHex(Ungrouped(c)) else None
  }

  /**
   * Pydantic's reading of a `UUID` field given as text: 32 hex digits, the hyphenated layout,
   * that layout in braces, or after a lower-case `urn:uuid:`; any other text is refused.
   */
  function PydanticUuid(s: string): (r: Option<UuidCodec.Uuid>)
  {
    if |s| == 32 then UuidCodec.FromHex(s)
    else if |s| == 36 then Hyphenated(s)
    else if |s| == 38 && s[0] == '{' && s[37] == '}' then Hyphenated(s[1..37])
    else if |s| == 45 && s[..9] == "urn:uuid:" then Hyphenated(s[9..])
    else None
  }

  function UuidField(f: map<string, Json>, key: string): (r: Result<UuidCodec.Uuid, string>)
    ensures r.Success? <==> key in f && f[key].JStr? && PydanticUuid(f[key].s).Some?
    ensures r.Success? ==> PydanticUuid(f[key].s) == Some(r.value)
  {
    if key in f && f[key].JStr? && PydanticUuid(f[key].s).Some? then Success(PydanticUuid(f[key].s).value)
    else Failure(key + ": Input should be a valid UUID")
  }

  // ----- pydantic's UUID text against Python's `uuid.UUID` -----

  /** A hyphenated layout is the grouping of its digits, and holds nothing but hex digits and hyphens. */
  lemma HyphenatedLayout(c: string)
    requires |c| == 36 && Hyphenated(c).Some?
    ensures c == UuidCodec.Grouped(Ungrouped(c))
    ensures forall i | 0 <= i < 32 :: Text.HexValue(Ungrouped(c)[i]).Some?
    ensures forall i | 0 <= i < 36 :: c[i] == '-' || Text.HexValue(c[i]).Some?
  {
    var g := Ungrouped(c);
    assert g[..8] == c[..8] && g[8..12] == c[9..13] && g[12..16] == c[14..18] && g[16..20] == c[19..23] && g[20..] == c[24..];
    assert c == c[..8] + "-" + c[9..13] + "-" + c[14..18] + "-" + c[19..23] + "-" + c[24..];
    forall i | 0 <= i < 36 ensures c[i] == '-' || Text.HexValue(c[i]).Some? {
      if i < 8 { assert c[i] == g[i]; }
      else if 8 < i < 13 { assert c[i] == g[i - 1]; }
      else if 13 < i < 18 { assert c[i] == g[i - 2]; }
      else if 18 < i < 23 { assert c[i] == g[i - 3]; }
      else if 23 < i { assert c[i] == g[i - 4]; }
    }
  }

  /** Python's clean-up of a hyphenated layout leaves exactly its digits. */
  lemma HyphenatedDigits(c: string)
    requires |c| == 36 && Hyphenated(c).Some?
    ensures forall i | 0 <= i < 36 :: c[i] != 'u' && !UuidCodec.IsBrace(c[i])
    ensures UuidCodec.RemoveAll(c, "urn:") == c && UuidCodec.RemoveAll(c, "uuid:") == c
    ensures UuidCodec.StripBraces(c) == c && UuidCodec.RemoveAll(c, "-") == Ungrouped(c)
    ensures UuidCodec.Digits(c) == Ungrouped(c)
  {
    HyphenatedLayout(c);
    var g := Ungrouped(c);
    assert forall i | 0 <= i < 36 :: c[i] != 'u' && !UuidCodec.IsBrace(c[i]);
    UuidCodec.RemoveAllAbsent(c, "urn:");
    UuidCodec.RemoveAllAbsent(c, "uuid:");
    assert UuidCodec.StripBraces(c) == c;
    assert forall i | 0 <= i < 32 :: g[i] != '-';
    UuidCodec.UngroupDigits(g);
  }

  /** Python's clean-up of a braced layout leaves the same digits as the bare layout. */
  lemma BracedDigits(c: string)
    requires |c| == 36 && Hyphenated(c).Some?
    ensures UuidCodec.Digits("{" + c + "}") == Ungrouped(c)
  {
    HyphenatedDigits(c);
    var b := "{" + c + "}";
    assert forall i | 0 <= i < 38 :: b[i] != 'u' by {
      forall i | 0 <= i < 38 ensures b[i] != 'u' {
        if 0 < i < 37 {
          assert b[i] == c[i - 1];
        }
      }
    }
    UuidCodec.RemoveAllAbsent(b, "urn:");
    UuidCodec.RemoveAllAbsent(b, "uuid:");
    StripOuterBraces(c);
    UuidCodec.DigitsSteps(b, b, b, c, Ungrouped(c));
  }

  lemma StripOuterBraces(c: string)
    requires |c| == 36 && !UuidCodec.IsBrace(c[0]) && !UuidCodec.IsBrace(c[35])
    ensures UuidCodec.StripBraces("{" + c + "}") == c
  {
    var b := "{" + c + "}";
    assert b[1..] == c + "}";
    assert (c + "}")[..36] == c;
    assert UuidCodec.StripBraces(c) == c;
    assert UuidCodec.StripBraces(c + "}") == UuidCodec.StripBraces(c);
    assert UuidCodec.StripBraces(b) == UuidCodec.StripBraces(c + "}");
  }

  /** Python's clean-up of a `urn:uuid:` layout leaves the same digits as the bare layout. */
  lemma UrnDigits(c: string)
    requires |c| == 36 && Hyphenated(c).Some?
    ensures UuidCodec.Digits("urn:uuid:" + c) == Ungrouped(c)
  {
    HyphenatedDigits(c);
    UrnSteps(c);
    assert "urn:uuid:" + c == "urn:" + ("uuid:" + c);
  }

  /** The clean-up steps on `urn:uuid:` and text without a `u` or a brace at its ends. */
  lemma UrnSteps(c: string)
    requires forall i | 0 <= i < |c| :: c[i] != 'u'
    requires UuidCodec.StripBraces(c) == c
    ensures UuidCodec.Digits("urn:" + ("uuid:" + c)) == UuidCodec.RemoveAll(c, "-")
  {
    var t := "uuid:" + c;
    UuidPrefixDropped(c);
    UuidCodec.RemoveAllHead("urn:", t);
    UuidCodec.DigitsSteps("urn:" + t, t, c, c, UuidCodec.RemoveAll(c, "-"));
  }

  /** Python drops a leading `uuid:` from text without any other `u`, and finds no `urn:` in it. */
  lemma UuidPrefixDropped(c: string)
    requires forall i | 0 <= i < |c| :: c[i] != 'u'
    ensures UuidCodec.RemoveAll("uuid:" + c, "urn:") == "uuid:" + c
    ensures UuidCodec.RemoveAll("uuid:" + c, "uuid:") == c
  {
    var t := "uuid:" + c;
    assert forall i | 0 <= i < |t| - 1 :: !(t[i] == 'u' && t[i + 1] == 'r') by {
      forall i | 0 <= i < |t| - 1 ensures !(t[i] == 'u' && t[i + 1] == 'r') {
        if i >= 5 {
          assert t[i] == c[i - 5];
        }
      }
    }
    UuidCodec.RemoveAllNoUrn(t);
    UuidCodec.RemoveAllHead("uuid:", c);
    UuidCodec.RemoveAllAbsent(c, "uuid:");
  }

  /** Text pydantic accepts as a UUID, Python's `uuid.UUID` accepts too, with the same value. */
  lemma {:induction false} PydanticWithinPython(s: string)
    requires PydanticUuid(s).Some?
    ensures UuidCodec.Parse(s) == PydanticUuid(s)
  {
    if |s| == 32 {
      assert forall i | 0 <= i < 32 :: s[i] != 'u' && s[i] != '-' && !UuidCodec.IsBrace(s[i]) by {
        forall i | 0 <= i < 32 ensures s[i] != 'u' && s[i] != '-' && !UuidCodec.IsBrace(s[i]) {
          assert Text.HexValue(s[i]).Some?;
        }
      }
      UuidCodec.RemoveAllAbsent(s, "urn:");
      UuidCodec.RemoveAllAbsent(s, "uuid:");
      UuidCodec.RemoveAllAbsent(s, "-");
      assert UuidCodec.Digits(s) == s;
      UuidCodec.PlainDigits(s);
    } else if |s| == 36 {
      HyphenatedDigits(s);
      HyphenatedLayout(s);
      UuidCodec.PlainDigits(s);
    } else if |s| == 38 {
      var c := s[1..37];
      assert s == "{" + c + "}";
      BracedDigits(c);
      HyphenatedLayout(c);
      UuidCodec.PlainDigits(s);
    } else {
      var c := s[9..];
      assert s == "urn:uuid:" + c;
      UrnDigits(c);
      HyphenatedLayout(c);
      UuidCodec.PlainDigits(s);
    }
  }

  /** `str(u)` is read back by pydantic as `u`. */
  lemma PydanticCanonical(u: UuidCodec.Uuid)
    ensures PydanticUuid(UuidCodec.Canonical(u)) == Some(u)
  {
    var h := UuidCodec.Hex(u);
    var c := UuidCodec.Canonical(u);
    assert c == h[..8] + "-" + h[8..12] + "-" + h[12..16] + "-" + h[16..20] + "-" + h[20..];
    assert c[..8] == h[..8] && c[9..13] == h[8..12] && c[14..18] == h[12..16] && c[19..23] == h[16..20] && c[24..] == h[20..];
    assert h == h[..8] + h[8..12] + h[12..16] + h[16..20] + h[20..];
    UuidCodec.FromHexHex(u);
  }

  /** Python drops a bare `uuid:` prefix before reading the 32 digits. */
  lemma BarePrefixDigits(h: string)
    requires |h| == 32 && forall i | 0 <= i < 32 :: Text.HexValue(h[i]).Some?
    ensures UuidCodec.Parse("uuid:" + h) == UuidCodec.FromHex(h)
  {
    var s := "uuid:" + h;
    assert forall i | 0 <= i < 32 :: h[i] != 'u' && h[i] != '-' && !UuidCodec.IsBrace(h[i]) by {
      forall i | 0 <= i < 32 ensures h[i] != 'u' && h[i] != '-' && !UuidCodec.IsBrace(h[i]) {
        assert Text.HexValue(h[i]).Some?;
      }
    }
    UuidPrefixDropped(h);
    UuidCodec.RemoveAllAbsent(h, "-");
    assert UuidCodec.StripBraces(h) == h;
    UuidCodec.DigitsSteps(s, s, h, h, h);
    UuidCodec.PlainDigits(s);
  }

  lemma NoPydanticLayout(s: string)
    requires |s| == 37
    ensures PydanticUuid(s).None?
  {
  }

  /**
   * Pydantic is stricter than `uuid.UUID`: a bare `uuid:` prefix, which Python drops, makes
   * pydantic refuse the text.
   */
  lemma BarePrefixRefused(u: UuidCodec.Uuid)
    ensures UuidCodec.Parse("uuid:" + UuidCodec.Hex(u)) == Some(u)
    ensures PydanticUuid("uuid:" + UuidCodec.Hex(u)).None?
  {
    var h := UuidCodec.Hex(u);
    BarePrefixDigits(h);
    UuidCodec.FromHexHex(u);
    NoPydanticLayout("uuid:" + h);
  }

  // ----- request bodies -----

  /**
   * `UserRegister`: an email the validator accepts, kept in the normalised form it returns (the
   * `normalizeEmail` parameter: `None` for a refused address), a password of at least 6
   * characters and a non-empty name.
   */
  function ParseRegister(j: Json, normalizeEmail: string -> Option<string>): (r: Result<UserRegister, string>)
    ensures r.Success? <==>
      j.JObj? && StringField(j.fields, "email").Success? && normalizeEmail(j.fields["email"].s).Some?
      && StringField(j.fields, "password").Success? && |j.fields["password"].s| >= MinPasswordLength
      && StringField(j.fields, "name").Success? && |j.fields["name"].s| >= MinNameLength
    ensures r.Success? ==>
      r.value == UserRegister(normalizeEmail(j.fields["email"].s).value, j.fields["password"].s, j.fields["name"].s)
  {
    if !j.JObj? then Failure("Input should be a valid dictionary")
    else
      var f := j.fields;
      match (StringField(f, "email"), StringField(f, "password"), StringField(f, "name"))
      case (Success(email), Success(password), Success(name)) =>
        if normalizeEmail(email).None? then Failure("email: value is not a valid email address")
        else if |password| < MinPasswordLength then Failure("password: String should have at least 6 characters")
        else if |name| < MinNameLength then Failure("name: String should have at least 1 character")
        else Success(UserRegister(normalizeEmail(email).value, password, name))
      case (Failure(e), _, _) => Failure(e)
      case (_, Failure(e), _) => Failure(e)
      case (_, _, Failure(e)) => Failure(e)
  }

  /** `UserLogin`: an email the validator accepts, normalised, and any password string, the empty one included. */
  function ParseLogin(j: Json, normalizeEmail: string -> Option<string>): (r: Result<UserLogin, string>)
    ensures r.Success? <==>
      j.JObj? && StringField(j.fields, "email").Success? && normalizeEmail(j.fields["email"].s).Some?
      && StringField(j.fields, "password").Success?
    ensures r.Success? ==> r.value == UserLogin(normalizeEmail(j.fields["email"].s).value, j.fields["password"].s)
  {
    if !j.JObj? then Failure("Input should be a valid dictionary")
    else
      var f := j.fields;
      match (StringField(f, "email"), StringField(f, "password"))
      case (Success(email), Success(password)) =>
        if normalizeEmail(email).Some? then Success(UserLogin(normalizeEmail(email).value, password))
        else Failure("email: value is not a valid email address")
      case (Failure(e), _) => Failure(e)
      case (_, Failure(e)) => Failure(e)
  }

  /**
   * A registration is refused for a password any login would accept when it is shorter than 6
   * characters; both bodies carry the same normalised email.
   */
  lemma RegisterStricterThanLogin(email: string, password: string, name: string, normalizeEmail: string -> Option<string>)
    requires normalizeEmail(email).Some? && |name| >= 1
    ensures var body := JObj(map["email" := JStr(email), "password" := JStr(password), "name" := JStr(name)]);
      ParseLogin(body, normalizeEmail) == Success(UserLogin(normalizeEmail(email).value, password))
      && (ParseRegister(body, normalizeEmail).Success? <==> |password| >= 6)
      && (ParseRegister(body, normalizeEmail).Success? ==> ParseRegister(body, normalizeEmail).value.email == normalizeEmail(email).value)
  {
    var body := JObj(map["email" := JStr(email), "password" := JStr(password), "name" := JStr(name)]);
    assert StringField(body.fields, "email") == Success(email);
    assert StringField(body.fields, "password") == Success(password);
    assert StringField(body.fields, "name") == Success(name);
  }

  // ----- response bodies -----

  /** `Token`: a required `access_token` string; `token_type` defaults to "bearer". */
  function ParseToken(j: Json): (r: Result<Token, string>)
    ensures j.JObj? && "token_type" !in j.fields && r.Success? ==> r.value.tokenType == Bearer
    ensures r.Success? <==> j.JObj? && StringField(j.fields, "access_token").Success? && DefaultedString(j.fields, "token_type", Bearer).Success?
    ensures r.Success? ==>
      j.fields["access_token"] == JStr(r.value.accessToken)
      && r.value.tokenType == DefaultedString(j.fields, "token_type", Bearer).value
  {
    if !j.JObj? then Failure("Input should be a valid dictionary")
    else
      match (StringField(j.fields, "access_token"), DefaultedString(j.fields, "token_type", Bearer))
      case (Success(t), Success(tt)) => Success(Token(t, tt))
      case (Failure(e), _) => Failure(e)
      case (_, Failure(e)) => Failure(e)
  }

  /**
   * `TokenData`: both fields default to `None`; a `user_id` that is present and not null must be
   * text pydantic reads as a UUID.
   */
  function ParseTokenData(j: Json): (r: Result<TokenData, string>)
    ensures j == JObj(map[]) ==> r == Success(TokenData(None, None))
    ensures r.Success? <==>
      j.JObj? && OptionalString(j.fields, "email").Success?
      && ("user_id" !in j.fields || j.fields["user_id"] == JNull || UuidField(j.fields, "user_id").Success?)
    ensures r.Success? ==> r.value.email == OptionalString(j.fields, "email").value
    ensures r.Success? ==> (r.value.userId.None? <==> "user_id" !in j.fields || j.fields["user_id"] == JNull)
    ensures r.Success? && r.value.userId.Some? ==> r.value.userId == Some(UuidField(j.fields, "user_id").value)
  {
    if !j.JObj? then Failure("Input should be a valid dictionary")
    else
      var f := j.fields;
      var email := OptionalString(f, "email");
      if email.Failure? then Failure(email.error)
      else if "user_id" !in f || f["user_id"] == JNull then Success(TokenData(email.value, None))
      else
        match UuidField(f, "user_id")
        case Success(u) => Success(TokenData(email.value, Some(u)))
        case Failure(e) => Failure(e)
  }

  /**
   * `UserResponse`: an id pydantic reads as a UUID and three text fields; the creation time is
   * kept as its text.
   */
  function ParseUserResponse(j: Json): (r: Result<UserResponse, string>)
    ensures r.Success? <==>
      j.JObj? && UuidField(j.fields, "id").Success? && StringField(j.fields, "email").Success?
      && StringField(j.fields, "name").Success? && StringField(j.fields, "created_at").Success?
    ensures r.Success? ==>
      PydanticUuid(j.fields["id"].s) == Some(r.value.id) && j.fields["email"] == JStr(r.value.email)
      && j.fields["name"] == JStr(r.value.name) && j.fields["created_at"] == JStr(r.value.createdAt)
  {
    if !j.JObj? then Failure("Input should be a valid dictionary")
    else
      var f := j.fields;
      match (UuidField(f, "id"), StringField(f, "email"), StringField(f, "name"), StringField(f, "created_at"))
      case (Success(id), Success(email), Success(name), Success(createdAt)) => Success(UserResponse(id, email, name, createdAt))
      case _ => Failure("Input should be a valid user")
  }

  /** `UserWithToken`: a required user response and `access_token`; `token_type` defaults to "bearer". */
  function ParseUserWithToken(j: Json): (r: Result<UserWithToken, string>)
    ensures j.JObj? && "token_type" !in j.fields && r.Success? ==> r.value.tokenType == Bearer
    ensures r.Success? <==>
      j.JObj? && "user" in j.fields && ParseUserResponse(j.fields["user"]).Success?
      && StringField(j.fields, "access_token").Success? && DefaultedString(j.fields, "token_type", Bearer).Success?
    ensures r.Success? ==>
      r.value.user == ParseUserResponse(j.fields["user"]).value
      && j.fields["access_token"] == JStr(r.value.accessToken)
      && r.value.tokenType == DefaultedString(j.fields, "token_type", Bearer).value
  {
    if !j.JObj? then Failure("Input should be a valid dictionary")
    else
      var f := j.fields;
      if "user" !in f then Failure("user: Field required")
      else
        match (ParseUserResponse(f["user"]), StringField(f, "access_token"), DefaultedString(f, "token_type", Bearer))
        case (Success(u), Success(t), Success(tt)) => Success(UserWithToken(u, t, tt))
        case _ => Failure("Input should be a valid token response")
  }

  /**
   * `AuthCheckResponse`: only `authenticated` is required, read as pydantic's lax boolean;
   * `user` and `message` default to `None`.
   */
  function ParseAuthCheck(j: Json): (r: Result<AuthCheckResponse, string>)
    ensures j.JObj? && j.fields == map["authenticated" := JBool(false)] ==> r == Success(AuthCheckResponse(false, None, None))
    ensures j.JObj? && ("authenticated" !in j.fields || LaxBool(j.fields["authenticated"]).None?) ==> r.Failure?
    ensures r.Success? ==> j.JObj? && "authenticated" in j.fields && LaxBool(j.fields["authenticated"]) == Some(r.value.authenticated)
    ensures r.Success? ==> (r.value.message.None? <==> "message" !in j.fields || j.fields["message"] == JNull)
    ensures r.Success? ==> (r.value.user.None? <==> "user" !in j.fields || j.fields["user"] == JNull)
  {
    if !j.JObj? then Failure("Input should be a valid dictionary")
    else
      var f := j.fields;
      if "authenticated" !in f || LaxBool(f["authenticated"]).None? then Failure("authenticated: Input should be a valid boolean")
      else
        var message := OptionalString(f, "message");
        var user: Result<Option<UserResponse>, string> :=
          if "user" !in f || f["user"] == JNull then Success(None)
          else match ParseUserResponse(f["user"]) {
            case Success(u) => Success(Some(u))
            case Failure(e) => Failure(e)
          };
        if message.Failure? then Failure(message.error)
        else if user.Failure? then Failure(user.error)
        else Success(AuthCheckResponse(LaxBool(f["authenticated"]).value, user.value, message.value))
  }

  // ----- serialisation of the responses the routers build -----

  function UserResponseToJson(u: UserResponse): Json {
    JObj(map["id" := JStr(UuidCodec.Canonical(u.id)), "email" := JStr(u.email), "name" := JStr(u.name),
             "created_at" := JStr(u.createdAt)])
  }

  /** A user response survives serialisation and validation unchanged. */
  lemma UserResponseRoundTrip(u: UserResponse)
    ensures ParseUserResponse(UserResponseToJson(u)) == Success(u)
  {
    PydanticCanonical(u.id);
    var f := UserResponseToJson(u).fields;
    assert UuidField(f, "id") == Success(u.id);
  }

  function TokenToJson(t: Token): Json {
    JObj(map["access_token" := JStr(t.accessToken), "token_type" := JStr(t.tokenType)])
  }

  /** A token response survives serialisation and validation unchanged. */
  lemma TokenRoundTrip(t: Token)
    ensures ParseToken(TokenToJson(t)) == Success(t)
  {
    var f := TokenToJson(t).fields;
    assert StringField(f, "access_token") == Success(t.accessToken);
  }

  /** Token data written with null for an absent field and the canonical text for an id. */
  function TokenDataToJson(d: TokenData): Json {
    JObj(map["email" := (if d.email.Some? then JStr(d.email.value) else JNull),
             "user_id" := (if d.userId.Some? then JStr(UuidCodec.Canonical(d.userId.value)) else JNull)])
  }

  /** Token data survives serialisation and validation unchanged. */
  lemma TokenDataRoundTrip(d: TokenData)
    ensures ParseTokenData(TokenDataToJson(d)) == Success(d)
  {
    if d.userId.Some? {
      PydanticCanonical(d.userId.value);
      assert UuidField(TokenDataToJson(d).fields, "user_id") == Success(d.userId.value);
    }
  }

  /** The body register and login answer with: the user response, the token and its type. */
  function UserWithTokenToJson(w: UserWithToken): Json {
    JObj(map["user" := UserResponseToJson(w.user), "access_token" := JStr(w.accessToken), "token_type" := JStr(w.tokenType)])
  }

  /** A user-with-token response survives serialisation and validation unchanged. */
  lemma UserWithTokenRoundTrip(w: UserWithToken)
    ensures ParseUserWithToken(UserWithTokenToJson(w)) == Success(w)
  {
    UserResponseRoundTrip(w.user);
    var f := UserWithTokenToJson(w).fields;
    assert StringField(f, "access_token") == Success(w.accessToken);
  }

  /** The guest answer of the check endpoint, with the user left out, reads back with `user` defaulted. */
  lemma GuestCheckDefaults(message: string)
    ensures ParseAuthCheck(JObj(map["authenticated" := JBool(false), "message" := JStr(message)]))
      == Success(AuthCheckResponse(false, None, Some(message)))
  {
  }
}
