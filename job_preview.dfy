/**
 * The job preview beside the upload panel: fields that arrive as JSON text are decoded, the
 * company and location fall back to fixed texts, the lists accept both their wrapped and their
 * bare form, and long lists are cut to 5 or 15 entries. The job is the untyped record the
 * backend returned, so every field is a JSON value that may be missing (`None`).
 */
module JobPreview {
  import opened Wrappers
  import opened JsonData
  import opened Text

  const NoCompany := "Company Name Not Available"
  const NoLocation := "Location Not Specified"
  const ListLimit := 5
  const KeywordLimit := 15
  const NotAFunction := "slice(...).map is not a function"
  const ParseError := "SyntaxError: JSON.parse"

  /** `typeof x === 'string' ? JSON.parse(x) : x`; `parse` is `JSON.parse`, `None` when it throws. */
  function Decode(x: Option<Json>, parse: string -> Option<Json>): (r: Result<Option<Json>, string>)
    ensures x.Some? && x.value.JStr? ==> (r.Success? <==> parse(x.value.s).Some?)
    ensures x.Some? && x.value.JStr? && r.Success? ==> r.value == parse(x.value.s)
    ensures !(x.Some? && x.value.JStr?) ==> r == Success(x)
    ensures r.Failure? ==> r.error == ParseError
  {
    if x.Some? && x.value.JStr? then
      match parse(x.value.s)
      case None => Failure(ParseError)
      case Some(v) => Success(Some(v))
    else Success(x)
  }

  /**
   * `profile?.companyName || profile?.company_name || 'Company Name Not Available'`: the value
   * shown as the company, always truthy.
   */
  function CompanyName(profile: Option<Json>): (r: Json)
    ensures Truthy(Prop(profile, "companyName")) ==> r == Prop(profile, "companyName").value
    ensures !Truthy(Prop(profile, "companyName")) && Truthy(Prop(profile, "company_name")) ==> r == Prop(profile, "company_name").value
    ensures !Truthy(Prop(profile, "companyName")) && !Truthy(Prop(profile, "company_name")) ==> r == JStr(NoCompany)
    ensures JsTruthy(r)
  {
    Or(Prop(profile, "companyName"), Or(Prop(profile, "company_name"), Some(JStr(NoCompany)))).value
  }

  /** `x || ''` inside a template literal. */
  function TextOrEmpty(x: Option<Json>): string {
    if Truthy(x) then JsText(x.value) else ""
  }

  /**
   * The location text: city and country with ", " between them only when both are given;
   * "Location Not Specified" when there is no location at all.
   */
  function LocationText(location: Option<Json>): (r: string)
    ensures !Truthy(location) ==> r == NoLocation
    ensures Truthy(location) && Truthy(Prop(location, "city")) && Truthy(Prop(location, "country")) ==>
      r == JsText(Prop(location, "city").value) + ", " + JsText(Prop(location, "country").value)
    ensures Truthy(location) && !(Truthy(Prop(location, "city")) && Truthy(Prop(location, "country"))) ==>
      r == TextOrEmpty(Prop(location, "city")) + TextOrEmpty(Prop(location, "country"))
  {
    if !Truthy(location) then NoLocation
    else
      var city := Prop(location, "city");
      var country := Prop(location, "country");
      TextOrEmpty(city) + (if Truthy(city) && Truthy(country) then ", " else "") + TextOrEmpty(country)
  }

  /** `value?.key || value || []`: the list under its wrapper key, else the value itself, else nothing. */
  function Unwrapped(value: Option<Json>, key: string): (r: Json)
    ensures Truthy(Prop(value, key)) ==> r == Prop(value, key).value
    ensures !Truthy(Prop(value, key)) && Truthy(value) ==> r == value.value
    ensures !Truthy(value) ==> r == JArr([])
  {
    Or(Prop(value, key), Or(value, Some(JArr([])))).value
  }

  /** Qualifications try `required`, then `qualifications`, then the value itself. */
  function Qualifications(value: Option<Json>): (r: Json)
    ensures Truthy(Prop(value, "required")) ==> r == Prop(value, "required").value
    ensures !Truthy(Prop(value, "required")) ==> r == Unwrapped(value, "qualifications")
  {
    Or(Prop(value, "required"), Some(Unwrapped(value, "qualifications"))).value
  }

  /** A list as shown: its first entries and how many more there are. */
  datatype ListView = ListView(shown: seq<Json>, more: nat)

  /**
   * A list block: shown for a non-empty array, cut to `limit` entries with a count of the
   * rest; hidden for anything without a positive length. A non-empty string has a length but
   * no `map`, so rendering it throws.
   */
  function ListBlock(value: Json, limit: nat): (r: Result<Option<ListView>, string>)
    ensures value.JArr? && value.items != [] ==> r == Success(Some(ListView(Take(value.items, limit), Hidden(value.items, limit))))
    ensures value.JStr? && value.s != "" ==> r == Failure(NotAFunction)
    ensures r.Success? && r.value.Some? ==> value.JArr? && |r.value.value.shown| <= limit && |r.value.value.shown| + r.value.value.more == |value.items|
    ensures !((value.JArr? && value.items != []) || (value.JStr? && value.s != "")) ==> r == Success(None)
  {
    if value.JArr? && value.items != [] then Success(Some(ListView(Take(value.items, limit), Hidden(value.items, limit))))
    else if value.JStr? && value.s != "" then Failure(NotAFunction)
    else Success(None)
  }

  /**
   * The entries of a list as rendered, one `<li>` or badge each; the first entry that is or
   * holds an object throws.
   */
  function Entries(items: seq<Json>): (r: Result<seq<string>, string>)
    ensures r.Success? ==> |r.value| == |items|
  {
    if items == [] then Success([])
    else
      match JsxChild(items[0])
      case Failure(e) => Failure(e)
      case Success(t) =>
        match Entries(items[1..])
        case Failure(e) => Failure(e)
        case Success(ts) => Success([t] + ts)
  }

  /** Entries render exactly when none holds an object, each as that value's child text. */
  lemma {:induction false} EntriesOutcome(items: seq<Json>)
    ensures Entries(items).Success? <==> forall i | 0 <= i < |items| :: !HasObject(items[i])
    ensures Entries(items).Success? ==> forall i | 0 <= i < |items| :: JsxChild(items[i]) == Success(Entries(items).value[i])
    ensures Entries(items).Failure? ==> Entries(items).error == ObjectChild
  {
    if items != [] {
      JsxChildFails(items[0]);
      EntriesOutcome(items[1..]);
      assert forall i | 1 <= i < |items| :: items[1..][i - 1] == items[i];
    }
  }

  /** A rendered list: the text of each entry shown and how many more there are. */
  datatype ListText = ListText(entries: seq<string>, more: nat)

  /** A list block as rendered; a hidden block renders nothing and cannot throw. */
  function RenderList(b: Option<ListView>): (r: Result<Option<ListText>, string>)
    ensures b.None? ==> r == Success(None)
    ensures b.Some? ==> (r.Success? <==> forall i | 0 <= i < |b.value.shown| :: !HasObject(b.value.shown[i]))
    ensures b.Some? && r.Success? ==>
      r.value.Some? && |r.value.value.entries| == |b.value.shown| && r.value.value.more == b.value.more
      && forall i | 0 <= i < |b.value.shown| :: JsxChild(b.value.shown[i]) == Success(r.value.value.entries[i])
    ensures r.Failure? ==> r.error == ObjectChild
  {
    if b.None? then Success(None)
    else
      EntriesOutcome(b.value.shown);
      match Entries(b.value.shown)
      case Failure(e) => Failure(e)
      case Success(ts) => Success(Some(ListText(ts, b.value.more)))
  }

  /** `{x && <span>{x}</span>}`: a line shown only for a truthy value, holding the value as a child. */
  function Line(x: Option<Json>): (r: Result<Option<string>, string>)
    ensures !Truthy(x) ==> r == Success(None)
    ensures Truthy(x) ==> (r.Success? <==> !HasObject(x.value))
    ensures Truthy(x) && r.Success? ==> r.value.Some? && JsxChild(x.value) == Success(r.value.value)
    ensures r.Failure? ==> r.error == ObjectChild
  {
    if !Truthy(x) then Success(None)
    else
      JsxChildFails(x.value);
      match JsxChild(x.value)
      case Failure(e) => Failure(e)
      case Success(t) => Success(Some(t))
  }

  /** The five fields that may arrive as JSON text, decoded. */
  datatype Decoded = Decoded(
    profile: Option<Json>, location: Option<Json>, responsibilities: Option<Json>, qualifications: Option<Json>, keywords: Option<Json>)

  /** The five fields decoded in the order the component reads them; the first that is not valid JSON throws. */
  function DecodeFields(job: Option<Json>, parse: string -> Option<Json>): (r: Result<Decoded, string>)
    ensures r.Success? <==>
      Decode(Prop(job, "company_profile"), parse).Success? && Decode(Prop(job, "location"), parse).Success?
      && Decode(Prop(job, "key_responsibilities"), parse).Success? && Decode(Prop(job, "qualifications"), parse).Success?
      && Decode(Prop(job, "extracted_keywords"), parse).Success?
    ensures r.Success? ==> r.value == Decoded(
      Decode(Prop(job, "company_profile"), parse).value, Decode(Prop(job, "location"), parse).value,
      Decode(Prop(job, "key_responsibilities"), parse).value, Decode(Prop(job, "qualifications"), parse).value,
      Decode(Prop(job, "extracted_keywords"), parse).value)
    ensures r.Failure? ==> r.error == ParseError
  {
    var profile := Decode(Prop(job, "company_profile"), parse);
    var location := Decode(Prop(job, "location"), parse);
    var responsibilities := Decode(Prop(job, "key_responsibilities"), parse);
    var qualifications := Decode(Prop(job, "qualifications"), parse);
    var keywords := Decode(Prop(job, "extracted_keywords"), parse);
    if profile.Failure? then Failure(profile.error)
    else if location.Failure? then Failure(location.error)
    else if responsibilities.Failure? then Failure(responsibilities.error)
    else if qualifications.Failure? then Failure(qualifications.error)
    else if keywords.Failure? then Failure(keywords.error)
    else Success(Decoded(profile.value, location.value, responsibilities.value, qualifications.value, keywords.value))
  }

  /** The three list blocks: responsibilities, qualifications, keywords. */
  datatype Blocks = Blocks(responsibilities: Option<ListView>, qualifications: Option<ListView>, keywords: Option<ListView>)

  /** The three blocks in the order the component builds them; the first that is a non-empty string throws. */
  function ListBlocks(d: Decoded): (r: Result<Blocks, string>)
    ensures r.Success? <==>
      ListBlock(Unwrapped(d.responsibilities, "key_responsibilities"), ListLimit).Success?
      && ListBlock(Qualifications(d.qualifications), ListLimit).Success?
      && ListBlock(Unwrapped(d.keywords, "extracted_keywords"), KeywordLimit).Success?
    ensures r.Success? ==> r.value == Blocks(
      ListBlock(Unwrapped(d.responsibilities, "key_responsibilities"), ListLimit).value,
      ListBlock(Qualifications(d.qualifications), ListLimit).value,
      ListBlock(Unwrapped(d.keywords, "extracted_keywords"), KeywordLimit).value)
    ensures r.Failure? ==> r.error == NotAFunction
  {
    var responsibilities := ListBlock(Unwrapped(d.responsibilities, "key_responsibilities"), ListLimit);
    var qualifications := ListBlock(Qualifications(d.qualifications), ListLimit);
    var keywords := ListBlock(Unwrapped(d.keywords, "extracted_keywords"), KeywordLimit);
    if responsibilities.Failure? then Failure(responsibilities.error)
    else if qualifications.Failure? then Failure(qualifications.error)
    else if keywords.Failure? then Failure(keywords.error)
    else Success(Blocks(responsibilities.value, qualifications.value, keywords.value))
  }

  /** What the preview shows for a job. */
  datatype JobView = JobView(
    title: string, company: string, location: Option<string>, posted: Option<string>, employmentType: Option<string>,
    summary: Option<string>, responsibilities: Option<ListText>, qualifications: Option<ListText>, keywords: Option<ListText>)

  datatype Preview = Placeholder | Shown(view: JobView)

  /**
   * The rendered page, in document order: the title, the company, the location line when its
   * text is not empty, the posting date when given (`formatDate` is the browser's locale date
   * rendering), employment type, summary and the three lists. The first child that is or holds
   * an object throws.
   */
  function View(job: Option<Json>, d: Decoded, b: Blocks, formatDate: Json -> string): (r: Result<JobView, string>)
    ensures r.Success? <==>
      JsxChildOf(Prop(job, "job_title")).Success? && JsxChild(CompanyName(d.profile)).Success?
      && Line(Prop(job, "employment_type")).Success? && Line(Prop(job, "job_summary")).Success?
      && RenderList(b.responsibilities).Success? && RenderList(b.qualifications).Success? && RenderList(b.keywords).Success?
    ensures r.Success? ==>
      r.value.title == JsxChildOf(Prop(job, "job_title")).value
      && r.value.company == JsxChild(CompanyName(d.profile)).value
      && r.value.location == (if LocationText(d.location) != "" then Some(LocationText(d.location)) else None)
      && r.value.posted == (if Truthy(Prop(job, "date_posted")) then Some("Posted: " + formatDate(Prop(job, "date_posted").value)) else None)
      && r.value.employmentType == Line(Prop(job, "employment_type")).value
      && r.value.summary == Line(Prop(job, "job_summary")).value
      && r.value.responsibilities == RenderList(b.responsibilities).value
      && r.value.qualifications == RenderList(b.qualifications).value
      && r.value.keywords == RenderList(b.keywords).value
    ensures r.Failure? ==> r.error == ObjectChild
  {
    var title := JsxChildOf(Prop(job, "job_title"));
    var company := JsxChild(CompanyName(d.profile));
    var place := LocationText(d.location);
    var employment := Line(Prop(job, "employment_type"));
    var summary := Line(Prop(job, "job_summary"));
    var responsibilities := RenderList(b.responsibilities);
    var qualifications := RenderList(b.qualifications);
    var keywords := RenderList(b.keywords);
    JsxChildFails(CompanyName(d.profile));
    if title.Failure? then Failure(title.error)
    else if company.Failure? then Failure(company.error)
    else if employment.Failure? then Failure(employment.error)
    else if summary.Failure? then Failure(summary.error)
    else if responsibilities.Failure? then Failure(responsibilities.error)
    else if qualifications.Failure? then Failure(qualifications.error)
    else if keywords.Failure? then Failure(keywords.error)
    else
      Success(JobView(
        title.value, company.value,
        if place != "" then Some(place) else None,
        if Truthy(Prop(job, "date_posted")) then Some("Posted: " + formatDate(Prop(job, "date_posted").value)) else None,
        employment.value, summary.value, responsibilities.value, qualifications.value, keywords.value))
  }

  /**
   * The preview: the placeholder without a job; otherwise the fields are decoded (a text that is
   * not valid JSON throws), the list blocks built (a list that is a non-empty string throws) and
   * the page rendered (a child that is an object throws).
   */
  function Render(job: Option<Json>, parse: string -> Option<Json>, formatDate: Json -> string): (r: Result<Preview, string>)
    ensures !Truthy(job) ==> r == Success(Placeholder)
    ensures Truthy(job) && DecodeFields(job, parse).Failure? ==> r == Failure(ParseError)
    ensures Truthy(job) && DecodeFields(job, parse).Success? && ListBlocks(DecodeFields(job, parse).value).Failure? ==>
      r == Failure(NotAFunction)
    ensures Truthy(job) && DecodeFields(job, parse).Success? && ListBlocks(DecodeFields(job, parse).value).Success? ==>
      var v := View(job, DecodeFields(job, parse).value, ListBlocks(DecodeFields(job, parse).value).value, formatDate);
      (r.Success? <==> v.Success?) && (r.Success? ==> r.value == Shown(v.value)) && (r.Failure? ==> r.error == ObjectChild)
    ensures r.Success? && r.value.Shown? ==>
      var v := r.value.view;
      (v.responsibilities.Some? ==> |v.responsibilities.value.entries| <= ListLimit)
      && (v.qualifications.Some? ==> |v.qualifications.value.entries| <= ListLimit)
      && (v.keywords.Some? ==> |v.keywords.value.entries| <= KeywordLimit)
      && (v.location.Some? ==> v.location.value != "")
  {
    if !Truthy(job) then Success(Placeholder)
    else
      match DecodeFields(job, parse)
      case Failure(e) => Failure(e)
      case Success(d) =>
        match ListBlocks(d)
        case Failure(e) => Failure(e)
        case Success(b) =>
          match View(job, d, b, formatDate)
          case Failure(e) => Failure(e)
          case Success(v) => Success(Shown(v))
  }

  /**
   * A profile whose `companyName` is `true` shows an empty company, where `String(true)` would
   * read "true"; the rest of that job renders as defaults.
   */
  lemma CompanyTrueShownEmpty(parse: string -> Option<Json>, formatDate: Json -> string)
    ensures var job := JObj(map["company_profile" := JObj(map["companyName" := JBool(true)])]);
      Render(Some(job), parse, formatDate) == Success(Shown(JobView("", "", Some(NoLocation), None, None, None, None, None, None)))
    ensures JsText(JBool(true)) == "true"
  {
    var profile := JObj(map["companyName" := JBool(true)]);
    var job := JObj(map["company_profile" := profile]);
    assert Prop(Some(job), "company_profile") == Some(profile);
    assert Prop(Some(job), "location") == None;
    assert Prop(Some(job), "key_responsibilities") == None;
    assert Prop(Some(job), "qualifications") == None;
    assert Prop(Some(job), "extracted_keywords") == None;
    assert Prop(Some(job), "job_title") == None;
    assert Prop(Some(job), "date_posted") == None;
    assert Prop(Some(job), "employment_type") == None;
    assert Prop(Some(job), "job_summary") == None;
    assert CompanyName(Some(profile)) == JBool(true);
  }

  /** The backend's wrapped list and the bare list show the same entries. */
  lemma WrappedOrBare(items: seq<Json>, key: string)
    requires items != []
    ensures Unwrapped(Some(JObj(map[key := JArr(items)])), key) == JArr(items)
    ensures Unwrapped(Some(JArr(items)), key) == JArr(items)
  {
  }

  /** A list of more than `limit` entries shows `limit` of them and counts the rest. */
  lemma LongListCut(items: seq<Json>, limit: nat)
    requires |items| > limit
    ensures ListBlock(JArr(items), limit) == Success(Some(ListView(items[..limit], |items| - limit)))
  {
  }
}
