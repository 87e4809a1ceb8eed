/**
 * The resume picker: the user's resumes with their loading state, the name shown for each
 * resume, and the choice handed to the parent. Resumes are the untyped records the backend returns.
 */
module ResumeSelector {
  import opened Wrappers
  import opened JsonData
  import opened Text
  import opened Picker

  const Unnamed := "Unnamed Resume"
  const LoadFailed := "Failed to load resumes"

  /** The personal data of a resume's processed form, when there is one. */
  function PersonalData(resume: Json): Option<Json> {
    Prop(Prop(Some(resume), "processed_resume"), "personal_data")
  }

  /**
   * The name: `name`, else `full_name`, else "first last" when both are given, else the first
   * name, else "Unnamed Resume".
   */
  function Name(personal: Option<Json>): (r: string)
    ensures Truthy(Prop(personal, "name")) ==> r == JsText(Prop(personal, "name").value)
    ensures !Truthy(Prop(personal, "name")) && Truthy(Prop(personal, "full_name")) ==> r == JsText(Prop(personal, "full_name").value)
    ensures !Truthy(Prop(personal, "name")) && !Truthy(Prop(personal, "full_name"))
            && Truthy(Prop(personal, "firstName")) && Truthy(Prop(personal, "lastName")) ==>
      r == JsText(Prop(personal, "firstName").value) + " " + JsText(Prop(personal, "lastName").value)
    ensures !Truthy(Prop(personal, "name")) && !Truthy(Prop(personal, "full_name"))
            && Truthy(Prop(personal, "firstName")) && !Truthy(Prop(personal, "lastName")) ==>
      r == JsText(Prop(personal, "firstName").value)
    ensures !Truthy(Prop(personal, "name")) && !Truthy(Prop(personal, "full_name")) && !Truthy(Prop(personal, "firstName")) ==>
      r == Unnamed
  {
    JsText(NameValue(personal))
  }

  /**
   * The value the name expression evaluates to: `name`, `full_name` or the first name as they
   * are stored, the joined first and last name as text, or "Unnamed Resume"; always truthy.
   */
  function NameValue(personal: Option<Json>): (r: Json)
    ensures Truthy(Prop(personal, "name")) ==> r == Prop(personal, "name").value
    ensures !Truthy(Prop(personal, "name")) && Truthy(Prop(personal, "full_name")) ==> r == Prop(personal, "full_name").value
    ensures !Truthy(Prop(personal, "name")) && !Truthy(Prop(personal, "full_name"))
            && Truthy(Prop(personal, "firstName")) && !Truthy(Prop(personal, "lastName")) ==>
      r == Prop(personal, "firstName").value
    ensures JsTruthy(r)
  {
    var first := Prop(personal, "firstName");
    var last := Prop(personal, "lastName");
    var joined := if Truthy(first) && Truthy(last) then Some(JStr(JsText(first.value) + " " + JsText(last.value))) else first;
    assert Truthy(first) && Truthy(last) ==> Truthy(joined);
    Or(Prop(personal, "name"), Or(Prop(personal, "full_name"), Or(joined, Some(JStr(Unnamed))))).value
  }

  /** `getResumeDisplayText`: the name, followed by " (title)" when there is a title. */
  function DisplayText(resume: Json): (r: string)
    ensures var personal := PersonalData(resume);
      r == if Truthy(Prop(personal, "title")) then Name(personal) + " (" + JsText(Prop(personal, "title").value) + ")" else Name(personal)
  {
    var personal := PersonalData(resume);
    var title := Prop(personal, "title");
    if Truthy(title) then Name(personal) + " (" + JsText(title.value) + ")" else Name(personal)
  }

  /**
   * What `getResumeDisplayText` returns: the text "name (title)" when there is a title,
   * otherwise the name value itself, which the "currently selected" line renders as a JSX child.
   * Written out as text it is the display text.
   */
  function DisplayValue(resume: Json): (r: Json)
    ensures JsText(r) == DisplayText(resume)
    ensures Truthy(Prop(PersonalData(resume), "title")) ==> r == JStr(DisplayText(resume))
    ensures !Truthy(Prop(PersonalData(resume), "title")) ==> r == NameValue(PersonalData(resume))
  {
    if Truthy(Prop(PersonalData(resume), "title")) then JStr(DisplayText(resume)) else NameValue(PersonalData(resume))
  }

  /** `getResumeLabel`: the display text and the creation date (`date`, rendered by the browser's locale). */
  function OptionLabel(resume: Json, date: string): string {
    DisplayText(resume) + " - " + date
  }

  /** `loadResumes`: the fetched list, or the thrown error's message. */
  method LoadResumes(loader: Loader, fetched: Fetched)
    modifies loader
    ensures !loader.loading
    ensures fetched.Loaded? ==> loader.items == fetched.items && loader.error.None?
    ensures fetched.Thrown? ==>
      loader.items == old(loader.items) && loader.error == (if fetched.message.Some? then fetched.message else Some(LoadFailed))
  {
    loader.Finish(fetched, LoadFailed);
  }

  /**
   * `handleResumeChange`: the parent hears of a choice only for an id among the loaded resumes,
   * and is given the first loaded resume with that id.
   */
  function HandleResumeChange(resumes: seq<Json>, resumeId: string): (r: Option<(string, Json)>)
    ensures r.Some? <==> exists i | 0 <= i < |resumes| :: Prop(Some(resumes[i]), "resume_id") == Some(JStr(resumeId))
    ensures r.Some? ==> r.value.0 == resumeId && r.value.1 in resumes
    ensures r.Some? ==> Prop(Some(r.value.1), "resume_id") == Some(JStr(resumeId))
    ensures r.Some? ==> exists i | 0 <= i < |resumes| ::
      resumes[i] == r.value.1 && forall k | 0 <= k < i :: Prop(Some(resumes[k]), "resume_id") != Some(JStr(resumeId))
  {
    match FindById(resumes, "resume_id", resumeId)
    case None => None
    case Some(resume) => Some((resumeId, resume))
  }

  datatype View =
    | Loading(message: string)
    | ErrorView(message: string)
    | NoResumes(message: string)
    | Choice(current: Option<string>, options: seq<Json>, count: string)

  /**
   * The view: loading, then a truthy error, then "No resumes found", and otherwise every resume
   * as an option with the count. The "currently selected" text throws when the selected id is
   * not among the loaded resumes, or when the selected resume's display value holds an object.
   */
  function Render(loader: Loader, selectedResumeId: Option<string>): (r: Result<View, string>)
    reads loader
    ensures loader.loading ==> r == Success(Loading("Loading your resumes..."))
    ensures !loader.loading && Given(loader.error) ==> r == Success(ErrorView(loader.error.value))
    ensures r.Success? && r.value.NoResumes? <==> !loader.loading && !Given(loader.error) && loader.items == []
    ensures r.Failure? <==>
      !loader.loading && !Given(loader.error) && loader.items != [] && Given(selectedResumeId)
      && var found := FindById(loader.items, "resume_id", selectedResumeId.value);
      (found.None? || HasObject(DisplayValue(found.value)))
    ensures r.Failure? ==>
      var found := FindById(loader.items, "resume_id", selectedResumeId.value);
      found.Some? ==> r.error == ObjectChild
    ensures r.Success? && r.value.Choice? ==>
      r.value.options == loader.items && r.value.count == CountText(|loader.items|, "resume")
      && (r.value.current.Some? <==> Given(selectedResumeId))
    ensures r.Success? && r.value.Choice? && Given(selectedResumeId) ==>
      var found := FindById(loader.items, "resume_id", selectedResumeId.value);
      found.Some? && JsxChild(DisplayValue(found.value)) == Success(r.value.current.value)
  {
    if loader.loading then Success(Loading("Loading your resumes..."))
    else if Given(loader.error) then Success(ErrorView(loader.error.value))
    else if loader.items == [] then Success(NoResumes("No resumes found. Upload your first resume below."))
    else if Given(selectedResumeId) then
      match FindById(loader.items, "resume_id", selectedResumeId.value)
      case None => Failure("TypeError: Cannot read properties of undefined (reading 'processed_resume')")
      case Some(resume) =>
        JsxChildFails(DisplayValue(resume));
        match JsxChild(DisplayValue(resume))
        case Failure(e) => Failure(e)
        case Success(text) => Success(Choice(Some(text), loader.items, CountText(|loader.items|, "resume")))
    else Success(Choice(None, loader.items, CountText(|loader.items|, "resume")))
  }
}
