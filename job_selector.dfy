/**
 * The job picker: where it loads jobs from, the automatic choice of a lone job, the jobs
 * already used elsewhere that it hides, and the text of each option. Jobs are the untyped
 * records the backend returns.
 */
module JobSelector {
  import opened Wrappers
  import opened JsonData
  import opened Picker

  const Untitled := "Untitled Job"
  const LoadFailed := "Failed to load jobs"
  const AllUsed := "All jobs have been used. Add a new job description below."

  /** Where the jobs come from. */
  datatype Source = AllUserJobs | ResumeJobs(resumeId: string) | NoSource

  /** All of the user's jobs when asked for, else the resume's jobs when a resume is given, else none. */
  function SourceOf(fetchAllUserJobs: bool, resumeId: Option<string>): (s: Source)
    ensures fetchAllUserJobs ==> s == AllUserJobs
    ensures !fetchAllUserJobs && resumeId.Some? && resumeId.value != "" ==> s == ResumeJobs(resumeId.value)
    ensures !fetchAllUserJobs && !(resumeId.Some? && resumeId.value != "") ==> s == NoSource
  {
    if fetchAllUserJobs then AllUserJobs
    else if resumeId.Some? && resumeId.value != "" then ResumeJobs(resumeId.value)
    else NoSource
  }

  /** A job's id as the selector compares it. */
  function JobId(job: Json): Option<Json> {
    Prop(Some(job), "job_id")
  }

  /**
   * `loadJobs`: with no source the list is empty and nothing is fetched; otherwise `fetched`
   * is what the chosen fetch returned. A lone loaded job is chosen automatically, unless a job
   * is already selected; the choice is handed to the parent as (job id, job).
   */
  method LoadJobs(loader: Loader, fetchAllUserJobs: bool, resumeId: Option<string>, selectedJobId: Option<string>,
                  fetched: Fetched) returns (source: Source, autoSelected: Option<(Option<Json>, Json)>)
    modifies loader
    ensures source == SourceOf(fetchAllUserJobs, resumeId)
    ensures !loader.loading
    ensures source.NoSource? ==> loader.items == [] && loader.error.None?
    ensures !source.NoSource? && fetched.Loaded? ==> loader.items == fetched.items && loader.error.None?
    ensures !source.NoSource? && fetched.Thrown? ==>
      loader.items == old(loader.items) && loader.error == (if fetched.message.Some? then fetched.message else Some(LoadFailed))
    ensures autoSelected.Some? <==>
      (source.NoSource? || fetched.Loaded?) && |loader.items| == 1 && !(selectedJobId.Some? && selectedJobId.value != "")
    ensures autoSelected.Some? ==> autoSelected.value == (JobId(loader.items[0]), loader.items[0])
  {
    source := SourceOf(fetchAllUserJobs, resumeId);
    var outcome := if source.NoSource? then Loaded([]) else fetched;
    loader.Finish(outcome, LoadFailed);
    if outcome.Loaded? && |outcome.items| == 1 && !(selectedJobId.Some? && selectedJobId.value != "") {
      autoSelected := Some((JobId(outcome.items[0]), outcome.items[0]));
    } else {
      autoSelected := None;
    }
  }

  /** `handleJobChange`: the parent hears of a choice only for an id among the loaded jobs, and gets the first job with it. */
  function HandleJobChange(jobs: seq<Json>, jobId: string): (r: Option<(string, Json)>)
    ensures r.Some? <==> exists i | 0 <= i < |jobs| :: JobId(jobs[i]) == Some(JStr(jobId))
    ensures r.Some? ==> r.value.0 == jobId && r.value.1 in jobs && JobId(r.value.1) == Some(JStr(jobId))
    ensures r.Some? ==> exists i | 0 <= i < |jobs| ::
      jobs[i] == r.value.1 && forall k | 0 <= k < i :: JobId(jobs[k]) != Some(JStr(jobId))
  {
    match FindById(jobs, "job_id", jobId)
    case None => None
    case Some(job) => Some((jobId, job))
  }

  /** Whether `excludeJobIds.includes(job.job_id)`. */
  predicate Excluded(job: Json, excludeJobIds: seq<string>) {
    exists k | 0 <= k < |excludeJobIds| :: JobId(job) == Some(JStr(excludeJobIds[k]))
  }

  /** The jobs offered: the loaded ones not excluded, in their loaded order. */
  function Available(jobs: seq<Json>, excludeJobIds: seq<string>): (r: seq<Json>)
    ensures |r| <= |jobs|
    ensures forall j :: j in r <==> j in jobs && !Excluded(j, excludeJobIds)
  {
    if jobs == [] then []
    else
      var rest := Available(jobs[1..], excludeJobIds);
      assert forall j :: j in jobs <==> j == jobs[0] || j in jobs[1..];
      if Excluded(jobs[0], excludeJobIds) then rest else [jobs[0]] + rest
  }

  /** Filtering keeps the loaded order: the offered jobs are a subsequence of the loaded ones. */
  lemma {:induction false} AvailableKeepsOrder(jobs: seq<Json>, excludeJobIds: seq<string>, extra: Json)
    ensures Available(jobs + [extra], excludeJobIds) ==
      Available(jobs, excludeJobIds) + (if Excluded(extra, excludeJobIds) then [] else [extra])
  {
    if jobs != [] {
      assert (jobs + [extra])[1..] == jobs[1..] + [extra];
      AvailableKeepsOrder(jobs[1..], excludeJobIds, extra);
    } else {
      assert (jobs + [extra])[1..] == [];
    }
  }

  /** With nothing excluded every loaded job is offered, in order. */
  lemma {:induction false} NothingExcluded(jobs: seq<Json>)
    ensures Available(jobs, []) == jobs
  {
    if jobs != [] {
      NothingExcluded(jobs[1..]);
    }
  }

  /**
   * `getJobDisplayText`: the processed title or "Untitled Job", followed by " at " and the
   * company when there is one; the company is the profile's `company_name`, else the profile itself.
   */
  function DisplayText(job: Json): (r: string)
    ensures var processed := Prop(Some(job), "processed_job");
      var company := Or(Prop(Prop(processed, "company_profile"), "company_name"), Prop(processed, "company_profile"));
      var title := if Truthy(Prop(processed, "job_title")) then JsText(Prop(processed, "job_title").value) else Untitled;
      r == if Truthy(company) then title + " at " + JsText(company.value) else title
  {
    var processed := Prop(Some(job), "processed_job");
    var title := JsText(Or(Prop(processed, "job_title"), Some(JStr(Untitled))).value);
    var company := Or(Prop(Prop(processed, "company_profile"), "company_name"), Or(Prop(processed, "company_profile"), Some(JStr(""))));
    if JsTruthy(company.value) then title + " at " + JsText(company.value) else title
  }

  /**
   * What `getJobDisplayText` returns: the text "title at company" when there is a company,
   * otherwise the title value itself (or "Untitled Job"), which the "currently selected" line
   * renders as a JSX child. Written out as text it is the display text.
   */
  function DisplayValue(job: Json): (r: Json)
    ensures JsText(r) == DisplayText(job)
    ensures var processed := Prop(Some(job), "processed_job");
      var company := Or(Prop(Prop(processed, "company_profile"), "company_name"), Prop(processed, "company_profile"));
      (Truthy(company) ==> r == JStr(DisplayText(job)))
      && (!Truthy(company) ==> r == Or(Prop(processed, "job_title"), Some(JStr(Untitled))).value)
  {
    var processed := Prop(Some(job), "processed_job");
    var company := Or(Prop(Prop(processed, "company_profile"), "company_name"), Prop(processed, "company_profile"));
    if Truthy(company) then JStr(DisplayText(job)) else Or(Prop(processed, "job_title"), Some(JStr(Untitled))).value
  }

  /** An option's label: the display text and the job's creation date (`date`, rendered by the browser's locale). */
  function OptionLabel(job: Json, date: string): string {
    DisplayText(job) + " - " + date
  }

  /** What the selector shows. */
  datatype View =
    | Loading(message: string)
    | ErrorView(message: string)
    | NoJobs(message: string)
    | AllJobsUsed
    | Choice(current: Option<string>, options: seq<Json>, count: string)

  /**
   * The view: loading, then a truthy error, then the empty message, then the message that
   * every job is used, and otherwise the options with the count. The "currently selected"
   * text throws when the selected id is not among the loaded jobs.
   */
  function Render(loader: Loader, fetchAllUserJobs: bool, selectedJobId: Option<string>, excludeJobIds: seq<string>)
    : (r: Result<View, string>)
    reads loader
    ensures loader.loading ==> r.Success? && r.value.Loading?
    ensures !loader.loading && loader.error.Some? && loader.error.value != "" ==> r == Success(ErrorView(loader.error.value))
    ensures r.Success? && r.value.AllJobsUsed? <==>
      !loader.loading && !(loader.error.Some? && loader.error.value != "") && loader.items != []
      && Available(loader.items, excludeJobIds) == []
    ensures r.Success? && r.value.Choice? ==>
      r.value.options == Available(loader.items, excludeJobIds) && r.value.options != [] && r.value.count == CountText(|r.value.options|, "job")
    ensures !loader.loading && !(loader.error.Some? && loader.error.value != "") && loader.items == [] ==>
      r == Success(NoJobs(if fetchAllUserJobs then "No jobs found. Upload a job description below."
                          else "No jobs found for this resume. Upload a job description below."))
    ensures !loader.loading && !(loader.error.Some? && loader.error.value != "") && Available(loader.items, excludeJobIds) != [] ==>
      r == Offer(loader.items, Available(loader.items, excludeJobIds), selectedJobId)
  {
    if loader.loading then
      Success(Loading(if fetchAllUserJobs then "Loading your jobs..." else "Loading jobs for this resume..."))
    else if loader.error.Some? && loader.error.value != "" then Success(ErrorView(loader.error.value))
    else if loader.items == [] then
      Success(NoJobs(if fetchAllUserJobs then "No jobs found. Upload a job description below."
                     else "No jobs found for this resume. Upload a job description below."))
    else
      var available := Available(loader.items, excludeJobIds);
      if available == [] then Success(AllJobsUsed)
      else Offer(loader.items, available, selectedJobId)
  }

  /**
   * The select with the offered jobs and their count, under the text of the selected job; that
   * text throws when the selected id is not among the loaded jobs, or when the selected job's
   * display value holds an object.
   */
  function Offer(jobs: seq<Json>, available: seq<Json>, selectedJobId: Option<string>): (r: Result<View, string>)
    ensures r.Success? ==> r.value.Choice? && r.value.options == available && r.value.count == CountText(|available|, "job")
    ensures r.Failure? <==>
      selectedJobId.Some? && selectedJobId.value != ""
      && var found := FindById(jobs, "job_id", selectedJobId.value);
      (found.None? || HasObject(DisplayValue(found.value)))
    ensures r.Failure? ==>
      var found := FindById(jobs, "job_id", selectedJobId.value);
      found.Some? ==> r.error == ObjectChild
    ensures r.Success? ==> (r.value.current.Some? <==> selectedJobId.Some? && selectedJobId.value != "")
    ensures r.Success? && r.value.current.Some? ==>
      var found := FindById(jobs, "job_id", selectedJobId.value);
      found.Some? && JsxChild(DisplayValue(found.value)) == Success(r.value.current.value)
  {
    if selectedJobId.Some? && selectedJobId.value != "" then
      match FindById(jobs, "job_id", selectedJobId.value)
      case None => Failure("TypeError: Cannot read properties of undefined (reading 'processed_job')")
      case Some(job) =>
        JsxChildFails(DisplayValue(job));
        match JsxChild(DisplayValue(job))
        case Failure(e) => Failure(e)
        case Success(text) => Success(Choice(Some(text), available, CountText(|available|, "job")))
    else Success(Choice(None, available, CountText(|available|, "job")))
  }
}
