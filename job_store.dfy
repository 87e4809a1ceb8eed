/**
 * The job service: storing pasted job descriptions together with the structure an LLM
 * extracted from them, linking jobs to resumes, and reading jobs back for display.
 */
module JobStore {
  import opened Wrappers
  import opened JsonData
  import Text
  import Seqs

  /** A row of the `jobs` table. */
  datatype Job = Job(jobId: string, userId: Option<string>, content: string)

  /**
   * A row of the `processed_jobs` table. Columns holding a `json.dumps` document carry the
   * document (`None` for SQL NULL); the plain columns carry the extracted value as is.
   */
  datatype ProcessedJob = ProcessedJob(
    userId: Option<string>,
    jobTitle: Json,
    companyProfile: Option<Json>,
    location: Option<Json>,
    datePosted: Json,
    employmentType: Json,
    jobSummary: Json,
    keyResponsibilities: Option<Json>,
    qualifications: Option<Json>,
    compensationAndBenefits: Option<Json>,
    applicationInfo: Option<Json>,
    extractedKeywords: Option<Json>)

  /** The tables the service reads and writes; jobs are kept in creation order. */
  datatype Database = Database(
    resumes: set<string>,
    processedResumes: set<string>,
    jobs: seq<Job>,
    associations: seq<(string, string)>,
    processed: map<string, ProcessedJob>)

  // ----- storing the extracted structure -----

  /** A column written only when the extracted value is truthy. */
  function Stored(f: map<string, Json>, key: string): (c: Option<Json>)
    ensures c.Some? <==> PyTruthy(PyGet(f, key))
  {
    if PyTruthy(PyGet(f, key)) then Some(PyGet(f, key)) else None
  }

  /** A column written, wrapped in a one-key object, only when the extracted value is truthy. */
  function StoredWrapped(f: map<string, Json>, key: string): (c: Option<Json>)
    ensures c.Some? <==> PyTruthy(PyGet(f, key))
  {
    if PyTruthy(PyGet(f, key)) then Some(JObj(map[key := PyGet(f, key)])) else None
  }

  /** The processed-job row `_extract_and_store_structured_job` builds from the extracted fields. */
  function Build(userId: Option<string>, f: map<string, Json>): (p: ProcessedJob)
    ensures WellFormed(p) && p.userId == userId
    ensures p.jobTitle == PyGet(f, "job_title") && p.jobSummary == PyGet(f, "job_summary")
    ensures (p.companyProfile.Some? <==> PyTruthy(PyGet(f, "company_profile")))
      && (p.location.Some? <==> PyTruthy(PyGet(f, "location")))
      && (p.keyResponsibilities.Some? <==> PyTruthy(PyGet(f, "key_responsibilities")))
      && (p.qualifications.Some? <==> PyTruthy(PyGet(f, "qualifications")))
      && (p.compensationAndBenefits.Some? <==> PyTruthy(PyGet(f, "compensation_and_benfits")))
      && (p.applicationInfo.Some? <==> PyTruthy(PyGet(f, "application_info")))
      && (p.extractedKeywords.Some? <==> PyTruthy(PyGet(f, "extracted_keywords")))
  {
    ProcessedJob(
      userId,
      PyGet(f, "job_title"),
      Stored(f, "company_profile"),
      Stored(f, "location"),
      PyGet(f, "date_posted"),
      PyGet(f, "employment_type"),
      PyGet(f, "job_summary"),
      StoredWrapped(f, "key_responsibilities"),
      Stored(f, "qualifications"),
      Stored(f, "compensation_and_benfits"),
      Stored(f, "application_info"),
      StoredWrapped(f, "extracted_keywords"))
  }

  // ----- reading a row back -----

  /** The keys of the `processed_job` dictionary, `processed_at` left out. */
  const ViewFields: set<string> := {"job_title", "company_profile", "location", "date_posted", "employment_type", "job_summary",
    "key_responsibilities", "qualifications", "compensation_and_benfits", "application_info", "extracted_keywords"}

  /** `json.loads(c) if c else None`. */
  function Loaded(c: Option<Json>): Json {
    if c.Some? then c.value else JNull
  }

  /** The message of the AttributeError raised by calling `.get` on a value of the named type. */
  function AttributeError(typeName: string): string {
    "'" + typeName + "' object has no attribute 'get'"
  }

  /** `json.loads(c).get(key, []) if c else None`; `Failure` with the AttributeError text when the document is not an object. */
  function Unwrapped(c: Option<Json>, key: string): (r: Result<Json, string>)
    ensures c.None? ==> r == Success(JNull)
    ensures c.Some? && c.value.JObj? ==> r.Success?
    ensures c.Some? && c.value.JObj? && key in c.value.fields ==> r.value == c.value.fields[key]
    ensures c.Some? && c.value.JObj? && key !in c.value.fields ==> r.value == JArr([])
    ensures c.Some? && !c.value.JObj? ==> r == Failure(AttributeError(PyTypeName(c.value)))
  {
    match c
    case None => Success(JNull)
    case Some(JObj(fs)) => Success(if key in fs then fs[key] else JArr([]))
    case Some(other) => Failure(AttributeError(PyTypeName(other)))
  }

  /**
   * The `processed_job` dictionary the listing endpoints build from a row: the two wrapped
   * columns unwrapped, every other document column loaded as stored.
   */
  function ProcessedView(p: ProcessedJob): (r: Result<map<string, Json>, string>)
    ensures r.Success? <==> WellFormed(p)
    ensures r.Success? ==> r.value.Keys == ViewFields
    ensures r.Success? ==>
      (r.value["qualifications"] == Loaded(p.qualifications)
       && r.value["compensation_and_benfits"] == Loaded(p.compensationAndBenefits)
       && r.value["application_info"] == Loaded(p.applicationInfo))
  {
    var kr := Unwrapped(p.keyResponsibilities, "key_responsibilities");
    var ek := Unwrapped(p.extractedKeywords, "extracted_keywords");
    if kr.Failure? then Failure(kr.error)
    else if ek.Failure? then Failure(ek.error)
    else Success(map[
      "job_title" := p.jobTitle,
      "company_profile" := Loaded(p.companyProfile),
      "location" := Loaded(p.location),
      "date_posted" := p.datePosted,
      "employment_type" := p.employmentType,
      "job_summary" := p.jobSummary,
      "key_responsibilities" := kr.value,
      "qualifications" := Loaded(p.qualifications),
      "compensation_and_benfits" := Loaded(p.compensationAndBenefits),
      "application_info" := Loaded(p.applicationInfo),
      "extracted_keywords" := ek.value])
  }

  /**
   * The `processed_job` dictionary as `get_job_with_processed_data` builds it: it also
   * unwraps the three document columns that were stored without a wrapper.
   */
  function DetailViewAsWritten(p: ProcessedJob): Result<map<string, Json>, string> {
    var kr := Unwrapped(p.keyResponsibilities, "key_responsibilities");
    var q := Unwrapped(p.qualifications, "qualifications");
    var cb := Unwrapped(p.compensationAndBenefits, "compensation_and_benfits");
    var ai := Unwrapped(p.applicationInfo, "application_info");
    var ek := Unwrapped(p.extractedKeywords, "extracted_keywords");
    if kr.Failure? then Failure(kr.error)
    else if q.Failure? then Failure(q.error)
    else if cb.Failure? then Failure(cb.error)
    else if ai.Failure? then Failure(ai.error)
    else if ek.Failure? then Failure(ek.error)
    else Success(map[
      "job_title" := p.jobTitle,
      "company_profile" := Loaded(p.companyProfile),
      "location" := Loaded(p.location),
      "date_posted" := p.datePosted,
      "employment_type" := p.employmentType,
      "job_summary" := p.jobSummary,
      "key_responsibilities" := kr.value,
      "qualifications" := q.value,
      "compensation_and_benfits" := cb.value,
      "application_info" := ai.value,
      "extracted_keywords" := ek.value])
  }

  /** What a reader of a stored row should see: the extracted fields, falsy structured ones as null. */
  function Expected(f: map<string, Json>): map<string, Json> {
    map[
      "job_title" := PyGet(f, "job_title"),
      "company_profile" := Loaded(Stored(f, "company_profile")),
      "location" := Loaded(Stored(f, "location")),
      "date_posted" := PyGet(f, "date_posted"),
      "employment_type" := PyGet(f, "employment_type"),
      "job_summary" := PyGet(f, "job_summary"),
      "key_responsibilities" := Loaded(Stored(f, "key_responsibilities")),
      "qualifications" := Loaded(Stored(f, "qualifications")),
      "compensation_and_benfits" := Loaded(Stored(f, "compensation_and_benfits")),
      "application_info" := Loaded(Stored(f, "application_info")),
      "extracted_keywords" := Loaded(Stored(f, "extracted_keywords"))]
  }

  /** A row as the service writes it: the two wrapped columns hold objects. */
  predicate WellFormed(p: ProcessedJob) {
    (p.keyResponsibilities.Some? ==> p.keyResponsibilities.value.JObj?)
    && (p.extractedKeywords.Some? ==> p.extractedKeywords.value.JObj?)
  }

  /** Reading a stored row back yields every extracted field (falsy structured fields as null). */
  lemma BuildThenView(userId: Option<string>, f: map<string, Json>)
    ensures WellFormed(Build(userId, f))
    ensures ProcessedView(Build(userId, f)) == Success(Expected(f))
  {
    var p := Build(userId, f);
    assert Unwrapped(p.keyResponsibilities, "key_responsibilities") == Success(Loaded(Stored(f, "key_responsibilities")));
    assert Unwrapped(p.extractedKeywords, "extracted_keywords") == Success(Loaded(Stored(f, "extracted_keywords")));
  }

  /** Rows written by the service never make the listing view fail. */
  lemma WellFormedViews(p: ProcessedJob)
    requires WellFormed(p)
    ensures ProcessedView(p).Success?
  {
  }

  /** The detail view as written cannot read back a stored list of qualifications: it raises AttributeError. */
  lemma DetailRejectsStoredList()
    ensures var f := map["qualifications" := JArr([JStr("SQL")])];
      Expected(f)["qualifications"] == JArr([JStr("SQL")])
      && DetailViewAsWritten(Build(None, f)) == Failure(AttributeError("list"))
  {
    var f := map["qualifications" := JArr([JStr("SQL")])];
    var p := Build(None, f);
    assert p.keyResponsibilities == None;
    assert p.qualifications == Some(JArr([JStr("SQL")]));
    assert Unwrapped(p.keyResponsibilities, "key_responsibilities") == Success(JNull);
    assert Unwrapped(p.qualifications, "qualifications") == Failure(AttributeError("list"));
  }

  /** The detail view as written replaces stored qualifications given as an object by an empty list. */
  lemma DetailLosesStoredObject()
    ensures var q := JObj(map["required" := JArr([JStr("SQL")])]);
      var f := map["qualifications" := q];
      DetailViewAsWritten(Build(None, f)).Success?
      && DetailViewAsWritten(Build(None, f)).value["qualifications"] == JArr([])
      && Expected(f)["qualifications"] == q
  {
    var q := JObj(map["required" := JArr([JStr("SQL")])]);
    var f := map["qualifications" := q];
    assert "required" in q.fields;
    assert "key_responsibilities" !in f && "extracted_keywords" !in f;
    assert "compensation_and_benfits" !in f && "application_info" !in f;
    assert Build(None, f).qualifications == Some(q);
    assert "qualifications" !in q.fields;
  }

  // ----- records returned to the routers -----

  /** The dictionary returned for one job: its id, its raw text and its processed view when there is one. */
  datatype JobRecord = JobRecord(jobId: string, content: string, processedJob: Option<map<string, Json>>)

  function RecordOf(d: Database, j: Job): (r: Result<JobRecord, string>)
    ensures r.Success? ==> r.value.jobId == j.jobId && r.value.content == j.content
    ensures r.Success? ==> (r.value.processedJob.Some? <==> j.jobId in d.processed)
  {
    if j.jobId in d.processed then
      match ProcessedView(d.processed[j.jobId])
      case Success(v) => Success(JobRecord(j.jobId, j.content, Some(v)))
      case Failure(e) => Failure(e)
    else Success(JobRecord(j.jobId, j.content, None))
  }

  function JobIdOf(j: Job): string {
    j.jobId
  }

  /** The first job with the given id. */
  function FindJob(jobs: seq<Job>, jobId: string): (r: Option<Job>)
    ensures r.Some? ==> r.value in jobs && r.value.jobId == jobId
    ensures r.None? <==> forall i | 0 <= i < |jobs| :: jobs[i].jobId != jobId
  {
    Seqs.FirstWith(jobs, JobIdOf, jobId)
  }

  datatype JobError = JobNotFound(jobId: string) | Crashed(message: string)

  /** One job looked up by id, its processed row (if any) read through `view`. */
  function ReadJob(d: Database, jobId: string, view: ProcessedJob -> Result<map<string, Json>, string>): (r: Result<JobRecord, JobError>)
    ensures r == Failure(JobNotFound(jobId)) <==> forall i | 0 <= i < |d.jobs| :: d.jobs[i].jobId != jobId
    ensures r.Success? ==> r.value.jobId == jobId && (r.value.processedJob.None? <==> jobId !in d.processed)
    ensures r.Success? && jobId in d.processed ==> view(d.processed[jobId]) == Success(r.value.processedJob.value)
    ensures r.Failure? && r.error.Crashed? ==> jobId in d.processed && view(d.processed[jobId]) == Failure(r.error.message)
    ensures r.Failure? ==> r.error.JobNotFound? || r.error.Crashed?
  {
    match FindJob(d.jobs, jobId)
    case None => Failure(JobNotFound(jobId))
    case Some(j) =>
      if jobId in d.processed then
        match view(d.processed[jobId])
        case Success(v) => Success(JobRecord(jobId, j.content, Some(v)))
        case Failure(e) => Failure(Crashed(e))
      else Success(JobRecord(jobId, j.content, None))
  }

  /**
   * `get_job_with_processed_data` as written: an unknown id raises JobNotFoundError, and a
   * processed row is read through the detail view, which may raise.
   */
  function GetJobWithProcessedData(d: Database, jobId: string): (r: Result<JobRecord, JobError>)
    ensures r == Failure(JobNotFound(jobId)) <==> forall i | 0 <= i < |d.jobs| :: d.jobs[i].jobId != jobId
    ensures r.Success? ==> r.value.jobId == jobId && (r.value.processedJob.None? <==> jobId !in d.processed)
    ensures r.Success? && jobId in d.processed ==> DetailViewAsWritten(d.processed[jobId]) == Success(r.value.processedJob.value)
    ensures r.Failure? && r.error.Crashed? ==> jobId in d.processed && DetailViewAsWritten(d.processed[jobId]) == Failure(r.error.message)
  {
    ReadJob(d, jobId, DetailViewAsWritten)
  }

  /**
   * `get_job_with_processed_data` as intended: the processed row read as stored, the way the
   * listings read it; over rows the service wrote it never raises.
   */
  function GetJobAsStored(d: Database, jobId: string): (r: Result<JobRecord, JobError>)
    ensures r == Failure(JobNotFound(jobId)) <==> forall i | 0 <= i < |d.jobs| :: d.jobs[i].jobId != jobId
    ensures r.Success? ==> r.value.jobId == jobId && (r.value.processedJob.None? <==> jobId !in d.processed)
    ensures r.Success? && jobId in d.processed ==> ProcessedView(d.processed[jobId]) == Success(r.value.processedJob.value)
    ensures ValidDb(d) ==> r.Success? || r == Failure(JobNotFound(jobId))
  {
    if ValidDb(d) && jobId in d.processed then
      WellFormedViews(d.processed[jobId]);
      ReadJob(d, jobId, ProcessedView)
    else ReadJob(d, jobId, ProcessedView)
  }

  /** A job stored with extracted fields reads back, through the corrected detail read, with every extracted field. */
  lemma StoredJobReadsBack(d: Database, jobId: string, userId: Option<string>, f: map<string, Json>)
    requires jobId in d.processed && d.processed[jobId] == Build(userId, f)
    requires exists i | 0 <= i < |d.jobs| :: d.jobs[i].jobId == jobId
    ensures GetJobAsStored(d, jobId).Success?
    ensures GetJobAsStored(d, jobId).value.processedJob == Some(Expected(f))
  {
    BuildThenView(userId, f);
  }

  /** Which jobs a listing returns. */
  datatype Filter = OwnedBy(userId: string) | OwnedAndLinked(userId: string, jobIds: set<string>)

  predicate Matches(f: Filter, j: Job) {
    j.userId == Some(f.userId) && (f.OwnedAndLinked? ==> j.jobId in f.jobIds)
  }

  /** `r` with `prefix` in front of its records. */
  function Then(prefix: seq<JobRecord>, r: Result<seq<JobRecord>, string>): Result<seq<JobRecord>, string> {
    match r
    case Success(rs) => Success(prefix + rs)
    case Failure(e) => Failure(e)
  }

  /** The records of the matching jobs, newest (last created) first. */
  function NewestFirst(d: Database, jobs: seq<Job>, f: Filter): (r: Result<seq<JobRecord>, string>)
    ensures r.Success? ==> |r.value| <= |jobs|
    ensures r.Failure? ==> exists i | 0 <= i < |jobs| ::
      Matches(f, jobs[i]) && jobs[i].jobId in d.processed && ProcessedView(d.processed[jobs[i].jobId]).Failure?
    decreases |jobs|
  {
    if jobs == [] then Success([])
    else
      var last := jobs[|jobs| - 1];
      var rest := NewestFirst(d, jobs[..|jobs| - 1], f);
      if !Matches(f, last) then rest
      else
        match RecordOf(d, last)
        case Failure(e) => Failure(e)
        case Success(rec) => Then([rec], rest)
  }

  /** The matching jobs in creation order. */
  function Selected(jobs: seq<Job>, f: Filter): (r: seq<Job>)
    ensures |r| <= |jobs|
  {
    if jobs == [] then [] else (if Matches(f, jobs[0]) then [jobs[0]] else []) + Selected(jobs[1..], f)
  }

  /** A job created after the others comes last in the selection when it matches. */
  lemma {:induction false} SelectedSnoc(jobs: seq<Job>, f: Filter, j: Job)
    ensures Selected(jobs + [j], f) == Selected(jobs, f) + (if Matches(f, j) then [j] else [])
  {
    if jobs == [] {
      assert jobs + [j] == [j];
      assert Selected([j], f) == (if Matches(f, j) then [j] else []) + Selected([], f);
    } else {
      var longer := jobs + [j];
      assert longer[0] == jobs[0] && longer[1..] == jobs[1..] + [j];
      SelectedSnoc(jobs[1..], f, j);
      var head := if Matches(f, jobs[0]) then [jobs[0]] else [];
      assert head + (Selected(jobs[1..], f) + (if Matches(f, j) then [j] else []))
        == (head + Selected(jobs[1..], f)) + (if Matches(f, j) then [j] else []);
    }
  }

  /**
   * Over well-formed rows, a listing is the matching jobs in creation order, reversed (the
   * `created_at` descending order), each read as its record.
   */
  lemma {:induction false} NewestFirstReversed(d: Database, jobs: seq<Job>, f: Filter)
    requires forall k | k in d.processed :: WellFormed(d.processed[k])
    ensures NewestFirst(d, jobs, f).Success?
    ensures var newest := Seqs.Reversed(Selected(jobs, f));
      |NewestFirst(d, jobs, f).value| == |newest|
      && forall i | 0 <= i < |newest| :: RecordOf(d, newest[i]) == Success(NewestFirst(d, jobs, f).value[i])
    decreases |jobs|
  {
    if jobs != [] {
      var n := |jobs| - 1;
      var init := jobs[..n];
      var last := jobs[n];
      assert jobs == init + [last];
      SelectedSnoc(init, f, last);
      NewestFirstReversed(d, init, f);
      if Matches(f, last) && last.jobId in d.processed {
        assert ProcessedView(d.processed[last.jobId]).Success?;
      }
    }
  }

  /** The job ids linked to a resume. */
  function LinkedJobIds(associations: seq<(string, string)>, resumeId: string): (ids: set<string>)
    ensures forall x :: x in ids <==> (x, resumeId) in associations
  {
    set p | p in associations && p.1 == resumeId :: p.0
  }

  predicate DistinctJobIds(jobs: seq<Job>) {
    forall i, k | 0 <= i < k < |jobs| :: jobs[i].jobId != jobs[k].jobId
  }

  predicate DistinctPairs(associations: seq<(string, string)>) {
    forall i, k | 0 <= i < k < |associations| :: associations[i] != associations[k]
  }

  predicate ValidDb(d: Database) {
    DistinctJobIds(d.jobs) && DistinctPairs(d.associations)
    && forall k | k in d.processed :: WellFormed(d.processed[k])
  }

  /** Every record of a listing is a matching job of the database, and every matching job is listed. */
  lemma {:induction false} NewestFirstMembers(d: Database, jobs: seq<Job>, f: Filter, x: string)
    requires forall k | k in d.processed :: WellFormed(d.processed[k])
    ensures NewestFirst(d, jobs, f).Success?
    ensures (exists k | 0 <= k < |NewestFirst(d, jobs, f).value| :: NewestFirst(d, jobs, f).value[k].jobId == x)
      <==> (exists i | 0 <= i < |jobs| :: jobs[i].jobId == x && Matches(f, jobs[i]))
  {
    if jobs != [] {
      var last := jobs[|jobs| - 1];
      var init := jobs[..|jobs| - 1];
      NewestFirstMembers(d, init, f, x);
      if last.jobId in d.processed {
        WellFormedViews(d.processed[last.jobId]);
      }
      var r := NewestFirst(d, jobs, f).value;
      var s := NewestFirst(d, init, f).value;
      if exists i | 0 <= i < |jobs| :: jobs[i].jobId == x && Matches(f, jobs[i]) {
        var i :| 0 <= i < |jobs| && jobs[i].jobId == x && Matches(f, jobs[i]);
        if i == |jobs| - 1 {
          assert r[0].jobId == x;
        } else {
          assert init[i] == jobs[i];
          var k :| 0 <= k < |s| && s[k].jobId == x;
          if Matches(f, last) {
            assert r[k + 1] == s[k];
          } else {
            assert r[k] == s[k];
          }
        }
      }
      if exists k | 0 <= k < |r| :: r[k].jobId == x {
        var k :| 0 <= k < |r| && r[k].jobId == x;
        if Matches(f, last) && k == 0 {
          assert jobs[|jobs| - 1].jobId == x;
        } else {
          var k' := if Matches(f, last) then k - 1 else k;
          assert s[k'] == r[k];
          var i :| 0 <= i < |init| && init[i].jobId == x && Matches(f, init[i]);
          assert jobs[i] == init[i];
        }
      }
    }
  }

  // ----- storing uploads -----

  /** What extracting structure from one description produced. */
  datatype Extraction =
    | Extracted(fields: map<string, Json>)  // the validated, dumped model
    | Rejected                              // the model output failed validation
    | AgentFailed(message: string)          // the LLM call raised

  /** One uploaded description with the job id `uuid4` drew for it and its extraction. */
  datatype Upload = Upload(jobId: string, description: string, extraction: Extraction)

  datatype UploadError = ResumeMissing(message: string) | ExtractionCrashed(message: string)

  /** `r` with `jobId` in front of the returned ids. */
  function PrependId(jobId: string, r: Result<(Database, seq<string>), (Database, string)>): Result<(Database, seq<string>), (Database, string)> {
    match r
    case Success((d, ids)) => Success((d, [jobId] + ids))
    case Failure(e) => Failure(e)
  }

  function PrependIds(ids: seq<string>, r: Result<(Database, seq<string>), (Database, string)>): Result<(Database, seq<string>), (Database, string)> {
    match r
    case Success((d, rest)) => Success((d, ids + rest))
    case Failure(e) => Failure(e)
  }

  /** The job row and the association added for one upload. */
  function AddJob(d: Database, u: Upload, resumeId: string, userId: Option<string>): Database {
    d.(jobs := d.jobs + [Job(u.jobId, userId, u.description)],
       associations := d.associations + [(u.jobId, resumeId)])
  }

  /**
   * The loop of `create_and_store_job`. `committed` is the state of the last commit, `pending`
   * the session's current state: every successful extraction commits, a failing LLM call leaves
   * the last committed state and its message, and the end of the loop commits everything.
   */
  function Ingest(committed: Database, pending: Database, resumeId: string, userId: Option<string>, uploads: seq<Upload>)
    : (r: Result<(Database, seq<string>), (Database, string)>)
    decreases |uploads|
  {
    if uploads == [] then Success((pending, []))
    else if uploads[0].extraction.AgentFailed? then Failure((committed, uploads[0].extraction.message))
    else
      PrependId(uploads[0].jobId, Ingest(NextCommitted(committed, pending, uploads[0], resumeId, userId),
                                         NextPending(pending, uploads[0], resumeId, userId), resumeId, userId, uploads[1..]))
  }

  /** The state of the last commit after one upload: a successful extraction commits. */
  function NextCommitted(committed: Database, pending: Database, u: Upload, resumeId: string, userId: Option<string>): Database {
    if u.extraction.Extracted? && u.extraction.fields != map[] then NextPending(pending, u, resumeId, userId) else committed
  }

  /** The session's state after one upload: the job row, the association, and the processed row when extraction succeeded. */
  function NextPending(pending: Database, u: Upload, resumeId: string, userId: Option<string>): (e: Database)
    ensures e.jobs == pending.jobs + [Job(u.jobId, userId, u.description)]
    ensures e.associations == pending.associations + [(u.jobId, resumeId)]
  {
    var p := AddJob(pending, u, resumeId, userId);
    if u.extraction.Extracted? && u.extraction.fields != map[] then p.(processed := p.processed[u.jobId := Build(userId, u.extraction.fields)]) else p
  }

  function IdsOf(uploads: seq<Upload>): (ids: seq<string>)
    ensures |ids| == |uploads| && forall i | 0 <= i < |uploads| :: ids[i] == uploads[i].jobId
  {
    seq(|uploads|, i requires 0 <= i < |uploads| => uploads[i].jobId)
  }

  /** The ids drawn for the uploads are distinct and unused (what `uuid4` is trusted to deliver). */
  predicate FreshIds(d: Database, uploads: seq<Upload>) {
    (forall i, k | 0 <= i < k < |uploads| :: uploads[i].jobId != uploads[k].jobId)
    && (forall i, k | 0 <= i < |uploads| && 0 <= k < |d.jobs| :: uploads[i].jobId != d.jobs[k].jobId)
    && (forall i, k | 0 <= i < |uploads| && 0 <= k < |d.associations| :: uploads[i].jobId != d.associations[k].0)
  }

  /** The associations a sequence of uploads adds. */
  function LinksOf(uploads: seq<Upload>, resumeId: string): (links: seq<(string, string)>)
    ensures |links| == |uploads|
    ensures forall i | 0 <= i < |uploads| :: links[i] == (uploads[i].jobId, resumeId)
  {
    seq(|uploads|, i requires 0 <= i < |uploads| => (uploads[i].jobId, resumeId))
  }

  /** A successful upload returns the drawn ids, in order. */
  lemma {:induction false} IngestSuccessIds(committed: Database, pending: Database, resumeId: string, userId: Option<string>, uploads: seq<Upload>)
    requires Ingest(committed, pending, resumeId, userId, uploads).Success?
    ensures Ingest(committed, pending, resumeId, userId, uploads).value.1 == IdsOf(uploads)
    decreases |uploads|
  {
    if uploads != [] {
      IngestSuccessIds(NextCommitted(committed, pending, uploads[0], resumeId, userId),
                       NextPending(pending, uploads[0], resumeId, userId), resumeId, userId, uploads[1..]);
      assert IdsOf(uploads) == [uploads[0].jobId] + IdsOf(uploads[1..]);
    }
  }

  lemma RowsCons(uploads: seq<Upload>, resumeId: string, userId: Option<string>)
    requires uploads != []
    ensures JobsOf(uploads, userId) == [Job(uploads[0].jobId, userId, uploads[0].description)] + JobsOf(uploads[1..], userId)
    ensures LinksOf(uploads, resumeId) == [(uploads[0].jobId, resumeId)] + LinksOf(uploads[1..], resumeId)
  {
  }

  lemma JobsSnoc(done: seq<Upload>, u: Upload, userId: Option<string>)
    ensures JobsOf(done + [u], userId) == JobsOf(done, userId) + [Job(u.jobId, userId, u.description)]
  {
  }

  lemma SeqAssoc<T>(a: seq<T>, b: seq<T>, c: seq<T>)
    ensures (a + b) + c == a + (b + c)
  {
  }

  /** A successful upload adds one job row and one association per description, after the existing ones. */
  lemma {:induction false} IngestSuccessRows(committed: Database, pending: Database, resumeId: string, userId: Option<string>, uploads: seq<Upload>)
    requires Ingest(committed, pending, resumeId, userId, uploads).Success?
    ensures Ingest(committed, pending, resumeId, userId, uploads).value.0.jobs == pending.jobs + JobsOf(uploads, userId)
    ensures Ingest(committed, pending, resumeId, userId, uploads).value.0.associations == pending.associations + LinksOf(uploads, resumeId)
    decreases |uploads|
  {
    if uploads != [] {
      var u := uploads[0];
      var next := NextPending(pending, u, resumeId, userId);
      var c := NextCommitted(committed, pending, u, resumeId, userId);
      IngestSuccessRows(c, next, resumeId, userId, uploads[1..]);
      RowsCons(uploads, resumeId, userId);
      SeqAssoc(pending.jobs, [Job(u.jobId, userId, u.description)], JobsOf(uploads[1..], userId));
      SeqAssoc(pending.associations, [(u.jobId, resumeId)], LinksOf(uploads[1..], resumeId));
    }
  }

  /** A successful upload stores a processed row for every description whose extraction succeeded. */
  lemma {:induction false} IngestSuccessProcessed(committed: Database, pending: Database, resumeId: string, userId: Option<string>, uploads: seq<Upload>, i: nat)
    requires Ingest(committed, pending, resumeId, userId, uploads).Success?
    requires i < |uploads| && uploads[i].extraction.Extracted? && uploads[i].extraction.fields != map[]
    ensures uploads[i].jobId in Ingest(committed, pending, resumeId, userId, uploads).value.0.processed
    decreases |uploads|
  {
    var u := uploads[0];
    var c := NextCommitted(committed, pending, u, resumeId, userId);
    var next := NextPending(pending, u, resumeId, userId);
    if i == 0 {
      ProcessedKept(c, next, resumeId, userId, uploads[1..], u.jobId);
    } else {
      assert uploads[1..][i - 1] == uploads[i];
      IngestSuccessProcessed(c, next, resumeId, userId, uploads[1..], i - 1);
    }
  }

  lemma {:induction false} ProcessedKept(committed: Database, pending: Database, resumeId: string, userId: Option<string>, uploads: seq<Upload>, jobId: string)
    requires jobId in pending.processed
    requires Ingest(committed, pending, resumeId, userId, uploads).Success?
    ensures jobId in Ingest(committed, pending, resumeId, userId, uploads).value.0.processed
    decreases |uploads|
  {
    if uploads != [] {
      var u := uploads[0];
      ProcessedKept(NextCommitted(committed, pending, u, resumeId, userId), NextPending(pending, u, resumeId, userId),
                    resumeId, userId, uploads[1..], jobId);
    }
  }

  /** A processed row of the session keeps its value when no later upload has its id. */
  lemma {:induction false} ProcessedRowKept(committed: Database, pending: Database, resumeId: string, userId: Option<string>,
                                            uploads: seq<Upload>, jobId: string)
    requires jobId in pending.processed
    requires forall k | 0 <= k < |uploads| :: uploads[k].jobId != jobId
    requires Ingest(committed, pending, resumeId, userId, uploads).Success?
    ensures var e := Ingest(committed, pending, resumeId, userId, uploads).value.0;
      jobId in e.processed && e.processed[jobId] == pending.processed[jobId]
    decreases |uploads|
  {
    if uploads != [] {
      var u := uploads[0];
      var next := NextPending(pending, u, resumeId, userId);
      assert next.processed[jobId] == pending.processed[jobId];
      forall k | 0 <= k < |uploads| - 1
        ensures uploads[1..][k].jobId != jobId
      {
        assert uploads[1..][k] == uploads[k + 1];
      }
      ProcessedRowKept(NextCommitted(committed, pending, u, resumeId, userId), next, resumeId, userId, uploads[1..], jobId);
    }
  }

  /** An extraction that produced fields stores the row built from them, unless a later upload reuses its id. */
  lemma {:induction false} IngestProcessedRow(committed: Database, pending: Database, resumeId: string, userId: Option<string>,
                                              uploads: seq<Upload>, i: nat)
    requires Ingest(committed, pending, resumeId, userId, uploads).Success?
    requires i < |uploads| && uploads[i].extraction.Extracted? && uploads[i].extraction.fields != map[]
    requires forall k | i < k < |uploads| :: uploads[k].jobId != uploads[i].jobId
    ensures var e := Ingest(committed, pending, resumeId, userId, uploads).value.0;
      uploads[i].jobId in e.processed && e.processed[uploads[i].jobId] == Build(userId, uploads[i].extraction.fields)
    decreases |uploads|
  {
    var u := uploads[0];
    var c := NextCommitted(committed, pending, u, resumeId, userId);
    var next := NextPending(pending, u, resumeId, userId);
    forall k | i <= k < |uploads| - 1
      ensures uploads[1..][k] == uploads[k + 1]
    {
    }
    if i == 0 {
      ProcessedRowKept(c, next, resumeId, userId, uploads[1..], u.jobId);
    } else {
      IngestProcessedRow(c, next, resumeId, userId, uploads[1..], i - 1);
    }
  }

  /** Every processed row after the loop was in the session already or comes from an extraction that produced fields. */
  lemma {:induction false} IngestProcessedFrom(committed: Database, pending: Database, resumeId: string, userId: Option<string>,
                                               uploads: seq<Upload>, jobId: string)
    requires Ingest(committed, pending, resumeId, userId, uploads).Success?
    requires jobId in Ingest(committed, pending, resumeId, userId, uploads).value.0.processed
    ensures jobId in pending.processed || exists i | 0 <= i < |uploads| ::
      uploads[i].jobId == jobId && uploads[i].extraction.Extracted? && uploads[i].extraction.fields != map[]
    decreases |uploads|
  {
    if uploads != [] {
      var u := uploads[0];
      var next := NextPending(pending, u, resumeId, userId);
      IngestProcessedFrom(NextCommitted(committed, pending, u, resumeId, userId), next, resumeId, userId, uploads[1..], jobId);
      if jobId in next.processed {
        if jobId !in pending.processed {
          assert uploads[0].jobId == jobId && u.extraction.Extracted? && u.extraction.fields != map[];
        }
      } else {
        var i :| 0 <= i < |uploads| - 1 && uploads[1..][i].jobId == jobId
          && uploads[1..][i].extraction.Extracted? && uploads[1..][i].extraction.fields != map[];
        assert uploads[1..][i] == uploads[i + 1];
      }
    }
  }

  /** The job rows a sequence of uploads adds. */
  function JobsOf(uploads: seq<Upload>, userId: Option<string>): (jobs: seq<Job>)
    ensures |jobs| == |uploads|
    ensures forall i | 0 <= i < |uploads| :: jobs[i] == Job(uploads[i].jobId, userId, uploads[i].description)
  {
    seq(|uploads|, i requires 0 <= i < |uploads| => Job(uploads[i].jobId, userId, uploads[i].description))
  }

  /**
   * A failed upload keeps exactly the state of a commit point: the job rows of a proper prefix
   * of the uploads (the ones up to the last successful extraction).
   */
  lemma IngestFailure(d0: Database, committed: Database, pending: Database, resumeId: string, userId: Option<string>, uploads: seq<Upload>, done: seq<Upload>)
    requires pending.jobs == d0.jobs + JobsOf(done, userId)
    requires exists n | 0 <= n <= |done| :: committed.jobs == d0.jobs + JobsOf(done[..n], userId)
    requires Ingest(committed, pending, resumeId, userId, uploads).Failure?
    ensures exists n | 0 <= n < |done + uploads| ::
      Ingest(committed, pending, resumeId, userId, uploads).error.0.jobs == d0.jobs + JobsOf((done + uploads)[..n], userId)
  {
    var n0 :| 0 <= n0 <= |done| && committed.jobs == d0.jobs + JobsOf(done[..n0], userId);
    var n := CommitPointOf(d0, committed, pending, resumeId, userId, uploads, done, n0);
  }

  /** The commit point a failed batch rolls back to, as the length of the prefix of uploads it holds. */
  lemma {:induction false} CommitPointOf(d0: Database, committed: Database, pending: Database, resumeId: string, userId: Option<string>,
                                         uploads: seq<Upload>, done: seq<Upload>, n0: nat) returns (n: nat)
    requires pending.jobs == d0.jobs + JobsOf(done, userId)
    requires n0 <= |done| && committed.jobs == d0.jobs + JobsOf(done[..n0], userId)
    requires Ingest(committed, pending, resumeId, userId, uploads).Failure?
    ensures n < |done + uploads|
    ensures Ingest(committed, pending, resumeId, userId, uploads).error.0.jobs == d0.jobs + JobsOf((done + uploads)[..n], userId)
    decreases |uploads|
  {
    var u := uploads[0];
    var all := done + uploads;
    IngestHead(committed, pending, resumeId, userId, uploads);
    if u.extraction.AgentFailed? {
      assert all[..n0] == done[..n0];
      n := n0;
    } else {
      var p := NextPending(pending, u, resumeId, userId);
      var c := NextCommitted(committed, pending, u, resumeId, userId);
      var done' := done + [u];
      assert all == done' + uploads[1..] by {
        assert uploads == [u] + uploads[1..];
      }
      var n1 := CommitPointStep(d0, committed, pending, u, resumeId, userId, done, n0);
      n := CommitPointOf(d0, c, p, resumeId, userId, uploads[1..], done', n1);
    }
  }

  /** A batch succeeds exactly when no extraction fails; a failure reports the message of a failed extraction. */
  lemma {:induction false} IngestOutcome(committed: Database, pending: Database, resumeId: string, userId: Option<string>, uploads: seq<Upload>)
    ensures Ingest(committed, pending, resumeId, userId, uploads).Success? <==> forall i | 0 <= i < |uploads| :: !uploads[i].extraction.AgentFailed?
    ensures Ingest(committed, pending, resumeId, userId, uploads).Failure? ==> exists i | 0 <= i < |uploads| ::
      uploads[i].extraction.AgentFailed? && Ingest(committed, pending, resumeId, userId, uploads).error.1 == uploads[i].extraction.message
    decreases |uploads|
  {
    if uploads != [] {
      IngestHead(committed, pending, resumeId, userId, uploads);
      if !uploads[0].extraction.AgentFailed? {
        var c := NextCommitted(committed, pending, uploads[0], resumeId, userId);
        var p := NextPending(pending, uploads[0], resumeId, userId);
        IngestOutcome(c, p, resumeId, userId, uploads[1..]);
        assert forall i | 1 <= i < |uploads| :: uploads[i] == uploads[1..][i - 1];
        if Ingest(committed, pending, resumeId, userId, uploads).Failure? {
          var k :| 0 <= k < |uploads[1..]| && uploads[1..][k].extraction.AgentFailed?
                   && Ingest(c, p, resumeId, userId, uploads[1..]).error.1 == uploads[1..][k].extraction.message;
          assert uploads[k + 1] == uploads[1..][k];
        }
      }
    }
  }

  /** The first upload of a batch: a failed extraction stops at the commit point, any other goes on with the rest. */
  lemma IngestHead(committed: Database, pending: Database, resumeId: string, userId: Option<string>, uploads: seq<Upload>)
    requires uploads != []
    ensures uploads[0].extraction.AgentFailed? ==>
      Ingest(committed, pending, resumeId, userId, uploads) == Failure((committed, uploads[0].extraction.message))
    ensures !uploads[0].extraction.AgentFailed? ==>
      Ingest(committed, pending, resumeId, userId, uploads).Failure?
        == Ingest(NextCommitted(committed, pending, uploads[0], resumeId, userId), NextPending(pending, uploads[0], resumeId, userId),
                  resumeId, userId, uploads[1..]).Failure?
    ensures !uploads[0].extraction.AgentFailed? && Ingest(committed, pending, resumeId, userId, uploads).Failure? ==>
      Ingest(committed, pending, resumeId, userId, uploads).error
        == Ingest(NextCommitted(committed, pending, uploads[0], resumeId, userId), NextPending(pending, uploads[0], resumeId, userId),
                  resumeId, userId, uploads[1..]).error
  {
  }

  /** One successful extraction: the session gains the upload's job row, and the commit point stays a prefix. */
  lemma CommitPointStep(d0: Database, committed: Database, pending: Database, u: Upload, resumeId: string, userId: Option<string>,
                        done: seq<Upload>, n0: nat) returns (n: nat)
    requires pending.jobs == d0.jobs + JobsOf(done, userId)
    requires n0 <= |done| && committed.jobs == d0.jobs + JobsOf(done[..n0], userId)
    ensures NextPending(pending, u, resumeId, userId).jobs == d0.jobs + JobsOf(done + [u], userId)
    ensures n <= |done + [u]|
    ensures NextCommitted(committed, pending, u, resumeId, userId).jobs == d0.jobs + JobsOf((done + [u])[..n], userId)
  {
    var done' := done + [u];
    JobsSnoc(done, u, userId);
    SeqAssoc(d0.jobs, JobsOf(done, userId), [Job(u.jobId, userId, u.description)]);
    if u.extraction.Extracted? && u.extraction.fields != map[] {
      assert done'[..|done'|] == done';
      n := |done'|;
    } else {
      assert done'[..n0] == done[..n0];
      n := n0;
    }
  }

  /** What a failed upload leaves stored: the existing jobs plus those of a proper prefix of the uploads. */
  lemma FailedUploadKeepsCommitPoint(d: Database, resumeId: string, userId: Option<string>, uploads: seq<Upload>)
    requires Ingest(d, d, resumeId, userId, uploads).Failure?
    ensures exists n | 0 <= n < |uploads| :: Ingest(d, d, resumeId, userId, uploads).error.0.jobs == d.jobs + JobsOf(uploads[..n], userId)
  {
    assert d.jobs == d.jobs + JobsOf([], userId);
    var none: seq<Upload> := [];
    assert none[..0] == none;
    IngestFailure(d, d, d, resumeId, userId, uploads, none);
    assert none + uploads == uploads;
  }

  /** What a successful upload stores and returns. */
  lemma SuccessfulUpload(d: Database, resumeId: string, userId: Option<string>, uploads: seq<Upload>)
    requires Ingest(d, d, resumeId, userId, uploads).Success?
    ensures var (e, ids) := Ingest(d, d, resumeId, userId, uploads).value;
      ids == IdsOf(uploads)
      && e.jobs == d.jobs + JobsOf(uploads, userId)
      && e.associations == d.associations + LinksOf(uploads, resumeId)
      && (forall i | 0 <= i < |uploads| && uploads[i].extraction.Extracted? && uploads[i].extraction.fields != map[] ::
           uploads[i].jobId in e.processed)
      && (forall jobId | jobId in e.processed && jobId !in d.processed :: exists i | 0 <= i < |uploads| ::
           uploads[i].jobId == jobId && uploads[i].extraction.Extracted? && uploads[i].extraction.fields != map[])
      && (forall jobId | jobId in d.processed && (forall k | 0 <= k < |uploads| :: uploads[k].jobId != jobId) ::
           jobId in e.processed && e.processed[jobId] == d.processed[jobId])
      && (FreshIds(d, uploads) ==>
           forall i | 0 <= i < |uploads| && uploads[i].extraction.Extracted? && uploads[i].extraction.fields != map[] ::
             e.processed[uploads[i].jobId] == Build(userId, uploads[i].extraction.fields))
  {
    IngestSuccessIds(d, d, resumeId, userId, uploads);
    IngestSuccessRows(d, d, resumeId, userId, uploads);
    var e := Ingest(d, d, resumeId, userId, uploads).value.0;
    forall i | 0 <= i < |uploads| && uploads[i].extraction.Extracted? && uploads[i].extraction.fields != map[]
      ensures uploads[i].jobId in e.processed
    {
      IngestSuccessProcessed(d, d, resumeId, userId, uploads, i);
    }
    forall jobId | jobId in e.processed && jobId !in d.processed
      ensures exists i | 0 <= i < |uploads| ::
        uploads[i].jobId == jobId && uploads[i].extraction.Extracted? && uploads[i].extraction.fields != map[]
    {
      IngestProcessedFrom(d, d, resumeId, userId, uploads, jobId);
    }
    forall jobId | jobId in d.processed && (forall k | 0 <= k < |uploads| :: uploads[k].jobId != jobId)
      ensures jobId in e.processed && e.processed[jobId] == d.processed[jobId]
    {
      ProcessedRowKept(d, d, resumeId, userId, uploads, jobId);
    }
    if FreshIds(d, uploads) {
      forall i | 0 <= i < |uploads| && uploads[i].extraction.Extracted? && uploads[i].extraction.fields != map[]
        ensures e.processed[uploads[i].jobId] == Build(userId, uploads[i].extraction.fields)
      {
        IngestProcessedRow(d, d, resumeId, userId, uploads, i);
      }
    }
  }

  /** Linking a job to a resume unless the link already exists. */
  function Associated(d: Database, jobId: string, resumeId: string): (e: Database)
    ensures (jobId, resumeId) in e.associations
    ensures forall p | p in d.associations :: p in e.associations
  {
    if (jobId, resumeId) in d.associations then d
    else d.(associations := d.associations + [(jobId, resumeId)])
  }

  /** Linking twice is linking once, and a link never appears twice. */
  lemma AssociatedIdempotent(d: Database, jobId: string, resumeId: string)
    requires DistinctPairs(d.associations)
    ensures Associated(Associated(d, jobId, resumeId), jobId, resumeId) == Associated(d, jobId, resumeId)
    ensures DistinctPairs(Associated(d, jobId, resumeId).associations)
  {
  }

  /** The job service over its database session. */
  class JobService {
    var db: Database

    constructor (db: Database)
      ensures this.db == db
    {
      this.db := db;
    }

    predicate Valid()
      reads this
    {
      ValidDb(db)
    }

    /**
     * `create_and_store_job`: fails with the AssertionError text when the resume is unknown;
     * otherwise stores one job, one association and (when extraction succeeded) one processed
     * row per description, committing as the source does.
     */
    method CreateAndStoreJob(resumeId: string, userId: Option<string>, uploads: seq<Upload>) returns (r: Result<seq<string>, UploadError>)
      requires Valid() && FreshIds(db, uploads)
      modifies this
      ensures Valid()
      ensures resumeId !in old(db).resumes ==>
        r == Failure(ResumeMissing("resume corresponding to resume_id: " + resumeId + " not found")) && db == old(db)
      ensures resumeId in old(db).resumes ==>
        var expected := Ingest(old(db), old(db), resumeId, userId, uploads);
        (expected.Success? ==> r == Success(expected.value.1) && db == expected.value.0)
        && (expected.Failure? ==> r == Failure(ExtractionCrashed(expected.error.1)) && db == expected.error.0)
    {
      if resumeId !in db.resumes {
        return Failure(ResumeMissing("resume corresponding to resume_id: " + resumeId + " not found"));
      }
      var committed := db;
      var pending := db;
      var ids: seq<string> := [];
      var i := 0;
      assert uploads[0..] == uploads;
      PrependNone(Ingest(db, db, resumeId, userId, uploads));
      while i < |uploads|
        invariant 0 <= i <= |uploads|
        invariant db == old(db)
        invariant Ingest(old(db), old(db), resumeId, userId, uploads) == PrependIds(ids, Ingest(committed, pending, resumeId, userId, uploads[i..]))
        invariant ValidDb(committed) && ValidDb(pending) && FreshIds(committed, uploads[i..]) && FreshIds(pending, uploads[i..])
      {
        var u := uploads[i];
        assert uploads[i..][0] == u && uploads[i..][1..] == uploads[i + 1..];
        FreshAfterAdd(pending, uploads[i..], resumeId, userId);
        FreshTail(committed, uploads[i..]);
        PrependStep(ids, u.jobId, Ingest(NextCommitted(committed, pending, u, resumeId, userId),
                                         NextPending(pending, u, resumeId, userId), resumeId, userId, uploads[i + 1..]));
        var p := AddJob(pending, u, resumeId, userId);
        match u.extraction {
          case AgentFailed(message) =>
            db := committed;
            return Failure(ExtractionCrashed(message));
          case Rejected =>
            pending := p;
          case Extracted(f) =>
            if f == map[] {
              pending := p;
            } else {
              pending := p.(processed := p.processed[u.jobId := Build(userId, f)]);
              committed := pending;
            }
        }
        ids := ids + [u.jobId];
        i := i + 1;
      }
      assert uploads[i..] == [];
      assert ids + [] == ids;
      db := pending;
      r := Success(ids);
    }

    /** `ensure_job_resume_association`. */
    method EnsureJobResumeAssociation(jobId: string, resumeId: string)
      requires Valid()
      modifies this
      ensures Valid()
      ensures db == Associated(old(db), jobId, resumeId)
    {
      if (jobId, resumeId) in db.associations {
        return;
      }
      db := db.(associations := db.associations + [(jobId, resumeId)]);
    }

    /** `get_jobs_for_resume`: the user's jobs linked to the resume, newest first. */
    method GetJobsForResume(resumeId: string, userId: string) returns (r: Result<seq<JobRecord>, string>)
      ensures r == NewestFirst(db, db.jobs, OwnedAndLinked(userId, LinkedJobIds(db.associations, resumeId)))
    {
      var ids := LinkedJobIds(db.associations, resumeId);
      if ids == {} {
        NoLinks(db, db.jobs, userId);
        return Success([]);
      }
      r := List(OwnedAndLinked(userId, ids));
    }

    /** `get_all_jobs_for_user`: the user's jobs, newest first. */
    method GetAllJobsForUser(userId: string) returns (r: Result<seq<JobRecord>, string>)
      ensures r == NewestFirst(db, db.jobs, OwnedBy(userId))
    {
      r := List(OwnedBy(userId));
    }

    /** The loop both listings share: builds one record per matching job, newest first. */
    method List(f: Filter) returns (r: Result<seq<JobRecord>, string>)
      ensures r == NewestFirst(db, db.jobs, f)
    {
      var out: seq<JobRecord> := [];
      var i := |db.jobs|;
      assert db.jobs[..i] == db.jobs;
      ThenNone(NewestFirst(db, db.jobs, f));
      while i > 0
        invariant 0 <= i <= |db.jobs|
        invariant NewestFirst(db, db.jobs, f) == Then(out, NewestFirst(db, db.jobs[..i], f))
      {
        var job := db.jobs[i - 1];
        assert db.jobs[..i][..i - 1] == db.jobs[..i - 1];
        if Matches(f, job) {
          match RecordOf(db, job) {
            case Failure(e) =>
              return Failure(e);
            case Success(rec) =>
              ThenAssoc(out, [rec], NewestFirst(db, db.jobs[..i - 1], f));
              out := out + [rec];
          }
        }
        i := i - 1;
      }
      assert db.jobs[..0] == [];
      assert out + [] == out;
      r := Success(out);
    }
  }

  lemma PrependNone(r: Result<(Database, seq<string>), (Database, string)>)
    ensures PrependIds([], r) == r
  {
    if r.Success? {
      assert [] + r.value.1 == r.value.1;
    }
  }

  lemma PrependStep(ids: seq<string>, jobId: string, r: Result<(Database, seq<string>), (Database, string)>)
    ensures PrependIds(ids, PrependId(jobId, r)) == PrependIds(ids + [jobId], r)
  {
    if r.Success? {
      assert ids + ([jobId] + r.value.1) == (ids + [jobId]) + r.value.1;
    }
  }

  lemma ThenNone(r: Result<seq<JobRecord>, string>)
    ensures Then([], r) == r
  {
    if r.Success? {
      assert [] + r.value == r.value;
    }
  }

  lemma ThenAssoc(a: seq<JobRecord>, b: seq<JobRecord>, r: Result<seq<JobRecord>, string>)
    ensures Then(a, Then(b, r)) == Then(a + b, r)
  {
    if r.Success? {
      assert a + (b + r.value) == (a + b) + r.value;
    }
  }

  lemma {:induction false} NoLinks(d: Database, jobs: seq<Job>, userId: string)
    ensures NewestFirst(d, jobs, OwnedAndLinked(userId, {})) == Success([])
  {
    if jobs != [] {
      NoLinks(d, jobs[..|jobs| - 1], userId);
    }
  }

  lemma FreshTail(d: Database, uploads: seq<Upload>)
    requires uploads != [] && FreshIds(d, uploads)
    ensures FreshIds(d, uploads[1..])
  {
  }

  lemma FreshAfterAdd(d: Database, uploads: seq<Upload>, resumeId: string, userId: Option<string>)
    requires uploads != [] && FreshIds(d, uploads) && ValidDb(d)
    ensures var p := NextPending(d, uploads[0], resumeId, userId);
      FreshIds(p, uploads[1..]) && ValidDb(p)
  {
    FreshAfterAddIds(d, uploads, resumeId, userId);
    ValidAfterAdd(d, uploads[0], resumeId, userId, uploads);
  }

  /** The ids of the remaining uploads are still unused after one upload is added. */
  lemma FreshAfterAddIds(d: Database, uploads: seq<Upload>, resumeId: string, userId: Option<string>)
    requires uploads != [] && FreshIds(d, uploads)
    ensures FreshIds(NextPending(d, uploads[0], resumeId, userId), uploads[1..])
  {
    var p := NextPending(d, uploads[0], resumeId, userId);
    assert forall i | 1 <= i < |uploads| :: uploads[i] == uploads[1..][i - 1];
    assert forall k | 0 <= k < |d.associations| :: p.associations[k] == d.associations[k];
    assert forall k | 0 <= k < |d.jobs| :: p.jobs[k] == d.jobs[k];
  }

  /** Adding a fresh upload keeps the job ids and links distinct and every processed row well formed. */
  lemma ValidAfterAdd(d: Database, u: Upload, resumeId: string, userId: Option<string>, uploads: seq<Upload>)
    requires uploads != [] && u == uploads[0] && FreshIds(d, uploads) && ValidDb(d)
    ensures ValidDb(NextPending(d, u, resumeId, userId))
  {
    var p := NextPending(d, u, resumeId, userId);
    assert forall k | 0 <= k < |d.associations| :: p.associations[k] == d.associations[k];
    if u.extraction.Extracted? {
      BuildThenView(userId, u.extraction.fields);
    }
  }
}
