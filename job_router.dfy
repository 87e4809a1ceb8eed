/**
 * The job endpoints: the upload with its Content-Type gate, the lookup of one job, and the
 * two listings, with the service's failures turned into HTTP answers.
 */
module JobRouter {
  import opened Wrappers
  import opened Http
  import opened JsonData
  import UuidCodec
  import AuthService
  import opened JobStore

  const AllowedContentTypes: seq<string> := ["application/json"]
  const MissingContentType := "Content-Type header is missing"
  const InvalidContentType := "Invalid Content-Type. Only application/json is/are allowed."
  const UploadedMessage := "data successfully processed"
  const JobIdRequired := "job_id is required"
  const FetchJobError := "Error fetching job data"
  const ResumeJobsError := "Error fetching jobs for resume"
  const UserJobsError := "Error fetching jobs for user"

  /** The upload's answer; the request echo (its id and payload) is left out. */
  datatype UploadResponse = UploadResponse(message: string, jobIds: seq<string>)

  /** The Content-Type gate: an absent or empty header, then any type but JSON, is a 400. */
  function ContentTypeCheck(contentType: Option<string>): (r: Option<HttpError>)
    ensures r.None? <==> contentType.Some? && contentType.value in AllowedContentTypes
    ensures contentType.None? || contentType == Some("") ==> r == Some(Plain(BadRequest, MissingContentType))
    ensures contentType.Some? && contentType.value != "" && r.Some? ==> r == Some(Plain(BadRequest, InvalidContentType))
  {
    if contentType.None? || contentType.value == "" then Some(Plain(BadRequest, MissingContentType))
    else if contentType.value !in AllowedContentTypes then Some(Plain(BadRequest, InvalidContentType))
    else None
  }

  /** `str(current_user.id)` for a signed-in uploader, `None` for a guest: the text reads back as the user's id. */
  function UploaderId(user: Option<AuthService.User>): (r: Option<string>)
    ensures r.Some? <==> user.Some?
    ensures user.Some? ==> UuidCodec.Parse(r.value) == Some(user.value.id)
  {
    match user
    case None => None
    case Some(u) =>
      UuidCodec.ParseCanonical(u.id);
      Some(UuidCodec.Canonical(u.id))
  }

  /**
   * `upload_job`: the Content-Type gate, then the service; an unknown resume (the service's
   * AssertionError) is a 400 with its text, a failed extraction a 500 with its text, and a
   * success lists the new job ids in upload order.
   */
  method UploadJob(svc: JobService, contentType: Option<string>, currentUser: Option<AuthService.User>,
                   resumeId: string, uploads: seq<Upload>) returns (r: Result<UploadResponse, HttpError>)
    requires svc.Valid() && FreshIds(svc.db, uploads)
    modifies svc
    ensures svc.Valid()
    ensures ContentTypeCheck(contentType).Some? ==> r == Failure(ContentTypeCheck(contentType).value) && svc.db == old(svc.db)
    ensures ContentTypeCheck(contentType).None? && resumeId !in old(svc.db).resumes ==>
      r == Failure(Plain(BadRequest, "resume corresponding to resume_id: " + resumeId + " not found")) && svc.db == old(svc.db)
    ensures ContentTypeCheck(contentType).None? && resumeId in old(svc.db).resumes ==>
      var expected := Ingest(old(svc.db), old(svc.db), resumeId, UploaderId(currentUser), uploads);
      (expected.Success? ==> r == Success(UploadResponse(UploadedMessage, IdsOf(uploads))) && svc.db == expected.value.0)
      && (expected.Failure? ==> r == Failure(Plain(InternalServerError, expected.error.1)) && svc.db == expected.error.0)
  {
    var gate := ContentTypeCheck(contentType);
    if gate.Some? {
      return Failure(gate.value);
    }
    var userId := UploaderId(currentUser);
    ghost var before := svc.db;
    var created := svc.CreateAndStoreJob(resumeId, userId, uploads);
    match created {
      case Success(ids) =>
        IngestSuccessIds(before, before, resumeId, userId, uploads);
        r := Success(UploadResponse(UploadedMessage, ids));
      case Failure(ResumeMissing(message)) =>
        r := Failure(Plain(BadRequest, message));
      case Failure(ExtractionCrashed(message)) =>
        r := Failure(Plain(InternalServerError, message));
    }
  }

  /**
   * `get_job` as written: the 400 for an empty `job_id` is raised inside the `try` and the
   * catch-all turns it into the generic 500, and a job's processed row is read through the
   * service's detail view, whose AttributeError is the generic 500 too. `notFoundDetail` is the
   * text of the service's JobNotFoundError for a job id.
   */
  function GetJobAsWritten(d: Database, jobId: string, notFoundDetail: string -> string): (r: Result<JobRecord, HttpError>)
    ensures jobId == "" ==> r == Failure(Plain(InternalServerError, FetchJobError))
    ensures jobId != "" ==>
      ((r == Failure(Plain(NotFound, notFoundDetail(jobId)))) <==> (forall i | 0 <= i < |d.jobs| :: d.jobs[i].jobId != jobId))
    ensures r.Success? <==> jobId != "" && GetJobWithProcessedData(d, jobId).Success?
    ensures r.Success? ==> r.value == GetJobWithProcessedData(d, jobId).value && r.value.jobId == jobId
    ensures r.Failure? ==> r.error.status in {NotFound, InternalServerError}
  {
    if jobId == "" then Failure(Plain(InternalServerError, FetchJobError))
    else
      match GetJobWithProcessedData(d, jobId)
      case Success(record) => Success(record)
      case Failure(JobNotFound(id)) => Failure(Plain(NotFound, notFoundDetail(id)))
      case Failure(Crashed(_)) => Failure(Plain(InternalServerError, FetchJobError))
  }

  /**
   * `get_job` as intended: an empty `job_id` is a 400, an unknown one a 404, and a stored one its
   * record with the processed row read as stored; over the tables the service writes, nothing
   * else can happen.
   */
  function GetJob(d: Database, jobId: string, notFoundDetail: string -> string): (r: Result<JobRecord, HttpError>)
    ensures jobId == "" ==> r == Failure(Plain(BadRequest, JobIdRequired))
    ensures jobId != "" ==>
      ((r == Failure(Plain(NotFound, notFoundDetail(jobId)))) <==> (forall i | 0 <= i < |d.jobs| :: d.jobs[i].jobId != jobId))
    ensures r.Success? ==> r.value.jobId == jobId && jobId != ""
    ensures r.Success? ==> (r.value.processedJob.None? <==> jobId !in d.processed)
    ensures ValidDb(d) && jobId != "" ==> (r.Success? <==> exists i | 0 <= i < |d.jobs| :: d.jobs[i].jobId == jobId)
    ensures r.Failure? ==> r.error.status in {BadRequest, NotFound, InternalServerError}
  {
    if jobId == "" then Failure(Plain(BadRequest, JobIdRequired))
    else
      match GetJobAsStored(d, jobId)
      case Success(record) => Success(record)
      case Failure(JobNotFound(id)) => Failure(Plain(NotFound, notFoundDetail(id)))
      case Failure(Crashed(_)) => Failure(Plain(InternalServerError, FetchJobError))
  }

  /** The two readings differ on the empty job id, which the code answers with 500 instead of 400. */
  lemma EmptyJobIdSwallowed(d: Database, notFoundDetail: string -> string)
    ensures GetJobAsWritten(d, "", notFoundDetail).error.status == InternalServerError
    ensures GetJob(d, "", notFoundDetail).error.status == BadRequest
    ensures GetJobAsWritten(d, "", notFoundDetail) != GetJob(d, "", notFoundDetail)
  {
  }

  /**
   * They also differ on a job whose extraction gave a list of qualifications: the endpoint as
   * written answers the generic 500, the corrected one returns the job with that list.
   */
  lemma StoredListAnswered500(d: Database, jobId: string, notFoundDetail: string -> string)
    requires jobId != "" && exists i | 0 <= i < |d.jobs| :: d.jobs[i].jobId == jobId
    requires jobId in d.processed && d.processed[jobId] == Build(None, map["qualifications" := JArr([JStr("SQL")])])
    ensures GetJobAsWritten(d, jobId, notFoundDetail) == Failure(Plain(InternalServerError, FetchJobError))
    ensures GetJob(d, jobId, notFoundDetail).Success?
    ensures GetJob(d, jobId, notFoundDetail).value.processedJob.value["qualifications"] == JArr([JStr("SQL")])
  {
    var f := map["qualifications" := JArr([JStr("SQL")])];
    DetailRejectsStoredList();
    StoredJobReadsBack(d, jobId, None, f);
  }

  /** `get_jobs_for_resume`: the signed-in user's jobs linked to the resume, newest first; any failure is the generic 500. */
  method GetJobsForResume(svc: JobService, resumeId: string, currentUser: AuthService.User) returns (r: Result<seq<JobRecord>, HttpError>)
    ensures var listed := NewestFirst(svc.db, svc.db.jobs, OwnedAndLinked(UuidCodec.Canonical(currentUser.id),
                                                                          LinkedJobIds(svc.db.associations, resumeId)));
      (listed.Success? ==> r == Success(listed.value))
      && (listed.Failure? ==> r == Failure(Plain(InternalServerError, ResumeJobsError)))
  {
    var jobs := svc.GetJobsForResume(resumeId, UuidCodec.Canonical(currentUser.id));
    if jobs.Success? {
      r := Success(jobs.value);
    } else {
      r := Failure(Plain(InternalServerError, ResumeJobsError));
    }
  }

  /** `get_all_jobs_for_user`: every job the signed-in user uploaded, newest first; any failure is the generic 500. */
  method GetAllJobsForUser(svc: JobService, currentUser: AuthService.User) returns (r: Result<seq<JobRecord>, HttpError>)
    ensures var listed := NewestFirst(svc.db, svc.db.jobs, OwnedBy(UuidCodec.Canonical(currentUser.id)));
      (listed.Success? ==> r == Success(listed.value))
      && (listed.Failure? ==> r == Failure(Plain(InternalServerError, UserJobsError)))
  {
    var jobs := svc.GetAllJobsForUser(UuidCodec.Canonical(currentUser.id));
    if jobs.Success? {
      r := Success(jobs.value);
    } else {
      r := Failure(Plain(InternalServerError, UserJobsError));
    }
  }
}
