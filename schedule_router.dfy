/** The schedule endpoint: the service's exceptions mapped to HTTP statuses. */
module ScheduleRouter {
  import opened Wrappers
  import opened JsonData
  import opened Http
  import JobStore
  import opened ScheduleSchema
  import opened ScheduleService

  const FailurePrefix := "Failed to generate learning schedule: "
  const GenericDetail := "An unexpected error occurred while generating the learning schedule."

  /** What escapes the endpoint's `try` block: one of the service's exceptions, or any other error. */
  datatype Escaped = Service(error: ScheduleError) | Other(message: string)

  /** The exception-to-status table of `generate_learning_schedule`. */
  function Respond(outcome: Result<LearningScheduleModel, Escaped>): (r: Result<LearningScheduleModel, HttpError>)
    ensures outcome.Success? ==> r == Success(outcome.value)
    ensures outcome.Failure? && outcome.error.Service? && !outcome.error.error.GenerationFailed? ==>
      r == Failure(Plain(NotFound, outcome.error.error.message))
    ensures outcome.Failure? && outcome.error.Service? && outcome.error.error.GenerationFailed? ==>
      r == Failure(Plain(InternalServerError, FailurePrefix + outcome.error.error.message))
    ensures outcome.Failure? && outcome.error.Other? ==> r == Failure(Plain(InternalServerError, GenericDetail))
  {
    match outcome
    case Success(m) => Success(m)
    case Failure(Service(ResumeNotFound(msg))) => Failure(Plain(NotFound, msg))
    case Failure(Service(JobNotFound(msg))) => Failure(Plain(NotFound, msg))
    case Failure(Service(GenerationFailed(msg))) => Failure(Plain(InternalServerError, FailurePrefix + msg))
    case Failure(Other(_)) => Failure(Plain(InternalServerError, GenericDetail))
  }

  /**
   * The endpoint: the service with its default of 3 retries, validating with the schema, then
   * the table above. A missing processed resume or job is a 404 with the service's text, before
   * the agent is called; every other failure is a 500 with the prefixed service message.
   */
  function GenerateEndpoint(db: JobStore.Database, request: LearningScheduleRequest, run: nat -> AgentResult, texts: NotFoundTexts)
    : (r: Result<LearningScheduleModel, HttpError>)
    ensures request.resumeId !in db.processedResumes ==> r == Failure(Plain(NotFound, texts.resume(request.resumeId)))
    ensures request.resumeId in db.processedResumes && request.jobId !in db.processed ==>
      r == Failure(Plain(NotFound, texts.job(request.jobId)))
    ensures request.resumeId in db.processedResumes && request.jobId in db.processed && r.Failure? ==>
      r.error.status == InternalServerError && FailurePrefix <= r.error.detail
  {
    var outcome := Generate(db, request, DefaultMaxRetries, run, ParseSchedule, texts).0;
    AttemptsOutcome(run, ParseSchedule, 0, DefaultMaxRetries);
    Respond(match outcome
            case Success(m) => Success(m)
            case Failure(e) => Failure(Service(e)))
  }

  /** A schedule the endpoint returns satisfies every constraint of the schema. */
  lemma EndpointScheduleValid(db: JobStore.Database, request: LearningScheduleRequest, run: nat -> AgentResult, texts: NotFoundTexts)
    ensures GenerateEndpoint(db, request, run, texts).Success? ==> ValidSchedule(GenerateEndpoint(db, request, run, texts).value)
  {
    GeneratedScheduleValid(db, request, DefaultMaxRetries, run, texts);
  }
}
