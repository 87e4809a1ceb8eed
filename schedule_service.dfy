/**
 * Generation of a learning schedule: the two lookups that must succeed before the agent is
 * asked, the bounded retry loop over the agent's outputs, and the keyword bullet lists the
 * prompt carries. The agent is a parameter: `run(i)` is what the i-th call returns or raises.
 */
module ScheduleService {
  import opened Wrappers
  import opened JsonData
  import Text
  import opened ScheduleSchema
  import JobStore

  /** The outcome of one agent call. */
  datatype AgentResult = Returned(output: Json) | Raised(message: string)

  /** The exceptions `generate_learning_schedule` lets escape. */
  datatype ScheduleError =
    | ResumeNotFound(message: string)
    | JobNotFound(message: string)
    | GenerationFailed(message: string)

  const DefaultMaxRetries := 3

  /**
   * The texts `str(e)` gives for the ResumeNotFoundError raised for a resume id and the
   * JobNotFoundError raised for a job id; the exception classes are not part of this model.
   */
  datatype NotFoundTexts = NotFoundTexts(resume: string -> string, job: string -> string)

  const ListMessage := "AI consistently returns invalid format (list instead of object). Please check the prompt and JSON schema."

  const ExhaustedMessage := "Failed to generate learning schedule after maximum retries"

  function ValidationMessage(maxRetries: int, error: string): string {
    "Failed to generate valid learning schedule after " + Text.IntToString(maxRetries) + " attempts. Validation error: " + error
  }

  function UnexpectedMessage(error: string): string {
    "Unexpected error during schedule generation: " + error
  }

  // ----- one attempt -----

  /** An object carrying a `learning_schedule` key stands for that key's value. */
  function Unwrap(o: Json): (r: Json)
    ensures o.JObj? && "learning_schedule" in o.fields ==> r == o.fields["learning_schedule"]
    ensures !(o.JObj? && "learning_schedule" in o.fields) ==> r == o
  {
    if o.JObj? && "learning_schedule" in o.fields then o.fields["learning_schedule"] else o
  }

  /**
   * What validating an attempt's unwrapped output with `validate` gives; a raised error gives
   * nothing to validate. The service validates with `ScheduleSchema.ParseSchedule`.
   */
  function Validated(a: AgentResult, validate: Json -> Result<LearningScheduleModel, string>): Result<LearningScheduleModel, string> {
    if a.Raised? then Failure(a.message) else validate(Unwrap(a.output))
  }

  /** An attempt ends the loop with a schedule: the unwrapped output is not a list and validates. */
  predicate Accepts(a: AgentResult, validate: Json -> Result<LearningScheduleModel, string>) {
    a.Returned? && !Unwrap(a.output).JArr? && Validated(a, validate).Success?
  }

  /** The error an attempt that is not accepted raises when it is the last one. */
  function LastError(a: AgentResult, validate: Json -> Result<LearningScheduleModel, string>, maxRetries: int): (e: ScheduleError)
    requires !Accepts(a, validate)
    ensures e.GenerationFailed?
  {
    match a
    case Raised(msg) => GenerationFailed(UnexpectedMessage(msg))
    case Returned(o) =>
      if Unwrap(o).JArr? then GenerationFailed(ListMessage)
      else GenerationFailed(ValidationMessage(maxRetries, Validated(a, validate).error))
  }

  /**
   * The loop from `attempt` on: the schedule or error it ends with, and how many agent calls
   * it makes. A schedule comes from the last call made, which was accepted.
   */
  function Attempts(run: nat -> AgentResult, validate: Json -> Result<LearningScheduleModel, string>, attempt: nat, maxRetries: int)
    : (r: (Result<LearningScheduleModel, ScheduleError>, nat))
    ensures r.1 <= (if attempt < maxRetries then maxRetries - attempt else 0)
    decreases if attempt < maxRetries then maxRetries - attempt else 0
  {
    if attempt >= maxRetries then (Failure(GenerationFailed(ExhaustedMessage)), 0)
    else if Accepts(run(attempt), validate) then (Success(Validated(run(attempt), validate).value), 1)
    else if attempt == maxRetries - 1 then (Failure(LastError(run(attempt), validate, maxRetries)), 1)
    else
      var rest := Attempts(run, validate, attempt + 1, maxRetries);
      (rest.0, rest.1 + 1)
  }

  /**
   * Every error the loop ends with is a generation error, and a schedule it ends with is the
   * validated output of the last call it made, which was accepted.
   */
  lemma {:induction false} AttemptsOutcome(
    run: nat -> AgentResult, validate: Json -> Result<LearningScheduleModel, string>, attempt: nat, maxRetries: int)
    ensures var r := Attempts(run, validate, attempt, maxRetries);
      && (r.0.Failure? ==> r.0.error.GenerationFailed?)
      && (r.0.Success? ==> r.1 >= 1 && Accepts(run(attempt + r.1 - 1), validate)
                           && r.0.value == Validated(run(attempt + r.1 - 1), validate).value)
    decreases if attempt < maxRetries then maxRetries - attempt else 0
  {
    if attempt < maxRetries && !Accepts(run(attempt), validate) && attempt != maxRetries - 1 {
      AttemptsOutcome(run, validate, attempt + 1, maxRetries);
    }
  }

  /**
   * `generate_learning_schedule`: both processed rows must exist before any agent call. The
   * service validates with `ScheduleSchema.ParseSchedule` (see `GeneratedScheduleValid`).
   */
  function Generate(db: JobStore.Database, request: LearningScheduleRequest, maxRetries: int,
                    run: nat -> AgentResult, validate: Json -> Result<LearningScheduleModel, string>, texts: NotFoundTexts)
    : (r: (Result<LearningScheduleModel, ScheduleError>, nat))
    ensures request.resumeId !in db.processedResumes ==> r == (Failure(ResumeNotFound(texts.resume(request.resumeId))), 0)
    ensures request.resumeId in db.processedResumes && request.jobId !in db.processed ==>
      r == (Failure(JobNotFound(texts.job(request.jobId))), 0)
    ensures r.1 <= (if maxRetries > 0 then maxRetries else 0)
  {
    if request.resumeId !in db.processedResumes then (Failure(ResumeNotFound(texts.resume(request.resumeId))), 0)
    else if request.jobId !in db.processed then (Failure(JobNotFound(texts.job(request.jobId))), 0)
    else Attempts(run, validate, 0, maxRetries)
  }

  /** A schedule the service returns satisfies every constraint of the schema. */
  lemma GeneratedScheduleValid(db: JobStore.Database, request: LearningScheduleRequest, maxRetries: int, run: nat -> AgentResult,
                               texts: NotFoundTexts)
    ensures var r := Generate(db, request, maxRetries, run, ParseSchedule, texts);
      r.0.Success? ==> ValidSchedule(r.0.value)
  {
    GenerateValid(db, request, maxRetries, run, ParseSchedule, texts);
  }

  /** With a validator whose every schedule is valid, every schedule the service returns is valid. */
  lemma GenerateValid(db: JobStore.Database, request: LearningScheduleRequest, maxRetries: int,
                      run: nat -> AgentResult, validate: Json -> Result<LearningScheduleModel, string>, texts: NotFoundTexts)
    requires forall j :: validate(j).Success? ==> ValidSchedule(validate(j).value)
    ensures var r := Generate(db, request, maxRetries, run, validate, texts);
      r.0.Success? ==> ValidSchedule(r.0.value)
  {
    var r := Generate(db, request, maxRetries, run, validate, texts);
    AttemptsOutcome(run, validate, 0, maxRetries);
    if r.0.Success? {
      var a := run(r.1 - 1);
      assert Accepts(a, validate);
      assert validate(Unwrap(a.output)).Success?;
    }
  }

  /** The service call, as the loop it is; it makes exactly the calls the specification counts. */
  method GenerateLearningSchedule(db: JobStore.Database, request: LearningScheduleRequest, maxRetries: int,
                                  run: nat -> AgentResult, validate: Json -> Result<LearningScheduleModel, string>,
                                  texts: NotFoundTexts)
    returns (r: Result<LearningScheduleModel, ScheduleError>, calls: nat)
    ensures (r, calls) == Generate(db, request, maxRetries, run, validate, texts)
  {
    if request.resumeId !in db.processedResumes {
      return Failure(ResumeNotFound(texts.resume(request.resumeId))), 0;
    }
    if request.jobId !in db.processed {
      return Failure(JobNotFound(texts.job(request.jobId))), 0;
    }
    r, calls := RetryLoop(run, validate, maxRetries);
  }

  /** The retry loop: it makes exactly the calls `Attempts` counts and ends as `Attempts` says. */
  method RetryLoop(run: nat -> AgentResult, validate: Json -> Result<LearningScheduleModel, string>, maxRetries: int)
    returns (r: Result<LearningScheduleModel, ScheduleError>, calls: nat)
    ensures (r, calls) == Attempts(run, validate, 0, maxRetries)
  {
    var attempt: nat := 0;
    calls := 0;
    while attempt < maxRetries
      invariant calls == attempt
      invariant attempt <= maxRetries || attempt == 0
      invariant Attempts(run, validate, 0, maxRetries)
        == (Attempts(run, validate, attempt, maxRetries).0, Attempts(run, validate, attempt, maxRetries).1 + attempt)
      decreases maxRetries - attempt
    {
      var done, outcome := TryAttempt(run(attempt), validate, attempt == maxRetries - 1, maxRetries);
      calls := calls + 1;
      if done {
        return outcome, calls;
      }
      attempt := attempt + 1;
    }
    return Failure(GenerationFailed(ExhaustedMessage)), calls;
  }

  /**
   * One pass of the retry loop's body: an accepted output ends the loop with its schedule, and
   * so does any failure on the last attempt, with the error that attempt raises.
   */
  method TryAttempt(result: AgentResult, validate: Json -> Result<LearningScheduleModel, string>, last: bool, maxRetries: int)
    returns (done: bool, r: Result<LearningScheduleModel, ScheduleError>)
    ensures done <==> Accepts(result, validate) || last
    ensures done && Accepts(result, validate) ==> r == Success(Validated(result, validate).value)
    ensures done && !Accepts(result, validate) ==> r == Failure(LastError(result, validate, maxRetries))
  {
    r := Failure(GenerationFailed(ExhaustedMessage));
    if result.Returned? {
      var output := Unwrap(result.output);
      if output.JArr? {
        if last {
          return true, Failure(GenerationFailed(ListMessage));
        }
      } else {
        var validated := validate(output);
        if validated.Success? {
          return true, Success(validated.value);
        }
        if last {
          return true, Failure(GenerationFailed(ValidationMessage(maxRetries, validated.error)));
        }
      }
    } else if last {
      return true, Failure(GenerationFailed(UnexpectedMessage(result.message)));
    }
    done := false;
  }

  // ----- properties of the loop -----

  /** With no retries allowed the agent is never called. */
  lemma NoRetriesNoCalls(run: nat -> AgentResult, validate: Json -> Result<LearningScheduleModel, string>, maxRetries: int)
    requires maxRetries <= 0
    ensures Attempts(run, validate, 0, maxRetries) == (Failure(GenerationFailed(ExhaustedMessage)), 0)
  {
  }

  /** The first accepted output within the allowed attempts is the one returned, after exactly that many calls. */
  lemma {:induction false} FirstAcceptedReturned(
    run: nat -> AgentResult, validate: Json -> Result<LearningScheduleModel, string>, attempt: nat, maxRetries: int, k: nat)
    requires attempt <= k < maxRetries
    requires forall i | attempt <= i < k :: !Accepts(run(i), validate)
    requires Accepts(run(k), validate)
    ensures Attempts(run, validate, attempt, maxRetries) == (Success(Validated(run(k), validate).value), k - attempt + 1)
    decreases k - attempt
  {
    if attempt < k {
      FirstAcceptedReturned(run, validate, attempt + 1, maxRetries, k);
    }
  }

  /** When no attempt is accepted, all of them are made and the last one decides the error. */
  lemma {:induction false} NoneAccepted(
    run: nat -> AgentResult, validate: Json -> Result<LearningScheduleModel, string>, attempt: nat, maxRetries: int)
    requires attempt < maxRetries
    requires forall i | attempt <= i < maxRetries :: !Accepts(run(i), validate)
    ensures Attempts(run, validate, attempt, maxRetries)
      == (Failure(LastError(run(maxRetries - 1), validate, maxRetries)), maxRetries - attempt)
    decreases maxRetries - attempt
  {
    if attempt < maxRetries - 1 {
      NoneAccepted(run, validate, attempt + 1, maxRetries);
    }
  }

  /** A list is never accepted, wrapped or not; a wrapped valid schedule is accepted and returned as is. */
  lemma WrappingAndLists(xs: seq<Json>, m: LearningScheduleModel)
    requires ValidSchedule(m)
    ensures !Accepts(Returned(JArr(xs)), ParseSchedule)
    ensures !Accepts(Returned(JObj(map["learning_schedule" := JArr(xs)])), ParseSchedule)
    ensures Accepts(Returned(JObj(map["learning_schedule" := ScheduleToJson(m)])), ParseSchedule)
    ensures Validated(Returned(JObj(map["learning_schedule" := ScheduleToJson(m)])), ParseSchedule) == Success(m)
    ensures LastError(Returned(JArr(xs)), ParseSchedule, DefaultMaxRetries) == GenerationFailed(ListMessage)
  {
    ScheduleRoundTrip(m);
  }

  // ----- keyword bullets -----

  /** Every keyword on its own line after "- ", the lines joined by newlines. */
  function KeywordBullets(keywords: seq<string>): (r: string)
    ensures keywords == [] ==> r == ""
  {
    Text.Join(seq(|keywords|, i requires 0 <= i < |keywords| => "- " + keywords[i]), "\n")
  }

  /** The bullet text splits back into one "- kw" line per keyword, in order, when no keyword holds a newline. */
  lemma BulletLines(keywords: seq<string>)
    requires keywords != []
    requires forall i | 0 <= i < |keywords| :: '\n' !in keywords[i]
    ensures |Text.Split(KeywordBullets(keywords), '\n')| == |keywords|
    ensures forall i | 0 <= i < |keywords| :: Text.Split(KeywordBullets(keywords), '\n')[i] == "- " + keywords[i]
  {
    var lines := seq(|keywords|, i requires 0 <= i < |keywords| => "- " + keywords[i]);
    forall i | 0 <= i < |lines| ensures '\n' !in lines[i] {
      assert lines[i] == "- " + keywords[i];
    }
    Text.SplitJoin(lines, '\n');
  }

  /**
   * The job's keywords as the service renders them: the column holds the JSON text of the
   * wrapped keyword object, and iterating a text iterates its characters.
   */
  function JobKeywordsAsWritten(column: Option<string>): (r: string)
    ensures column == None || column == Some("") ==> r == ""
  {
    var text := if column.Some? then column.value else "";
    KeywordBullets(seq(|text|, i requires 0 <= i < |text| => [text[i]]))
  }

  /** The column text of a job whose only keyword is "Python" renders as one bullet per character, starting with "- {". */
  lemma JobKeywordsCharacterBullets()
    ensures var column := "{\"extracted_keywords\": [\"Python\"]}";
      Text.Split(JobKeywordsAsWritten(Some(column)), '\n')[0] == "- {"
      && |Text.Split(JobKeywordsAsWritten(Some(column)), '\n')| == |column|
      && JobKeywordsAsWritten(Some(column)) != KeywordBullets(["Python"])
  {
    var column := "{\"extracted_keywords\": [\"Python\"]}";
    var chars := seq(|column|, i requires 0 <= i < |column| => [column[i]]);
    BulletLines(chars);
    assert chars[0] == "{";
    Text.SplitJoin(["- Python"], '\n');
    assert KeywordBullets(["Python"]) == Text.Join(["- Python"], "\n");
  }

  /** The keywords a processed job holds: the string items of its unwrapped keyword list. */
  function JobKeywords(p: JobStore.ProcessedJob): (r: seq<string>)
  {
    match JobStore.Unwrapped(p.extractedKeywords, "extracted_keywords")
    case Success(JArr(items)) => StringItems(items)
    case _ => []
  }

  function StringItems(items: seq<Json>): (r: seq<string>)
    ensures |r| <= |items|
    ensures (forall i | 0 <= i < |items| :: items[i].JStr?) ==> |r| == |items| && forall i | 0 <= i < |items| :: items[i] == JStr(r[i])
  {
    if items == [] then []
    else
      var rest := StringItems(items[1..]);
      if items[0].JStr? then [items[0].s] + rest else rest
  }

  /** The job keywords the prompt should carry: bullets of the keywords extracted from the description. */
  function JobKeywordsText(p: JobStore.ProcessedJob): string {
    KeywordBullets(JobKeywords(p))
  }

  /** A job stored from an extraction whose keywords are strings renders exactly those keywords. */
  lemma StoredKeywordsRendered(userId: Option<string>, f: map<string, Json>, keywords: seq<string>)
    requires "extracted_keywords" in f
    requires f["extracted_keywords"] == JArr(seq(|keywords|, i requires 0 <= i < |keywords| => JStr(keywords[i])))
    ensures JobKeywords(JobStore.Build(userId, f)) == keywords
    ensures JobKeywordsText(JobStore.Build(userId, f)) == KeywordBullets(keywords)
  {
    var items := f["extracted_keywords"].items;
    var r := StringItems(items);
    assert |r| == |keywords|;
    assert forall i | 0 <= i < |keywords| :: items[i] == JStr(keywords[i]) && items[i] == JStr(r[i]);
    assert r == keywords;
  }
}
