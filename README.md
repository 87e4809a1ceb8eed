# Resume Matcher — a verified model of its core

Resume Matcher compares a candidate's resume with job descriptions, suggests improvements and
builds a learning schedule for the skills a job asks for. This project models the parts of the
system that decide things, and proves what they promise:

- the backend authentication (`auth_schema`, `auth_service`, `auth_dependencies`, `auth_router`):
  request and response validation, a user registry with unique emails, password login with one
  failure message for every cause, the claims of access tokens and their decoding, and the
  optional and required current-user dependencies;
- UUID text forms (`uuid_codec`), as the `users.id` column writes and reads them;
- the API-key setting in the `.env` file (`env_config`);
- the job service and its endpoints (`job_store`, `job_router`): storing uploaded job
  descriptions with their structured extraction, linking them to a resume, listing a user's jobs
  newest first, and the detail view;
- the learning schedule (`schedule_schema`, `schedule_service`, `schedule_router`): the schema a
  generated schedule must satisfy, the retry loop around the generator, and the HTTP statuses;
- the browser side: the token and user kept in `localStorage` and logout (`auth_client`), the
  account menu (`user_menu`), the job tabs of the upload page (`job_tabs`), the resume and job
  previews (`resume_preview`, `job_preview`), the insights panel (`job_listings`), the schedule
  page (`schedule_display`), the comparison card (`comparison_card`) and the two pickers
  (`picker`, `job_selector`, `resume_selector`).

Shared helpers: `wrappers` (Option and Result), `text` (trimming, splitting, joining, decimal
text), `json` (JSON values with Python and JavaScript truthiness, the text `String(x)` and a
React child give a value, and a string-literal codec),
`http` (HTTP errors), `seqs` (the first element with a given key, as a query's `.first()` returns
it and, for a unique column such as `users.email`, as `scalar_one_or_none()` does; and reversal).

Code that changes state step by step is modelled imperatively: the user registry, the job
database, the browser storage, the menus, cards, tabs and pickers are classes whose methods
state their new state, and the loops (the schedule retries, the `.env` rewrite, the skills
grouping) are methods with invariants. Code that only computes a value is modelled by functions
and lemmas. Hashing, token signing, JSON parsing of foreign text, the language model, the clock,
fresh ids and the network are parameters.

## Model

| member | source | states |
|---|---|---|
| UuidCodec.Hex | apps/backend/app/models/user.py:32 | `uuid.hex` is 32 lower-case hexadecimal digits, one per nibble, with no separators |
| UuidCodec.Canonical | apps/backend/app/models/user.py:27 | `str(uuid)`, the 8-4-4-4-12 form of section 3 of RFC 4122, is 36 characters long |
| UuidCodec.StripBraces | apps/backend/app/models/user.py:30 | the braces `uuid.UUID` strips are removed at both ends only, and the result has no brace at either end |
| UuidCodec.Parse | apps/backend/app/models/user.py:30 | `uuid.UUID(text)`: after every `urn:` and `uuid:` is removed, outer braces are stripped and hyphens dropped, it succeeds exactly when 32 characters remain and `int(text, 16)` reads them; the UUID is the digits read, right-aligned after leading zeros |
| UuidCodec.FromHex | apps/backend/app/models/user.py:30-32 | 32 characters denote a UUID exactly when each is a hex digit, and then that UUID's hex form is their lower-case spelling |
| UuidCodec.PlainDigits | apps/backend/app/models/user.py:30 | when the digits left are 32 plain hex digits, parsing succeeds and gives the UUID whose hex form is their lower-case spelling |
| UuidCodec.PrefixedDigitsAccepted | apps/backend/app/models/user.py:30 | `int(text, 16)` also reads a `0x` prefix: `0x` and 30 hex digits parse, as a UUID whose first two digits are zero |
| UuidCodec.FromHexHex | apps/backend/app/models/user.py:32 | reading a UUID's own 32 hex digits gives that UUID back |
| UuidCodec.ParseHex | apps/backend/app/models/user.py:30-32 | parsing the 32-digit form of a UUID gives the UUID back |
| UuidCodec.CanonicalDigits | apps/backend/app/models/user.py:27 | dropping the hyphens of the canonical form leaves exactly the 32 hex digits |
| UuidCodec.ParseCanonical | apps/backend/app/models/user.py:27-39 | parsing the canonical form of a UUID gives the UUID back |
| UuidCodec.LoadDialectImpl | apps/backend/app/models/user.py:17-21 | PostgreSQL gets its native UUID type and every other dialect CHAR(32), whose width is the length of the hex form |
| UuidCodec.BindParam | apps/backend/app/models/user.py:23-32 | `None` binds to `None`; on PostgreSQL a UUID binds to its canonical text and a string is passed on as it is; elsewhere a UUID binds to its hex digits, and a string is parsed first and refused when it is not a UUID |
| UuidCodec.ResultValue | apps/backend/app/models/user.py:34-41 | `None` reads back as `None`, a UUID object is passed through, and a string is read as `uuid.UUID` reads it, failing exactly where that raises |
| UuidCodec.BindThenRead | apps/backend/app/models/user.py:23-41 | on every dialect, reading back what a UUID was bound as yields the same UUID |
| UuidCodec.StringBindsLikeUuid | apps/backend/app/models/user.py:28-32 | on CHAR(32) a well-formed UUID string binds to the same 32 digits as the UUID it denotes |
| EnvConfig.LookupLines | apps/backend/app/api/router/v1/config.py:24 | a key has a value in a list of lines exactly when some line starts with `key=` |
| EnvConfig.RewriteLines | apps/backend/app/api/router/v1/config.py:21-28 | the loop replaces each line starting with `key=` by `key=value`, keeps every other line, and `updated` holds exactly when some line matched |
| EnvConfig.CurrentKey | apps/backend/app/api/router/v1/config.py:42-48 | the setting when it is non-empty; otherwise `LLM_API_KEY` when set and non-empty; otherwise `OPENAI_API_KEY` when set and non-empty; otherwise ""; the result is always one of these |
| EnvConfig.Deployment.GetLlmApiKey | apps/backend/app/api/router/v1/config.py:38-48 | the key reported by `GET` is empty or one of the setting, `LLM_API_KEY` and `OPENAI_API_KEY`, chosen as `CurrentKey` states; after an update it is the new value |
| EnvConfig.Deployment.WriteEnvValue | apps/backend/app/api/router/v1/config.py:15-35 | the file becomes the rewritten lines, plus the entry when no line matched, joined by newlines with one trailing newline; the setting and the environment do not change |
| EnvConfig.Deployment.UpdateLlmApiKey | apps/backend/app/api/router/v1/config.py:51-62 | a missing key becomes ""; the same value is written under `LLM_API_KEY` and then `OPENAI_API_KEY` in the file, into the setting and into both environment variables, it is returned, and the GET endpoint then reports it |
| EnvConfig.ReadBackLines | apps/backend/app/api/router/v1/config.py:19-33 | splitting the written text into lines gives back exactly the updated lines |
| EnvConfig.WriteThenLookup | apps/backend/app/api/router/v1/config.py:15-35 | after a write, looking the key up in the file yields the new value |
| EnvConfig.UpdatedAssigns | apps/backend/app/api/router/v1/config.py:23-31 | after the rewrite at least one line assigns the key |
| EnvConfig.OtherLinesKept | apps/backend/app/api/router/v1/config.py:23-31 | lines not starting with `key=` keep their place, matching lines become `key=value`, and the line count stays the same exactly when the key was present and otherwise grows by the one entry at the end |
| EnvConfig.NewFile | apps/backend/app/api/router/v1/config.py:17-33 | with no `.env` file the written text is just `key=value` and a newline |
| EnvConfig.WriteIdempotent | apps/backend/app/api/router/v1/config.py:15-35 | writing the same key and value twice leaves the text of a single write |
| EnvConfig.WritePreservesOtherKeys | apps/backend/app/api/router/v1/config.py:23-28 | a key neither of whose names extends the other reads the same value before and after the write |
| AuthService.UserByEmail | apps/backend/app/services/auth_service.py:86-91 | the user with the requested email, and none exactly when no user has it; `scalar_one_or_none()` would raise on two matches, and with unique emails (`UniqueUsers`, user.py:49) every user with that email is the one returned, which is the first match of the shared `Seqs.FirstWith` lookup |
| AuthService.UserByOwnEmail | apps/backend/app/models/user.py:49 | with unique emails, every registered user is found by its own email |
| AuthService.Authenticate | apps/backend/app/services/auth_service.py:140-166 | login succeeds exactly when a user has the email and `verify` accepts the password against its stored hash; it returns that user; unknown email and wrong password fail with the same "Invalid email or password" |
| AuthService.UserStore.RegisterUser | apps/backend/app/services/auth_service.py:101-138 | a taken email raises UserAlreadyExistsError with its message and changes nothing; otherwise exactly one user is added, storing the hash of the password and not the password; emails and ids stay unique |
| AuthService.RegisteredCanLogIn | apps/backend/app/services/auth_service.py:125-166 | a newly registered user logs in with the registered password whenever `verify` accepts a password against its own hash |
| AuthService.Claims | apps/backend/app/services/auth_service.py:68-77 | the caller's claims are kept and only `exp` is added: now plus the given lifetime, or plus the configured minutes when the lifetime is absent or zero; `CreateAccessToken` signs exactly these claims |
| AuthService.ClaimedUserId | apps/backend/app/services/auth_service.py:188-189 | a falsy `user_id` claim gives no id; a non-empty string gives an id exactly when it parses as a UUID, and then that id |
| AuthService.DecodeToken | apps/backend/app/services/auth_service.py:168-198 | a token the decoder rejects fails with "Invalid token: …"; every other failure has the "Token decode error: " prefix; a missing `sub` with a readable `user_id` fails with "Invalid token payload"; success happens exactly when `sub` is a string and `user_id` reads, and yields both |
| JsonData.StringField | apps/backend/app/schemas/pydantic/auth.py:13-25 | a required `str` field of a pydantic model (the auth and learning-schedule schemas alike) validates exactly when it is present and a string, and gives that string |
| AuthSchema.OptionalString | apps/backend/app/schemas/pydantic/auth.py:31-56 | an optional string field left out or null is `None` |
| AuthSchema.DefaultedString | apps/backend/app/schemas/pydantic/auth.py:26-49 | a defaulted string field left out takes the default, and a present one must be a string |
| AuthSchema.UuidField | apps/backend/app/schemas/pydantic/auth.py:29-40 | a UUID field validates exactly when it is a string pydantic reads as a UUID, and gives the UUID it reads |
| AuthSchema.PydanticWithinPython | apps/backend/app/schemas/pydantic/auth.py:29-40 | every text pydantic reads as a UUID (32 digits, the 8-4-4-4-12 layout, that layout in braces, or after `urn:uuid:`) is read the same way by `uuid.UUID` |
| AuthSchema.PydanticCanonical | apps/backend/app/schemas/pydantic/auth.py:35-37 | the canonical text of a UUID, as `UserResponse.id` is written, is read back as that UUID |
| AuthSchema.BarePrefixRefused | apps/backend/app/schemas/pydantic/auth.py:29-40 | the two grammars differ: `uuid:` and 32 digits is a UUID for `uuid.UUID` but is refused by pydantic |
| AuthSchema.ParseRegister | apps/backend/app/schemas/pydantic/auth.py:10-14 | a registration validates exactly when the email passes the email validator, the password has at least 6 characters and the name at least 1; the email kept is the validator's normalised form |
| AuthSchema.ParseLogin | apps/backend/app/schemas/pydantic/auth.py:17-20 | a login validates exactly when the email passes the email validator and the password is a string of any length; the email kept is the normalised form |
| AuthSchema.RegisterStricterThanLogin | apps/backend/app/schemas/pydantic/auth.py:13-20 | a body any login accepts is refused for registration exactly when the password is shorter than 6 characters |
| AuthSchema.ParseToken | apps/backend/app/schemas/pydantic/auth.py:23-26 | validates exactly when the body is an object with a string `access_token` and a `token_type` that is absent or a string; the token is that `access_token` and the type the given one or "bearer" |
| AuthSchema.ParseTokenData | apps/backend/app/schemas/pydantic/auth.py:29-32 | validates exactly when `email` is absent, null or a string and `user_id` is absent, null or text pydantic reads as a UUID; the email is kept as read, and the id is none exactly when `user_id` is absent or null, else the UUID read |
| AuthSchema.ParseUserResponse | apps/backend/app/schemas/pydantic/auth.py:35-40 | a user document validates exactly when it is an object whose `id` is a UUID by pydantic's reading and whose `email`, `name` and `created_at` are strings; the record holds exactly those values |
| AuthSchema.ParseUserWithToken | apps/backend/app/schemas/pydantic/auth.py:45-49 | validates exactly when `user` is a valid user response, `access_token` a string and `token_type` absent or a string; the result holds that user, that token and the given type or "bearer" |
| AuthSchema.TokenRoundTrip | apps/backend/app/schemas/pydantic/auth.py:23-26 | a token response read back from its dump is unchanged |
| AuthSchema.TokenDataRoundTrip | apps/backend/app/schemas/pydantic/auth.py:29-32 | token data dumped with null for absent fields and the canonical id text reads back unchanged |
| AuthSchema.UserWithTokenRoundTrip | apps/backend/app/schemas/pydantic/auth.py:45-49 | a user-with-token response read back from its dump is unchanged |
| AuthSchema.ParseAuthCheck | apps/backend/app/schemas/pydantic/auth.py:52-56 | `authenticated` is required and read in lax mode (a boolean, 0 or 1, or one of the words pydantic accepts), failing otherwise; `user` and `message` are `None` exactly when absent or null |
| AuthSchema.UserResponseRoundTrip | apps/backend/app/schemas/pydantic/auth.py:35-40 | a user response survives serialisation and validation unchanged |
| AuthSchema.GuestCheckDefaults | apps/backend/app/schemas/pydantic/auth.py:52-56 | the guest answer without a user validates with `user` defaulted to `None` |
| JsonData.LaxBool | apps/backend/app/schemas/pydantic/auth.py:55 | pydantic's lax boolean: a boolean, the numbers 0 and 1, or a string whose lower case is one of `1 t y on yes true` or `0 f n no off false`; nothing else (white space is not stripped, see Left out) |
| JsonData.LaxBoolText | apps/backend/app/schemas/pydantic/auth.py:55 | the texts `true`, `false`, `True` and `False` are read as the booleans they name |
| JsonData.LaxInt | apps/backend/app/schemas/pydantic/learning_schedule.py:51 | pydantic's lax integer: a number, a boolean as 1 or 0, or a string of decimal digits with an optional sign; nothing else (see Left out for the forms it refuses) |
| JsonData.LaxIntText | apps/backend/app/schemas/pydantic/learning_schedule.py:51 | the decimal text of any integer is read as that integer |
| JsonData.JsxChild | apps/frontend/components/dashboard/job-preview.tsx:58-62 | React renders a JSX child null or boolean as nothing and an object by throwing "Objects are not valid as a React child" |
| JsonData.JsxChildOf | apps/frontend/components/dashboard/job-preview.tsx:58 | an absent child renders as nothing; a present one renders exactly when it holds no object, and otherwise throws React's object error |
| JsonData.JsxChildFails | apps/frontend/components/dashboard/job-preview.tsx:98-100 | a value renders as a child exactly when it holds no object at any depth, and otherwise throws React's object error |
| JsonData.JsxChildAgainstString | apps/frontend/components/dashboard/job-preview.tsx:47-62 | strings and numbers render as a child exactly as `String(x)` writes them; `true` renders as nothing where `String` gives "true", and two strings in an array render without the comma `String` puts between them |
| Text.TrimSlice | apps/frontend/components/jd-upload/text-area.tsx:153 | what `trim()` keeps is one slice of the text, and only whitespace lies before and after it |
| AuthDependencies.CurrentUserOptional | apps/backend/app/core/auth_dependencies.py:18-34 | no credentials or a token that does not decode gives `None`; a user it returns is the registered user with the token's email |
| AuthDependencies.CurrentUserRequired | apps/backend/app/core/auth_dependencies.py:37-69 | no credentials gives 401 "Not authenticated", an invalid token 401 "Invalid authentication credentials", and a valid token for an unknown email 401 "User not found", all with the bearer challenge; it succeeds exactly when the optional dependency finds a user, and with that user |
| AuthRouter.ResponseOf | apps/backend/app/api/router/v1/auth.py:55-116 | the response carries the user's id, email and name |
| AuthRouter.Register | apps/backend/app/api/router/v1/auth.py:28-63 | a new email answers 201 with the user and a bearer token signed over `sub` = email and `user_id` = `str(id)`; a taken email answers 400 with the service's message and the registry is unchanged |
| AuthRouter.Login | apps/backend/app/api/router/v1/auth.py:66-100 | login succeeds exactly when the service authenticates, with the user of that email and a bearer token; failure is 401 with the bearer challenge and the uniform message |
| AuthRouter.Me | apps/backend/app/api/router/v1/auth.py:103-116 | the current user's data, or the required dependency's 401 unchanged |
| AuthRouter.CheckAuth | apps/backend/app/api/router/v1/auth.py:119-140 | authenticated with the user exactly when the optional dependency finds one; otherwise not authenticated, no user, "Using as guest" |
| AuthRouter.IssuedTokenDecodes | apps/backend/app/api/router/v1/auth.py:50-88 | when `decode` inverts `encode`, an issued token decodes to the user's email and id, the `str(id)` text parsing back to the id |
| AuthRouter.IssuedTokenAuthenticates | apps/backend/app/core/auth_dependencies.py:29-63 | with unique emails and `decode` inverting `encode`, presenting an issued token makes both dependencies find that user, and the check endpoint reports authenticated |
| JobStore.Stored | apps/backend/app/services/job_service.py:159-183 | a document column is written exactly when the extracted value is truthy |
| JobStore.StoredWrapped | apps/backend/app/services/job_service.py:168-188 | `key_responsibilities` and `extracted_keywords` are written, wrapped in an object under their own key, exactly when the extracted value is truthy |
| JobStore.Build | apps/backend/app/services/job_service.py:155-189 | the processed row stored for an extraction is well formed and keeps the user; title and summary are the extraction's `.get` values; each of the seven document columns is stored exactly when its extracted value is truthy |
| JobStore.Unwrapped | apps/backend/app/services/job_service.py:269-273 | `.get(key, [])` on a stored object gives the value under the key, or the empty list without it; a null column reads as null; any other stored value raises `AttributeError` naming its Python type |
| JobStore.BuildThenView | apps/backend/app/services/job_service.py:155-189 | a row as the service stores it is well formed, and reading it back yields every extracted field, with falsy structured fields as null: the two wrapped lists round-trip |
| JobStore.WellFormedViews | apps/backend/app/services/job_service.py:328-341 | reading a row whose wrapped columns hold objects never fails |
| JobStore.ProcessedView | apps/backend/app/services/job_service.py:328-341 | the listing's view of a processed row succeeds exactly when the row is well formed; it then has exactly the eleven listed keys, and qualifications, compensation and application info are the JSON they were stored as |
| JobStore.DetailViewAsWritten | apps/backend/app/services/job_service.py:261-275 | the detail view calls `.get` on all five document columns, so a stored list or object of qualifications, benefits or application info does not read back (see Findings) |
| JobStore.DetailRejectsStoredList | apps/backend/app/services/job_service.py:261-275 | a stored list of qualifications makes the detail view raise AttributeError, although the extracted value was that list |
| JobStore.DetailLosesStoredObject | apps/backend/app/services/job_service.py:261-275 | stored qualifications given as an object without a `qualifications` key read back from the detail view as an empty list |
| JobStore.RecordOf | apps/backend/app/services/job_service.py:317-341 | a record carries the job's id and content, and has a processed part exactly when a processed row exists |
| JobStore.FindJob | apps/backend/app/services/job_service.py:240-242 | the job found has the requested id, and none is found exactly when no job has it |
| JobStore.GetJobWithProcessedData | apps/backend/app/services/job_service.py:227-277 | as written, with the detail view: an unknown id raises JobNotFoundError exactly when no job has that id; a result carries the requested id, `processed_job` is absent exactly when no processed row exists and is otherwise the detail view of that row; a failing view surfaces as the error it raises |
| JobStore.GetJobAsStored | apps/backend/app/services/job_service.py:227-277 | the same lookup reading each processed column back as it was stored: on a consistent database it fails only with JobNotFoundError, exactly when no job has that id |
| JobStore.StoredJobReadsBack | apps/backend/app/services/job_service.py:155-277 | a job whose processed row was built from an extraction reads back, through the corrected lookup, with every extracted field as `BuildThenView` gives it |
| JobStore.LinkedJobIds | apps/backend/app/services/job_service.py:291-295 | a job id is linked exactly when the association table holds it with the resume |
| JobStore.NewestFirstMembers | apps/backend/app/services/job_service.py:301-399 | over well-formed rows a listing never fails, and a job appears in it exactly when it is a matching job of the table |
| JobStore.NewestFirst | apps/backend/app/services/job_service.py:301-345 | a listing has at most as many entries as there are jobs, and it fails only when a selected job has a processed row whose view fails |
| JobStore.NewestFirstReversed | apps/backend/app/services/job_service.py:301-345 | over well-formed rows the listing succeeds and is the in-order filter of the jobs (`Selected`) read backwards, each entry the record of that job |
| JobStore.NextPending | apps/backend/app/services/job_service.py:50-59 | one upload adds exactly one job row, owned by the uploader, and one association with the resume, after the existing ones |
| JobStore.IdsOf | apps/backend/app/services/job_service.py:45-68 | the returned ids are the drawn ids, one per description, in input order |
| JobStore.LinksOf | apps/backend/app/services/job_service.py:59 | each uploaded job is linked to the given resume, in input order |
| JobStore.JobsOf | apps/backend/app/services/job_service.py:50-55 | each upload adds the job row with its drawn id, the uploader as owner and the description as content, in input order |
| JobStore.IngestOutcome | apps/backend/app/services/job_service.py:45-71 | a batch of uploads succeeds exactly when no upload's extraction fails; a failure carries the message of an upload whose extraction failed |
| JobStore.IngestSuccessIds | apps/backend/app/services/job_service.py:45-71 | a completed upload returns one fresh job id per description, in input order |
| JobStore.IngestSuccessRows | apps/backend/app/services/job_service.py:45-71 | a completed upload appends exactly one job row and one association per description after the existing ones |
| JobStore.IngestSuccessProcessed | apps/backend/app/services/job_service.py:150-193 | every description whose extraction produced fields gets a processed row |
| JobStore.ProcessedKept | apps/backend/app/services/job_service.py:191-193 | processed rows already present stay present |
| JobStore.IngestFailure | apps/backend/app/services/job_service.py:45-71 | when the LLM call raises, what stays stored is the state of the last commit: the jobs of a proper prefix of the uploads |
| JobStore.FailedUploadKeepsCommitPoint | apps/backend/app/services/job_service.py:45-71 | a failed upload leaves the existing jobs plus those of a proper prefix of the uploads |
| JobStore.SuccessfulUpload | apps/backend/app/services/job_service.py:45-71 | a completed upload returns the drawn ids in order and stores one job and one association per description; every description whose extraction produced fields gets a processed row, the rows it adds are exactly those, rows under other ids are untouched, and with fresh ids each new row is `Build` of the uploader and that extraction; a failed extraction still stores the raw job |
| JobStore.ProcessedRowKept | apps/backend/app/services/job_service.py:45-71 | a processed row under an id no upload uses is left as it was |
| JobStore.IngestProcessedRow | apps/backend/app/services/job_service.py:150-193 | the processed row of an upload with extracted fields, unless a later upload reuses its id, is `Build` of the uploader and those fields |
| JobStore.IngestProcessedFrom | apps/backend/app/services/job_service.py:150-193 | every processed row after the loop was there before or belongs to an upload whose extraction produced fields |
| JobStore.Associated | apps/backend/app/services/job_service.py:121-137 | afterwards the pair is linked and every existing link is kept |
| JobStore.AssociatedIdempotent | apps/backend/app/services/job_service.py:121-137 | linking twice is linking once, and no link is ever stored twice |
| JobStore.JobService.CreateAndStoreJob | apps/backend/app/services/job_service.py:26-71 | an unknown resume gives the AssertionError text before anything is stored; otherwise the result and the new tables are those of the upload loop, and the tables stay valid |
| JobStore.JobService.EnsureJobResumeAssociation | apps/backend/app/services/job_service.py:109-137 | the association is inserted only when absent, and the tables stay valid |
| JobStore.JobService.GetJobsForResume | apps/backend/app/services/job_service.py:279-345 | the user's jobs linked to the resume, newest first; with no links the result is empty |
| JobStore.JobService.GetAllJobsForUser | apps/backend/app/services/job_service.py:347-399 | the user's jobs, newest first |
| JobStore.JobService.List | apps/backend/app/services/job_service.py:310-345 | the loop builds one record per matching job, newest first, and stops at the first row whose documents cannot be read |
| JobStore.NoLinks | apps/backend/app/services/job_service.py:297-298 | with no linked job ids the listing is empty |
| JobRouter.ContentTypeCheck | apps/backend/app/api/router/v1/job.py:34-49 | the upload passes the header check exactly when the Content-Type is exactly "application/json"; a missing or empty one gives 400 "Content-Type header is missing", any other 400 "Invalid Content-Type. Only application/json is/are allowed." |
| JobRouter.UploaderId | apps/backend/app/api/router/v1/job.py:53-54 | guests upload with no user id; a signed-in user's id is `str(id)`, which parses back to that id |
| JobRouter.UploadJob | apps/backend/app/api/router/v1/job.py:23-76 | a failed header check answers before the service runs and stores nothing; an unknown resume gives 400 with the AssertionError text and stores nothing; otherwise a completed upload answers "data successfully processed" with the new job ids in order, and a raised error gives 500 with its message and leaves the last commit |
| JobRouter.GetJobAsWritten | apps/backend/app/api/router/v1/job.py:83-139 | an empty `job_id` ends in 500 "Error fetching job data", because the 400 is caught by the generic handler; otherwise 404 exactly when no job has the id, success exactly when the service succeeds, with the service's record; every failure is 404 or 500 |
| JobRouter.GetJob | apps/backend/app/api/router/v1/job.py:83-139 | the corrected endpoint: an empty `job_id` gives 400 "job_id is required"; otherwise 404 with the JobNotFoundError text exactly when no job has that id, and on a consistent database success exactly when it exists; a result carries the requested id and its processed row, absent exactly when none exists |
| JobRouter.EmptyJobIdSwallowed | apps/backend/app/api/router/v1/job.py:104-139 | for the empty id the endpoint as written answers 500 where 400 was raised |
| JobRouter.StoredListAnswered500 | apps/backend/app/api/router/v1/job.py:83-139 | a job stored with a list of qualifications is answered 500 by the endpoint as written and returned with that list by the corrected one |
| JobRouter.GetJobsForResume | apps/backend/app/api/router/v1/job.py:146-184 | the signed-in user's jobs linked to the resume, newest first, looked up with `str(current_user.id)`; any failure gives 500 "Error fetching jobs for resume" |
| JobRouter.GetAllJobsForUser | apps/backend/app/api/router/v1/job.py:191-226 | the signed-in user's jobs, newest first; any failure gives 500 "Error fetching jobs for user" |
| ScheduleSchema.ParseScheduleType | apps/backend/app/schemas/pydantic/learning_schedule.py:6-8 | only the value of a member is accepted, and it yields that member |
| ScheduleSchema.ParseActivityType | apps/backend/app/schemas/pydantic/learning_schedule.py:11-17 | only the value of a member is accepted, and it yields that member |
| ScheduleSchema.ParsePriority | apps/backend/app/schemas/pydantic/learning_schedule.py:20-23 | only the value of a member is accepted, and it yields that member |
| ScheduleSchema.ParseResourceType | apps/backend/app/schemas/pydantic/learning_schedule.py:26-31 | only the value of a member is accepted, and it yields that member |
| ScheduleSchema.ParseComplexity | apps/backend/app/schemas/pydantic/learning_schedule.py:34-37 | only the value of a member is accepted, and it yields that member |
| ScheduleSchema.EnumValuesRoundTrip | apps/backend/app/schemas/pydantic/learning_schedule.py:6-37 | every member of the five enumerations is accepted by its value; with the parsers' own contracts, each accepts exactly its listed strings |
| ScheduleSchema.ParseList | apps/backend/app/schemas/pydantic/learning_schedule.py:50-60 | a list validates exactly when every item does, giving the items in order |
| ScheduleSchema.RequiredInt | apps/backend/app/schemas/pydantic/learning_schedule.py:51-96 | an integer field with a `ge` bound validates exactly when it is present, reads as an integer in lax mode, and is at least the bound; the value is the one read |
| ScheduleSchema.ListField | apps/backend/app/schemas/pydantic/learning_schedule.py:50-98 | a list field left out defaults to the empty list, and a present one must be a list whose items validate |
| ScheduleSchema.ParseActivity | apps/backend/app/schemas/pydantic/learning_schedule.py:46-52 | an accepted activity has `estimatedHours` ≥ 1 |
| ScheduleSchema.ParsePeriod | apps/backend/app/schemas/pydantic/learning_schedule.py:55-60 | every activity of an accepted period has `estimatedHours` ≥ 1 |
| ScheduleSchema.ParseCertification | apps/backend/app/schemas/pydantic/learning_schedule.py:69-73 | an accepted certification has `estimatedTimeMonths` ≥ 1 |
| ScheduleSchema.ParseRecommendations | apps/backend/app/schemas/pydantic/learning_schedule.py:83-86 | every accepted certification has `estimatedTimeMonths` ≥ 1 |
| ScheduleSchema.ParseSchedule | apps/backend/app/schemas/pydantic/learning_schedule.py:94-100 | an accepted schedule satisfies every `ge=1` constraint at every level, `totalDurationWeeks` included |
| ScheduleSchema.ResourceRoundTrip | apps/backend/app/schemas/pydantic/learning_schedule.py:40-43 | a resource, with or without its optional url, is read back by `ParseResource` from its dump |
| ScheduleSchema.ActivityRoundTrip | apps/backend/app/schemas/pydantic/learning_schedule.py:46-52 | an activity meeting its constraint validates from its dump |
| ScheduleSchema.PeriodRoundTrip | apps/backend/app/schemas/pydantic/learning_schedule.py:55-60 | a period meeting its constraints validates from its dump |
| ScheduleSchema.OverviewRoundTrip | apps/backend/app/schemas/pydantic/learning_schedule.py:63-66 | `ParseOverview` reads every overview back from its dump |
| ScheduleSchema.CertificationRoundTrip | apps/backend/app/schemas/pydantic/learning_schedule.py:69-73 | a certification with `estimatedTimeMonths` ≥ 1 is read back by `ParseCertification` from its dump |
| ScheduleSchema.ProjectRoundTrip | apps/backend/app/schemas/pydantic/learning_schedule.py:76-80 | `ParseProject` reads every project recommendation back from its dump |
| ScheduleSchema.ProgressTrackingRoundTrip | apps/backend/app/schemas/pydantic/learning_schedule.py:89-91 | `ParseProgressTracking` reads every progress-tracking block back from its dump |
| ScheduleSchema.RecommendationsRoundTrip | apps/backend/app/schemas/pydantic/learning_schedule.py:83-86 | recommendations meeting their constraints validate from their dump |
| ScheduleSchema.ScheduleRoundTrip | apps/backend/app/schemas/pydantic/learning_schedule.py:94-100 | a schedule meeting every constraint validates from its dump, unchanged |
| ScheduleSchema.ValidatedIsValid | apps/backend/app/schemas/pydantic/learning_schedule.py:94-100 | a document that validates yields a valid schedule whose dump validates to the same schedule |
| ScheduleSchema.ExampleIsValid | apps/backend/app/schemas/pydantic/learning_schedule.py:102-146 | the documented example satisfies every constraint and survives a dump and validation |
| ScheduleSchema.ParseRequest | apps/backend/app/schemas/pydantic/learning_schedule.py:149-161 | an accepted duration is read in lax mode and lies in 1..52; a left-out or null duration defaults to 8 and a left-out schedule type to weekly |
| ScheduleSchema.RequestAccepted | apps/backend/app/schemas/pydantic/learning_schedule.py:149-161 | a request validates exactly when both ids are strings, the type is weekly or monthly when given, and the duration is null or reads in lax mode as an integer within 1..52 when given; that integer is the one kept |
| ScheduleService.Unwrap | apps/backend/app/services/learning_schedule_service.py:162-164 | an object carrying a `learning_schedule` key is replaced by that key's value; anything else is kept |
| ScheduleService.LastError | apps/backend/app/services/learning_schedule_service.py:168-219 | an attempt that is not accepted, when it is the last, always ends in LearningScheduleGenerationError (a list, a validation error, or any other error wrapped by the outer handler) |
| ScheduleService.Attempts | apps/backend/app/services/learning_schedule_service.py:154-205 | the loop from a given attempt makes at most the remaining number of agent calls |
| ScheduleService.AttemptsOutcome | apps/backend/app/services/learning_schedule_service.py:154-205 | every error the loop ends with is a LearningScheduleGenerationError; a schedule it returns is the validated output of its last call, which `Validated` accepted |
| ScheduleService.Generate | apps/backend/app/services/learning_schedule_service.py:104-154 | a missing processed resume raises ResumeNotFoundError and a missing processed job JobNotFoundError, in that order and before any agent call; at most `max_retries` calls are made |
| ScheduleService.GeneratedScheduleValid | apps/backend/app/services/learning_schedule_service.py:178-184 | a schedule the service returns satisfies every constraint of the schema |
| ScheduleService.GenerateValid | apps/backend/app/services/learning_schedule_service.py:154-184 | with any validator that only accepts valid schedules, every schedule the service returns is valid |
| ScheduleService.GenerateLearningSchedule | apps/backend/app/services/learning_schedule_service.py:86-219 | the service call returns exactly the result and makes exactly the number of agent calls the specification function gives |
| ScheduleService.RetryLoop | apps/backend/app/services/learning_schedule_service.py:154-205 | the retry loop ends with the result and makes exactly the number of calls the loop's specification function gives |
| ScheduleService.TryAttempt | apps/backend/app/services/learning_schedule_service.py:155-201 | one pass of the loop body stops the loop exactly when the output is accepted or the attempt is the last; it then returns the validated schedule, or the error of that last attempt |
| ScheduleService.NoRetriesNoCalls | apps/backend/app/services/learning_schedule_service.py:154-205 | with no retries allowed no agent call is made and LearningScheduleGenerationError is raised |
| ScheduleService.FirstAcceptedReturned | apps/backend/app/services/learning_schedule_service.py:178-184 | the first accepted output within the allowed attempts is returned, after exactly that many calls |
| ScheduleService.NoneAccepted | apps/backend/app/services/learning_schedule_service.py:154-201 | when no output is accepted, every allowed call is made and the last attempt decides the error |
| ScheduleService.WrappingAndLists | apps/backend/app/services/learning_schedule_service.py:163-175 | a list output, bare or wrapped, is never accepted and on the last attempt raises the list message; a wrapped valid schedule is accepted and returned as it was |
| ScheduleService.KeywordBullets | apps/backend/app/services/learning_schedule_service.py:131-132 | an empty keyword list gives the empty text |
| ScheduleService.BulletLines | apps/backend/app/services/learning_schedule_service.py:131-132 | the bullet text has one line `- kw` per keyword, in order |
| ScheduleService.JobKeywordsAsWritten | apps/backend/app/services/learning_schedule_service.py:111-132 | the job's keywords are taken from the column text itself, so an absent or empty column gives "" and otherwise each character becomes a bullet (see Findings) |
| ScheduleService.JobKeywordsCharacterBullets | apps/backend/app/services/learning_schedule_service.py:111-132 | the stored text for the single keyword "Python" renders as one bullet per character, starting with `- {`, not as `- Python` |
| ScheduleService.StringItems | apps/backend/app/services/learning_schedule_service.py:132 | the string items of a list are kept in order, all of them when every item is a string |
| ScheduleService.StoredKeywordsRendered | apps/backend/app/services/job_service.py:184-188 | a job stored with string keywords renders (`JobKeywords`, `JobKeywordsText`) exactly `- kw` for each of those keywords, in order |
| ScheduleRouter.Respond | apps/backend/app/api/router/v1/schedule.py:64-104 | a schedule is returned unchanged; ResumeNotFoundError and JobNotFoundError become 404 with their message; LearningScheduleGenerationError becomes 500 with the prefix "Failed to generate learning schedule: "; any other error becomes 500 with the fixed generic message |
| ScheduleRouter.GenerateEndpoint | apps/backend/app/api/router/v1/schedule.py:32-104 | with the service defaults, a missing processed resume gives 404 with the resume-not-found text and a missing job 404 with the job-not-found text, both before the agent runs; every other failure is 500 with the prefixed service message |
| ScheduleRouter.EndpointScheduleValid | apps/backend/app/api/router/v1/schedule.py:32-104 | a schedule the endpoint returns satisfies every constraint of the schema |
| AuthClient.ReadMemberOf | apps/frontend/lib/api/auth.ts:149-161 | a `"key":"value"` member written for a user record reads back as the same value and the text after it |
| AuthClient.UserTextRoundTrip | apps/frontend/lib/api/auth.ts:147-168 | `StringifyUser` writes the four fields in order, and `ParseUser` reads every user record back from that text unchanged |
| AuthClient.StoredUserTextTruthy | apps/frontend/lib/api/auth.ts:156-161 | the stored user text is never empty, so `getUserInfo`'s `if (userStr)` always goes on to parse it |
| AuthClient.CheckHeaders | apps/frontend/lib/api/auth.ts:99-102 | an `Authorization: Bearer <token>` header is present exactly when the token is non-empty, and no other header is set |
| AuthClient.CheckAuth | apps/frontend/lib/api/auth.ts:109-113 | a response that is not OK reads as `{authenticated: false, message: 'Guest'}`; an OK one is its body; authenticated implies OK |
| AuthClient.Browser.constructor | apps/frontend/lib/api/auth.ts:120 | a browser with or without a window and the given storage |
| AuthClient.Browser.Item | apps/frontend/lib/api/auth.ts:129-158 | an item is read exactly when there is a window and the key is stored, and it is the stored value |
| AuthClient.Browser.GetAuthToken | apps/frontend/lib/api/auth.ts:128-133 | null without a window; otherwise the value under `resumeMatcher:authToken` |
| AuthClient.Browser.GetUserInfo | apps/frontend/lib/api/auth.ts:156-168 | null without a window and for a missing or empty item; a user it returns is the parse of the stored text |
| AuthClient.Browser.StoreAuthToken | apps/frontend/lib/api/auth.ts:119-123 | with a window, only the token key changes and getAuthToken then returns the token; without one nothing changes |
| AuthClient.Browser.StoreUserInfo | apps/frontend/lib/api/auth.ts:147-151 | with a window, only the user key changes and getUserInfo then returns an equal record; without one nothing changes and getUserInfo is null |
| AuthClient.Browser.RemoveAuthToken | apps/frontend/lib/api/auth.ts:138-142 | with a window exactly the token key is removed; without one nothing changes |
| AuthClient.Browser.RemoveUserInfo | apps/frontend/lib/api/auth.ts:173-177 | with a window exactly the user key is removed; without one nothing changes |
| AuthClient.Browser.Logout | apps/frontend/lib/api/auth.ts:182-185 | exactly the token and user keys are removed, every other key keeps its value, and both getters then return null |
| AuthClient.Browser.AuthAfterLoad | apps/frontend/lib/api/auth.ts:194-205 | after the effect, not loading; authenticated exactly when a user is reported, exactly when a non-empty token and a stored user exist, and the user is the stored one |
| AuthClient.SignedInView | apps/frontend/lib/api/auth.ts:194-205 | a browser holding a non-empty token and a stored user text reports that user as signed in |
| UserMenu.DisplayName | apps/frontend/components/settings/user-menu.tsx:66 | the user's name, or 'Guest' without a user |
| UserMenu.DisplayEmail | apps/frontend/components/settings/user-menu.tsx:67 | the user's email, or 'Not logged in' without a user |
| UserMenu.CheckedUser | apps/frontend/components/settings/user-menu.tsx:23-35 | a user is established exactly when the check answers authenticated with a user, and it is that user; a thrown check gives none |
| UserMenu.Menu.constructor | apps/frontend/components/settings/user-menu.tsx:11-13 | closed, no user, not a guest |
| UserMenu.Menu.LoadUser | apps/frontend/components/settings/user-menu.tsx:15-43 | the check is made exactly when a stored user and a non-empty token exist; then the user is the checked user, otherwise the visitor is a guest with no user; afterwards a user is shown exactly when not a guest; the open state is untouched |
| UserMenu.Menu.HandleToggle | apps/frontend/components/settings/user-menu.tsx:45-47 | flips the open state and nothing else |
| UserMenu.Menu.HandleClose | apps/frontend/components/settings/user-menu.tsx:49-51 | closes the menu and nothing else |
| UserMenu.Menu.HandleLogout | apps/frontend/components/settings/user-menu.tsx:53-59 | the token and user are removed from storage with every other key kept, the menu is a closed guest with no user, and the route is `/` |
| UserMenu.Menu.HandleLogin | apps/frontend/components/settings/user-menu.tsx:61-64 | closes the menu, keeps the user state, and the route is `/login` |
| UserMenu.CheckedVisitorShown | apps/frontend/components/settings/user-menu.tsx:23-66 | an authenticated answer with a user shows that user's name; a thrown check and a non-OK response both show 'Guest' |
| JobTabs.SubmittedIds | apps/frontend/components/jd-upload/text-area.tsx:205-211 | the submitted ids are never more than the tabs and never empty |
| JobTabs.SubmittedIdsExact | apps/frontend/components/jd-upload/text-area.tsx:205-211 | an id is submitted exactly when some tab holds it as a non-empty job id |
| JobTabs.UploadPanel.Mount | apps/frontend/components/jd-upload/text-area.tsx:24-60 | the panel starts with the saved tabs when a non-empty list was saved, otherwise with one blank idle tab with id "1"; the first tab is selected and there is no banner |
| JobTabs.UploadPanel.Select | apps/frontend/components/jd-upload/text-area.tsx:36 | clicking a tab selects it and changes nothing else |
| JobTabs.UploadPanel.HandleChange | apps/frontend/components/jd-upload/text-area.tsx:118-123 | only the tab at `index` gets the new text and the idle status, every other tab is unchanged, and the banner is cleared |
| JobTabs.UploadPanel.AddJob | apps/frontend/components/jd-upload/text-area.tsx:125-137 | at three tabs nothing changes; below three one blank idle tab with no job id or data is appended at the end, so there are never more than three |
| JobTabs.UploadPanel.RemoveJob | apps/frontend/components/jd-upload/text-area.tsx:139-148 | with one tab nothing changes; otherwise exactly the tab at `index` is removed, the others keep their order, the selection moves left exactly when it was at or after `index` and above 0, and it stays within the tabs |
| JobTabs.UploadPanel.StartUpload | apps/frontend/components/jd-upload/text-area.tsx:150-165 | blank text or a missing resume id sets the matching error banner and changes no tab; otherwise only the tab at `index` becomes submitting and the trimmed text is sent with the resume id |
| JobTabs.UploadPanel.FinishUpload | apps/frontend/components/jd-upload/text-area.tsx:167-181 | success stores the job id and the success status at `index` only, with "Job n submitted successfully!"; failure sets the error status at `index` only, with the error's message |
| JobTabs.UploadPanel.HandleCompareAll | apps/frontend/components/jd-upload/text-area.tsx:204-213 | fewer than two submitted jobs give the error banner and no navigation; otherwise the compare page with the submitted ids comma-joined in tab order, and no tab changes |
| JobTabs.CompareUrlJobIds | apps/frontend/components/jd-upload/text-area.tsx:211-212 | splitting the `job_ids` parameter of the compare address at commas gives back exactly the submitted ids |
| ResumePreview.Blocks | apps/frontend/components/dashboard/resume-preview.tsx:76-351 | missing resume data shows only the placeholder; otherwise the closing message always shows and the placeholder never, the personal block exactly when personal data exists, and the experience and skills blocks exactly when their lists are non-empty |
| ResumePreview.Showing | apps/frontend/components/dashboard/resume-preview.tsx:106-337 | a block appears in the rendered sequence exactly when it is one of the page's blocks and its data is present |
| ResumePreview.FormatDateRange | apps/frontend/components/dashboard/resume-preview.tsx:94-99 | empty without a start, even when an end exists; otherwise the first 7 characters of the start, " - ", and the first 7 characters of the end, or "Present" for a missing or empty end |
| ResumePreview.PresentCaseRedundant | apps/frontend/components/dashboard/resume-preview.tsx:97-98 | an end of "Present" renders the same as the end cut to 7 characters and the same as no end |
| ResumePreview.ShownExperiences | apps/frontend/components/dashboard/resume-preview.tsx:143-153 | the rendered experiences are never more than the experiences given |
| ResumePreview.ShownExperiencesMembers | apps/frontend/components/dashboard/resume-preview.tsx:143-153 | an experience is rendered exactly when it is in the list and has a title, company, date, description or technology (`ExperienceShown`; `Descriptions` and `Technologies` read the optional lists) |
| ResumePreview.ShownExperiencesSnoc | apps/frontend/components/dashboard/resume-preview.tsx:143-153 | appending an experience appends it to the rendered ones exactly when it is shown, so the filter keeps list order and multiplicity |
| ResumePreview.DescriptionLines | apps/frontend/components/dashboard/resume-preview.tsx:168-181 | up to 2 descriptions are shown as they are; a longer list shows its first 2 then "+N more" with N = length − 2 |
| ResumePreview.JoinGiven | apps/frontend/components/dashboard/resume-preview.tsx:110-120 | the given parts joined by the separator, skipping missing and empty ones |
| ResumePreview.FullName | apps/frontend/components/dashboard/resume-preview.tsx:108-112 | the name line shows exactly when a first or last name is given, and is the non-empty join of both by a space |
| ResumePreview.LocationLine | apps/frontend/components/dashboard/resume-preview.tsx:118-122 | the location line shows exactly when a location object exists, and is city and country joined by ", " |
| ResumePreview.Categories | apps/frontend/components/dashboard/resume-preview.tsx:275-282 | the categories are distinct and are exactly the categories of the skills (`CategoryOf`, a missing one being "Other") that are not names the `{}` accumulator inherits from `Object.prototype` |
| ResumePreview.NamesIn | apps/frontend/components/dashboard/resume-preview.tsx:279 | a group never has more names than there are skills |
| ResumePreview.GroupSkills | apps/frontend/components/dashboard/resume-preview.tsx:275-282 | the reduction throws "acc[category].push is not a function" exactly when a named skill's category is an inherited name such as `toString` or `__proto__` (`Inherited`); otherwise one group per non-inherited category in order of first appearance, each holding in order the names of the named skills of that category |
| ResumePreview.Push | apps/frontend/components/dashboard/resume-preview.tsx:277-280 | one reduction step throws exactly when the skill is named and its category is inherited; a nameless skill in an inherited category changes nothing |
| ResumePreview.ReducedFails | apps/frontend/components/dashboard/resume-preview.tsx:276-281 | the whole reduction throws exactly when one of its steps does |
| ResumePreview.ReducedGroups | apps/frontend/components/dashboard/resume-preview.tsx:276-281 | a reduction that does not throw ends with the non-inherited categories in first-appearance order as its keys, each holding `NamesIn` that category |
| ResumePreview.NamesOutside | apps/frontend/components/dashboard/resume-preview.tsx:277-279 | a category no skill has gets no names |
| ResumePreview.NamedSkillListed | apps/frontend/components/dashboard/resume-preview.tsx:277-279 | every named skill is listed in its own category's group |
| JobPreview.Decode | apps/frontend/components/dashboard/job-preview.tsx:31-45 | a string field is replaced by its JSON parse and throws `SyntaxError` when the text does not parse; any other value, or none, is used as it is |
| JobPreview.CompanyName | apps/frontend/components/dashboard/job-preview.tsx:47 | the value shown as the company: `companyName` when truthy, else `company_name` when truthy, else 'Company Name Not Available'; never falsy |
| JobPreview.LocationText | apps/frontend/components/dashboard/job-preview.tsx:48-50 | 'Location Not Specified' without a location; city and country (`TextOrEmpty`) joined by ", " when both are truthy; otherwise whichever is truthy, or empty text |
| JobPreview.Unwrapped | apps/frontend/components/dashboard/job-preview.tsx:52-54 | the list under the wrapper key when truthy, else the value when truthy, else the empty list |
| JobPreview.Qualifications | apps/frontend/components/dashboard/job-preview.tsx:53 | `required` when truthy, else `qualifications` when truthy, else the value, else the empty list |
| JobPreview.ListBlock | apps/frontend/components/dashboard/job-preview.tsx:94-146 | a non-empty array shows its first `limit` entries and the count of the rest, which add up to its length; a non-empty string throws on `map`; anything else hides the block |
| JobPreview.Line | apps/frontend/components/dashboard/job-preview.tsx:76-91 | a line shows exactly when its field is truthy, holding the field rendered as a JSX child (`JsxChild`); it throws React's object error exactly when the field is or holds an object |
| JobPreview.Entries | apps/frontend/components/dashboard/job-preview.tsx:98-100 | the entries of a list rendered as children: one text per entry shown |
| JobPreview.EntriesOutcome | apps/frontend/components/dashboard/job-preview.tsx:98-100 | the entries render exactly when none holds an object, each as that entry's `JsxChild` text; otherwise React's object error |
| JobPreview.RenderList | apps/frontend/components/dashboard/job-preview.tsx:94-146 | a hidden block renders nothing; a shown block renders exactly when none of its entries holds an object, keeping the entry count, the "+N more" count and each entry's child text |
| JobPreview.DecodeFields | apps/frontend/components/dashboard/job-preview.tsx:31-45 | the five text fields are decoded in source order; decoding succeeds exactly when each field decodes, gives each decoded value, and otherwise throws `SyntaxError` |
| JobPreview.ListBlocks | apps/frontend/components/dashboard/job-preview.tsx:52-146 | the responsibilities (under `key_responsibilities`), qualifications (`Qualifications`) and keywords (under `extracted_keywords`) blocks, cut at 5, 5 and 15; the first that is a non-empty string throws on `map` |
| JobPreview.View | apps/frontend/components/dashboard/job-preview.tsx:56-155 | the page renders exactly when the title, company, employment type, summary and the three lists all render as children; it then shows the title (nothing when absent), the company's child text, the `LocationText` line when not empty, "Posted: " and the formatted date when given, and the rendered lines and lists; otherwise React's object error |
| JobPreview.CompanyTrueShownEmpty | apps/frontend/components/dashboard/job-preview.tsx:47-62 | a profile whose `companyName` is `true` shows an empty company, where `String(true)` reads "true", and the rest of that job renders as defaults |
| JobPreview.Render | apps/frontend/components/dashboard/job-preview.tsx:18-155 | a falsy job shows only the placeholder; otherwise, in that order, a field that is not valid JSON throws `SyntaxError` (`DecodeFields`), a list that is a non-empty string throws on `map` (`ListBlocks`), and a child that holds an object throws React's object error (`View`); a page that renders is `View`'s, with at most 5 responsibilities, 5 qualifications and 15 keywords and a location line only when its text is non-empty |
| JobPreview.WrappedOrBare | apps/frontend/components/dashboard/job-preview.tsx:52-54 | a non-empty list wrapped under its key and the bare list give the same entries |
| JobPreview.LongListCut | apps/frontend/components/dashboard/job-preview.tsx:98-143 | a list longer than the limit shows exactly its first `limit` entries and "+N more" for the rest |
| Picker.FindById | apps/frontend/components/common/job-selector.tsx:155-158 | the entry found holds exactly the id under the key and is the first such entry; none is found exactly when no entry holds it |
| Picker.CountText | apps/frontend/components/common/job-selector.tsx:184-186 | "1 <noun> available" for one, "N <noun>s available" for any other count |
| Picker.Loader.constructor | apps/frontend/components/common/job-selector.tsx:30-32 | nothing loaded, loading, no error |
| Picker.Loader.Finish | apps/frontend/components/common/job-selector.tsx:38-66 | loading ends; a fetched list replaces the entries and clears the error; a thrown error keeps the entries and shows its message, or the fallback when it carries none |
| JobSelector.SourceOf | apps/frontend/components/common/job-selector.tsx:44-52 | all of the user's jobs when asked for, else the resume's jobs for a non-empty resume id, else no fetch |
| JobSelector.LoadJobs | apps/frontend/components/common/job-selector.tsx:38-66 | the source is chosen as above; with no source the list is empty; a fetched list replaces the jobs; a thrown error keeps them and shows its message or "Failed to load jobs"; a job is chosen automatically exactly when exactly one job was loaded and none is selected, and it is that job with its id |
| JobSelector.HandleJobChange | apps/frontend/components/common/job-selector.tsx:68-73 | the parent hears of a choice exactly when a loaded job has that id, and receives the id and the first loaded job with that id |
| JobSelector.Available | apps/frontend/components/common/job-selector.tsx:123 | the offered jobs are exactly the loaded jobs whose id is not excluded, never more than were loaded |
| JobSelector.AvailableKeepsOrder | apps/frontend/components/common/job-selector.tsx:123 | filtering a list with one more job at the end gives the same offers with that job at the end unless it is excluded, so loaded order is kept |
| JobSelector.NothingExcluded | apps/frontend/components/common/job-selector.tsx:27-123 | with nothing excluded every loaded job is offered, in order |
| JobSelector.DisplayText | apps/frontend/components/common/job-selector.tsx:133-143 | the processed title or "Untitled Job", followed by " at " and the company when the profile's `company_name`, or else the profile, is truthy; `OptionLabel` shows it in the list |
| JobSelector.DisplayValue | apps/frontend/components/common/job-selector.tsx:133-143 | `getJobDisplayText` returns "title at company" as text when the company is truthy, and otherwise the title value itself or "Untitled Job"; written out as text it is `DisplayText` |
| JobSelector.Render | apps/frontend/components/common/job-selector.tsx:88-188 | loading first, then a non-empty error; with nothing loaded the "No jobs found" text for all jobs or for the resume; "All jobs have been used" exactly when jobs were loaded and all are excluded; otherwise exactly `Offer` over the available jobs, with its selected text and its failure |
| JobSelector.Offer | apps/frontend/components/common/job-selector.tsx:145-186 | the select offers exactly the available jobs with their count; it fails exactly when a non-empty selected id matches no loaded job or the selected job's `DisplayValue` holds an object (React's object error), and otherwise shows that value rendered as a JSX child |
| ResumeSelector.Name | apps/frontend/components/common/resume-selector.tsx:92-102 | `name`, else `full_name`, else "first last" when both are truthy, else the first name alone, else "Unnamed Resume", each written as text |
| ResumeSelector.NameValue | apps/frontend/components/common/resume-selector.tsx:94-99 | the name expression's value: `name`, else `full_name`, else the first name alone without a last name, as stored; never falsy |
| ResumeSelector.DisplayText | apps/frontend/components/common/resume-selector.tsx:92-102 | the name, followed by " (title)" exactly when the title is truthy; `OptionLabel` shows it in the list |
| ResumeSelector.DisplayValue | apps/frontend/components/common/resume-selector.tsx:92-102 | `getResumeDisplayText` returns "name (title)" as text when the title is truthy, and otherwise the name value itself; written out as text it is `DisplayText` |
| ResumeSelector.LoadResumes | apps/frontend/components/common/resume-selector.tsx:29-41 | loading ends; a fetched list replaces the resumes and clears the error; a thrown error keeps them and shows its message or "Failed to load resumes" |
| ResumeSelector.HandleResumeChange | apps/frontend/components/common/resume-selector.tsx:43-48 | the parent hears of a choice exactly when a loaded resume has that id, and receives the id and the first loaded resume with that id, as `find` returns it |
| ResumeSelector.Render | apps/frontend/components/common/resume-selector.tsx:64-139 | loading first, then a non-empty error, then the empty state exactly when nothing was loaded; the selected text throws exactly when a selected id matches no loaded resume or that resume's `DisplayValue` holds an object (React's object error); otherwise every resume is offered with its count, and the selected text is that value rendered as a JSX child |
| JobListings.Render | apps/frontend/components/dashboard/job-listings.tsx:15-58 | the details block exactly for non-empty details, the strategy block exactly for non-empty commentary (`HasContent`), the schedule button exactly when commentary and both ids are given and pointing at the schedule page for them (`ScheduleUrl`), and the placeholder exactly when neither text has a non-space character |
| JobListings.BlankDetailsShowBoth | apps/frontend/components/dashboard/job-listings.tsx:15-54 | white-space-only details show their block and the placeholder together |
| JobListings.VisibleDetailsHidePlaceholder | apps/frontend/components/dashboard/job-listings.tsx:15-54 | details with a visible character hide the placeholder whatever the commentary |
| ScheduleDisplay.ActivityIcon | apps/frontend/components/learning-schedule/learning-schedule-display.tsx:53-70 | an unknown type gets the book, and the book goes exactly to tutorials and unknown types |
| ScheduleDisplay.IconsDistinguishTypes | apps/frontend/components/learning-schedule/learning-schedule-display.tsx:53-70 | two different activity types other than Tutorial get different icons |
| ScheduleDisplay.PriorityColor | apps/frontend/components/learning-schedule/learning-schedule-display.tsx:72-83 | red for High, yellow for Medium, blue for Low, gray for any other string |
| ScheduleDisplay.TotalHoursAtLeastCount | apps/frontend/components/learning-schedule/learning-schedule-display.tsx:167 | the hours of a period of valid activities (`TotalHours`, shown by `PeriodSummary`) are at least its number of activities |
| ScheduleDisplay.TotalHoursAppend | apps/frontend/components/learning-schedule/learning-schedule-display.tsx:167 | the hours of two runs of activities together are the sum of their hours |
| ScheduleDisplay.Plural | apps/frontend/components/learning-schedule/learning-schedule-display.tsx:125-127 | "s" exactly when the count exceeds one, and nothing otherwise |
| ScheduleDisplay.ResourceToggle | apps/frontend/components/learning-schedule/learning-schedule-display.tsx:112-130 | no toggle without resources; "Hide Resources" when open; "Show 1 Resource" or "Show N Resources" when closed |
| ScheduleDisplay.DurationLabel | apps/frontend/components/learning-schedule/learning-schedule-display.tsx:334 | "Est. N months" when N exceeds one, otherwise "Est. N month" |
| ScheduleDisplay.PeriodCard.constructor | apps/frontend/components/learning-schedule/learning-schedule-display.tsx:164-165 | a period card starts open exactly when it is the first |
| ScheduleDisplay.PeriodCard.Toggle | apps/frontend/components/learning-schedule/learning-schedule-display.tsx:172 | the header flips the open state |
| ScheduleDisplay.ActivityCard.constructor | apps/frontend/components/learning-schedule/learning-schedule-display.tsx:85-86 | an activity card starts with its resources closed |
| ScheduleDisplay.ActivityCard.Toggle | apps/frontend/components/learning-schedule/learning-schedule-display.tsx:115 | the resource toggle flips the open state |
| ScheduleDisplay.ActivityCard.ListedResources | apps/frontend/components/learning-schedule/learning-schedule-display.tsx:132-134 | all resources are listed when open and none when closed |
| ComparisonCard.Bar | apps/frontend/components/compare/job-comparison-card.tsx:96-102 | the bar is green exactly from 80 percent, yellow exactly from 60 to below 80, and red exactly below 60 |
| ComparisonCard.StatusColor | apps/frontend/components/compare/job-comparison-card.tsx:170-174 | "perfect" is green, "partial" yellow, and any other status red |
| ComparisonCard.Window | apps/frontend/components/compare/job-comparison-card.tsx:113-149 | expanded shows the whole list, collapsed its first `limit` entries; the toggle appears exactly for a list longer than the limit and reads "Show less" when expanded and "+N more" with N = length − limit when collapsed |
| ComparisonCard.WindowPrefix | apps/frontend/components/compare/job-comparison-card.tsx:113-137 | the shown skills are always a prefix of the list, and the whole list when it fits |
| ComparisonCard.Card.constructor | apps/frontend/components/compare/job-comparison-card.tsx:34-35 | both lists start collapsed |
| ComparisonCard.Card.ToggleMatched | apps/frontend/components/compare/job-comparison-card.tsx:120 | flips the matched list's expansion and leaves the missing list's |
| ComparisonCard.Card.ToggleMissing | apps/frontend/components/compare/job-comparison-card.tsx:144 | flips the missing list's expansion and leaves the matched list's |
| ComparisonCard.Card.View | apps/frontend/components/compare/job-comparison-card.tsx:37-196 | only the spinner exactly while processing; otherwise the badge exactly for a positive improvement, the bar of the new score, matched skills cut at 10, missing skills exactly when there are some and cut at 8, the comparison rows exactly the first min(5, n) of them, and the details button exactly with a click handler |

## Left out

- Database sessions, commits and rollbacks are modelled as in-memory tables that a failed upload restores to the last commit; `created_at` ordering is insertion order.
- `uuid4` and `Date.now()` ids are parameters; the job service requires them to be fresh (`FreshIds`).
- `JobUploadRequest` body validation (the 422 answer) is not modelled; the router starts from a parsed request.
- Python's `splitlines` is modelled on `'\n'` only; an `OSError` while writing `.env` (the 500 "Failed to persist API key.") is not modelled.
- The language-model agent and its prompt are the `run` parameter; schema validation of a generated schedule is the `validate` parameter where pydantic's own messages would be needed, and those messages are simplified.
- `EmailStr` validation is the `normalizeEmail` parameter, which refuses an address or gives its normalised form; bcrypt is `hash`/`verify` and JWT signing is `encode`/`decode`; times are whole seconds.
- `created_at` is kept as the ISO text it is sent as; the request echo and `request_id` in responses are not modelled; the text of `JobNotFoundError` is the `notFoundDetail` parameter and the texts of `ResumeNotFoundError` and `JobNotFoundError` in the schedule service are the `NotFoundTexts` parameter, because the exceptions module is not part of this model.
- The resume keywords in the schedule prompt are not modelled, because the processed-resume table is not part of this model.
- Database errors other than those raised by the modelled code paths are not modelled.
- `JSON.parse` of foreign text is a parameter; for the stored user record `AuthClient.ParseUser` accepts exactly the text `AuthClient.StringifyUser` writes.
- The `register`, `login` and `getCurrentUser` calls of `lib/api/auth.ts` are network requests whose only logic is to throw on a non-OK answer; they are not modelled.
- `fetch` is network I/O: the pickers and the menu take what a fetch returned (or that it threw) as an input.
- `toLocaleDateString` is the browser's locale rendering: it is a parameter (`formatDate`, `date`); the `raw_resume.created_at` and `raw_job.created_at` reads of the option labels are not modelled.
- Router navigation is modelled as the route a handler returns.
- `Math.round` of the comparison scores is not modelled: the card takes whole percentages and whether the improvement is positive.
- ResumePreview.GroupSkills: `Object.entries` lists integer-like keys first, in ascending order; the model keeps first-appearance order for every category.
- JsonData.JsxChild: React's object error goes on to list the object's keys; the model's message is its fixed opening.
- JobPreview.Line: a field holding the number 0 is falsy, yet `{0 && …}` makes React print `0` where the line would be; the model shows no line.
- JobPreview.View: the same holds for `date_posted`: a value of 0 makes `{jobData.date_posted && …}` print `0` where the posted line would be; the model shows no posted line.
- AuthService.ClaimedUserId: every text `uuid.UUID` refuses gets the message "badly formed hexadecimal UUID string", whereas 32 characters that are not all hex digits raise `int()`'s "invalid literal for int() with base 16" text; both become the same 401, so no answer differs.
- JobPreview.ListBlock: an object carrying its own positive `length` key would reach `slice` and throw; the model hides it like any other object.
- JSX layout, icons and CSS classes are left out beyond the colour and icon choices listed above.
- React effects and state updates are treated as atomic steps; re-renders and effect scheduling are not modelled.
- From `text-area.tsx`, the effect that saves the tabs, the effect that fetches a job preview, the effect that resolves the resume id, and `handleImprove`, `handleViewResume` and `handleSwitchResume` are not modelled.
- JobSelector.Render: the `TypeError` thrown when the selected id matches no loaded job is modelled as a `Failure`, not reported as a finding.
- ResumeSelector.Render: the `TypeError` thrown when the selected id matches no loaded resume is modelled as a `Failure`, not reported as a finding.
- JobStore.JobRecord: the `raw_job.id`, `created_at` and `processed_at` entries of the returned dictionaries are not kept; the record holds the job id, its content and the processed view.
- JsonData.LaxBool: strings with white space around them are refused, where pydantic strips it first, and non-ASCII case is not folded (which also limits AuthSchema.ParseAuthCheck).
- AuthSchema.ParseAuthCheck: the lax boolean does not strip white space around a string and does not fold non-ASCII case.
- JsonData.LaxInt: white space around the digits, underscores between them, floats with a zero fraction and text such as "8.0" are refused, where pydantic's lax int accepts them (which also limits ScheduleSchema.RequiredInt and ScheduleSchema.RequestAccepted).
- ScheduleSchema.RequiredInt: the lax integer does not accept white space around the digits, underscores between them, a float with a zero fraction or text such as "8.0".
- ScheduleSchema.RequestAccepted: the same limits of the lax integer apply to `durationWeeks`.
- UuidCodec.Parse: `int(text, 16)` also reads non-ASCII Unicode digits; only ASCII digits are modelled.
- AuthSchema.ParseUserResponse: `created_at` is kept as text; pydantic's datetime parsing is not modelled.

## Findings

| source | as written | input that shows it | evidently intended | confidence | as-written member | corrected member |
|---|---|---|---|---|---|---|
| apps/backend/app/api/router/v1/job.py:104-108, 134-139 | the `HTTPException(400)` raised for an empty `job_id` is caught by the generic `except Exception` and answered as 500 "Error fetching job data" | `job_id = ""` | 400 "job_id is required" | high; not executed | JobRouter.EmptyJobIdSwallowed | JobRouter.GetJob |
| apps/backend/app/services/job_service.py:261-275 | the detail view calls `.get(...)` on `qualifications`, `compensation_and_benfits` and `application_info`, which creation stored as the bare extracted values (job_service.py:173-183) | an extraction whose `qualifications` is a list raises `AttributeError`; one whose value is an object without the wrapper key reads back as `[]` | the stored value is returned as stored | high; not executed | JobRouter.StoredListAnswered500 | JobStore.GetJobAsStored |
| apps/backend/app/services/learning_schedule_service.py:111, 132 | the job's keywords column is JSON text, and iterating it yields one bullet per character | a keywords column `{"extracted_keywords": ["Python"]}` | one bullet per keyword | high; not executed | ScheduleService.JobKeywordsCharacterBullets | ScheduleService.StoredKeywordsRendered |
