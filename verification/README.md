# HappyCustomersAI backend core, modelled in Dafny

HappyCustomersAI collects customer reviews, either one at a time or as a spreadsheet upload. It runs each review through a four-stage analysis pipeline (sentiment, categories, urgency, email decision). It stores the result in a review collection keyed by customer email, and it can send a follow-up email rendered from one of six templates.

This project models the backend core in Dafny and proves properties about that model. It has one module per source file, plus two shared modules:

- `Wrappers`: `Option`, `Result`, and `Reply<T>`, which is a parsed value or the text of the exception raised. Also `Outcome`.
- `Text`: the Python `str` operations the services use, with Python's semantics. These are `strip`, ASCII `lower`, `startswith`, `in`, `replace`, `split('\n')`, `join` and `str(n)`.
- `ReviewModel` (`backend/app/models/review.py`): the three closed vocabularies, the field constraints of the `Review` document, and the analysis record.
- `ReviewAgent` (`backend/app/agents/review_agent.py`):
  - the state record and the four stages, both as functions on a value and as methods on a mutable `AnalysisState`;
  - the fixed graph order and the projection `analyze_review` returns.
  - The language model and `json.loads` at each call site form an oracle. It answers with the parsed reply or an error text.
- `EmailService` (`backend/app/services/email_service.py`):
  - the template names and the template variables;
  - the subject and body taken from the rendered text;
  - `send_email`, which never raises. Rendering and SMTP delivery are functions passed in.
- `ReviewService` (`backend/app/services/review_service.py`):
  - the upsert by email (`create_and_process_review`);
  - the in-place re-analysis (`analyze_review_with_ai`);
  - the counts of `get_review_stats`.
  - These work over a `ReviewStore` class whose `records` sequence the methods update.
- `FileService` (`backend/app/services/file_service.py`):
  - file acceptance and the email regex;
  - the header normalisation and the first-match column mapping, on a `DataFrame` class whose columns are rewritten in place;
  - the row loop of `process_excel_reviews`;
  - the run summary.

Each imperative method (the pipeline stages, the upsert, the column search, the row loop) is proved against a specification function. The properties are then proved as lemmas about that function.

## Model

| member | source | states |
|---|---|---|
| ReviewModel.ParseSentiment | backend/app/models/review.py:8-11 | a text parses to a sentiment exactly when it is one of "positive", "negative" or "neutral", and the parsed value has that name |
| ReviewModel.ParseUrgency | backend/app/models/review.py:14-18 | a text parses to an urgency exactly when it is one of "low", "medium", "high" or "critical" |
| ReviewModel.ParseCategory | backend/app/models/review.py:21-31 | a text parses to a category exactly when it is one of the ten category values |
| ReviewModel.VocabularyRoundTrip | backend/app/models/review.py:8-31 | every enum member's value is in its vocabulary and parses back to the same member |
| ReviewModel.VocabularySizes | backend/app/models/review.py:8-31 | the vocabularies have exactly 3, 4 and 10 distinct values |
| ReviewModel.EmailPatternShape | backend/app/models/review.py:36 | the `customer_email` pattern holds iff there is a non-empty @-free prefix, one "@", and an @-free rest with a "." that has a character on each side |
| ReviewModel.NewReview | backend/app/models/review.py:34-43 | construction succeeds iff the name has 1..255 characters, the email matches the pattern and the text is non-empty; a new record is not AI-processed, has no email sent, no error, no analysis data, and both timestamps set to now |
| ReviewAgent.InitialState | backend/app/agents/review_agent.py:233-246 | a missing or zero rating is stored as 0, any other rating as given; the error is "" and the analysis is not complete |
| ReviewAgent.SentimentStage | backend/app/agents/review_agent.py:54-94 | on success sentiment and score come from the reply; on failure they are "neutral" and 0.0 and the error is "Sentiment analysis error: " plus the message; no other field changes |
| ReviewAgent.CategorizeStage | backend/app/agents/review_agent.py:96-144 | on failure categories are ["other"], key issues [] and the error is set; sentiment and every other field are left as they were |
| ReviewAgent.UrgencyStage | backend/app/agents/review_agent.py:146-186 | on failure the urgency is "medium"; only `urgency_level` and `error` change |
| ReviewAgent.DecideStage | backend/app/agents/review_agent.py:188-223 | `should_send_email` iff sentiment is "negative" or urgency is medium, high or critical; a template iff sending, chosen first-match critical > quality > service > delivery > support > general; the analysis is marked complete |
| ReviewAgent.ErrorIsLastFailure | backend/app/agents/review_agent.py:54-186 | after the graph, `error` is the message of the last inference stage that failed; a successful stage never clears it |
| ReviewAgent.ErrorEmptyIffNoFailure | backend/app/agents/review_agent.py:233-259 | for a fresh run the returned error is "" exactly when no inference stage failed |
| ReviewAgent.AllInferenceFails | backend/app/agents/review_agent.py:54-223 | with all three calls failing, the result is neutral/0.0, ["other"], [], "medium", send with "general_concern", complete, and the error is the urgency stage's message |
| ReviewAgent.CategorizationFailureFeedsUrgency | backend/app/agents/review_agent.py:139-184 | after a categorization failure the run continues: urgency is asked about the fallback categories and the result carries its answer |
| ReviewAgent.ResultInVocabulary | backend/app/agents/review_agent.py:84-184 | if the model answers within the vocabularies, the result's sentiment, urgency and categories are vocabulary values, since the fallbacks are too |
| ReviewAgent.AndVariantIsStricter | backend/app/agents/review_agent.py:192-195 | the "and" reading of the send rule implies the "or" rule as written, and a positive medium-urgency review separates them |
| ReviewAgent.AnalysisState.constructor | backend/app/agents/review_agent.py:233-246 | the mutable state starts as the initial state value |
| ReviewAgent.AnalysisState.AnalyzeSentiment | backend/app/agents/review_agent.py:54-94 | updating the state in place gives exactly the sentiment stage of the old state |
| ReviewAgent.AnalysisState.CategorizeIssues | backend/app/agents/review_agent.py:96-144 | updating the state in place gives exactly the categorize stage of the old state |
| ReviewAgent.AnalysisState.DetermineUrgency | backend/app/agents/review_agent.py:146-186 | updating the state in place gives exactly the urgency stage of the old state |
| ReviewAgent.AnalysisState.DecideEmailAction | backend/app/agents/review_agent.py:188-223 | the if-chain on the state gives exactly the decide stage of the old state |
| ReviewAgent.AnalysisState.Invoke | backend/app/agents/review_agent.py:35-52 | the compiled graph runs the four stages once each in the fixed order and ends after the decision |
| ReviewAgent.AnalyzeReview | backend/app/agents/review_agent.py:225-260 | the result is the nine-field projection of the final state; it is always complete and has a template iff it sends |
| EmailService.TemplateVars | backend/app/services/email_service.py:201-209 | the variables are the six built-in names plus the keyword arguments, a keyword argument wins on a clash, and reading a missing restaurant setting fails |
| EmailService.FirstSubjectLine | backend/app/services/email_service.py:217 | the first line that starts with "Subject:", or none if no line does |
| EmailService.FirstBlankLine | backend/app/services/email_service.py:221 | the first line that is only whitespace, or none if there is none |
| EmailService.SubjectFallback | backend/app/services/email_service.py:217-218 | with no "Subject:" line the subject is the unrendered text "Follow-up from {{ restaurant_name }}" |
| EmailService.FallbackLineSubject | backend/app/services/email_service.py:217-218 | removing "Subject: " from the fallback line and stripping gives that text |
| EmailService.ExtractComposeRoundTrip | backend/app/services/email_service.py:215-222 | for a rendered text "Subject: s", a blank line, then body b (s one stripped line, b stripped), the extracted subject is s and the body is b |
| EmailService.SendEmail | backend/app/services/email_service.py:186-248 | `true` only with every setting present, a known template, a successful rendering and a transport that accepted the composed message; every other path is `false` |
| EmailService.SendEmailReportsTransport | backend/app/services/email_service.py:224-244 | with settings, template and rendering in order, the result is exactly the transport's answer for From "name <address>", the given To, and the extracted subject and body |
| EmailService.NoRestaurantSettingsNeverSend | backend/app/services/email_service.py:201-209 | settings without a restaurant name never send |
| EmailService.DecisionTagsAreTemplateNames | backend/app/services/email_service.py:30-180 | every tag the decide stage can emit names a template, and every template is emitted for some state |
| ReviewService.FindByEmail | backend/app/services/review_service.py:20 | the first record with that email, or none iff no record has it |
| ReviewService.UpdatedRecord | backend/app/services/review_service.py:39-49 | an update writes name, text, the analysis fields, processed, the analysis and the error, and `updated_at`; email, `created_at` and rating are kept |
| ReviewService.InsertedRecord | backend/app/services/review_service.py:57-71 | a new record is created iff the fields are valid, and carries the analysis with its error |
| ReviewService.Upsert | backend/app/services/review_service.py:11-92 | a failure leaves the collection unchanged; it fails iff the analysis fails, or there is no record and a field is invalid; `is_update` iff the email existed; the size grows by 0 or 1; the record at the id carries the analysis and its error; email not sent, no template; other records unchanged |
| ReviewService.UpsertUpdateKeepsIdentity | backend/app/services/review_service.py:37-52 | an update changes the first record with that email, keeping its email and creation time |
| ReviewService.UpsertKeepsEmailsUnique | backend/app/services/review_service.py:19-75 | a collection with unique emails still has unique emails after an upsert |
| ReviewService.UpsertAgainUpdates | backend/app/services/review_service.py:19-27 | a second call with the same email is an update of the same record, and the collection does not grow |
| ReviewService.StoredErrorReportsFailures | backend/app/services/review_service.py:31-48 | with the pipeline as analyser, the stored error is "" exactly when no inference stage failed |
| ReviewService.AnalyzedRecord | backend/app/services/review_service.py:95-130 | on success the analysis fields are written, the error is overwritten only by a non-empty one, and every other field (email sent, identity, text, timestamps of creation) is kept; on failure the record is unprocessed with the message, and nothing else changes |
| ReviewService.LegacyAgreesWithUpdate | backend/app/services/review_service.py:106-117 | the legacy path writes what the upsert's update writes, except that a clean analysis leaves an earlier error in place |
| ReviewService.Count | backend/app/services/review_service.py:178-195 | a count over the collection is at most its size |
| ReviewService.CountDisjoint | backend/app/services/review_service.py:181-189 | counts of two exclusive conditions add up to the count of either |
| ReviewService.GetReviewStats | backend/app/services/review_service.py:175-213 | the total is the collection size, each count is at most the total, and the rate is 0 for an empty collection |
| ReviewService.BreakdownsWithinTotal | backend/app/services/review_service.py:180-189 | the three sentiment counts together, and the four urgency counts together, are at most the total |
| ReviewService.ProcessingRateIsPercentage | backend/app/services/review_service.py:212 | the processing rate lies between 0 and 100 |
| ReviewService.InsertAddsOne | backend/app/services/review_service.py:178-195 | adding a record adds one to the total and one to the processed count iff it is processed |
| ReviewService.ReviewStore.CreateAndProcessReview | backend/app/services/review_service.py:11-92 | the in-place update or insert leaves the collection, and returns the result, that `Upsert` describes |
| ReviewService.ReviewStore.AnalyzeReviewWithAi | backend/app/services/review_service.py:95-130 | only the record at the id changes, to `AnalyzedRecord` of it; the analyser's answer or error is returned |
| FileService.GetFileConfig | backend/app/services/file_service.py:20-27 | three extensions, three required columns, and a limit of 10485760 bytes |
| FileService.ValidateFile | backend/app/services/file_service.py:30-48 | accepted iff the lower-cased name ends in .xlsx, .xls or .csv and the size is absent or within the limit (a size of 0 skips the check); otherwise a 400 with the matching message |
| FileService.ValidateFileIgnoresCase | backend/app/services/file_service.py:35 | a name and its lower-cased form are judged alike |
| FileService.ScanBodyIsPattern | backend/app/services/file_service.py:51-54 | the scan around the first "@" and the last "." accepts exactly the strings of the regex's shape |
| FileService.ValidateEmail | backend/app/services/file_service.py:51-54 | holds iff the string is a non-empty [A-Za-z0-9._%+-] run, "@", a non-empty [A-Za-z0-9.-] run, ".", two or more ASCII letters, then the end, optionally followed by one "\n" |
| FileService.ValidEmailFitsReviewPattern | backend/app/services/file_service.py:51-54 | every string the upload's email regex accepts also satisfies the `Review` document's email pattern |
| FileService.NormalizedShape | backend/app/services/file_service.py:85 | a normalised name has no surrounding whitespace, no upper-case ASCII letter and no space |
| FileService.NormalizeColumnIdempotent | backend/app/services/file_service.py:85 | normalising twice is normalising once |
| FileService.NormalizedColumns | backend/app/services/file_service.py:85 | the header keeps its length, and each name is normalised in place |
| FileService.FirstMatch | backend/app/services/file_service.py:91-111 | the first column, in order, that matches by two-way substring or by the required column's keywords; none iff no column matches |
| FileService.MappingMeaning | backend/app/services/file_service.py:88-113 | a required column is mapped iff some column matches, and then to its first match; it is listed as missing iff none matches |
| FileService.MissingKeepsOrder | backend/app/services/file_service.py:88-113 | the missing list is the required list filtered by having no match, so the 400 detail names the missing columns in the required order |
| FileService.StructureCheckMeaning | backend/app/services/file_service.py:79-124 | the check passes iff every required column has a match; the mapping then has exactly the required keys and every value is a header column; a failure is a 400 |
| FileService.EmailColumnTakenForName | backend/app/services/file_service.py:91-100 | as written, a header starting with "customer_email" maps both customer_name and customer_email to that column |
| FileService.ExactFirstMappingKeepsNames | backend/app/services/file_service.py:91-111 | with an exact name preferred, each required name in the header maps to itself, and with all three present no two map to one column |
| FileService.DataFrame.NormalizeColumnNames | backend/app/services/file_service.py:85 | the header is rewritten in place to its normalised form; the rows are kept |
| FileService.FindColumn | backend/app/services/file_service.py:92-111 | the inner loop returns the first matching column |
| FileService.MapColumns | backend/app/services/file_service.py:88-113 | the outer loop builds exactly the mapping `MappingOf` and the missing list `MissingOf` describe |
| FileService.ValidateDataframeStructure | backend/app/services/file_service.py:79-124 | the header is normalised in place and the result is the structure check of the new header |
| FileService.CheckRow | backend/app/services/file_service.py:170-187 | the checks run name, email, text, then email format, with "" or "nan" counting as missing; the first failing check is the one reported |
| FileService.CheckedRowIsValidReview | backend/app/services/file_service.py:170-187 | a row that passes the checks has an email the `Review` document accepts and a non-empty text |
| FileService.Tally | backend/app/services/file_service.py:219-221 | exactly the counter named by the lower-cased sentiment grows by one, none does for any other sentiment, and nothing else changes |
| FileService.Reanalysed | backend/app/services/file_service.py:206-230 | a failed analysis keeps the row and adds its message to the errors; a successful one writes sentiment, score and urgency, keeps the row's other fields, applies `Tally`, and sets `email_sent` and raises `emails_sent` by one exactly when `should_send_email` holds |
| FileService.SkippedRow | backend/app/services/file_service.py:170-187 | a row that fails a check adds exactly its one message and changes nothing else |
| FileService.AiFailureStillProcessed | backend/app/services/file_service.py:206-233 | a row whose own analysis fails is still counted as processed, with one extra error and no tally |
| FileService.StoredAccounted | backend/app/services/file_service.py:189-238 | after the checks, a row adds one processed record or one message, and keeps the bookkeeping |
| FileService.ProcessRowAccounted | backend/app/services/file_service.py:164-238 | one row keeps processed ≤ rows ≤ processed + errors, tallies and emails ≤ processed, one record per processed row, and unique emails |
| FileService.ProcessRowsAccounted | backend/app/services/file_service.py:164-238 | the loop invariants hold after any number of rows |
| FileService.Cells | backend/app/services/file_service.py:166-168 | the cell positions read are those of the mapped columns |
| FileService.HeaderMapsRequired | backend/app/services/file_service.py:148 | a passing header maps every required name to one of its columns |
| FileService.ProcessSheet | backend/app/services/file_service.py:142-242 | the sheet is processed iff it is non-empty and its normalised header has every required column; a refusal leaves the collection unchanged and is a 500; a completed run counts every row |
| FileService.EmptySheetRejected | backend/app/services/file_service.py:142-143 | a sheet with no rows or no columns is refused, reported as "Failed to process file: 400: Excel file is empty" with status 500 |
| FileService.ProcessExcel | backend/app/services/file_service.py:127-246 | the run completes iff the upload passes validation, the file parses, the sheet is non-empty and its normalised header has every required column; every failure is a 500 and leaves the collection as it was; a completed run has `total_rows` equal to the number of rows |
| FileService.WrappedBadRequest | backend/app/services/file_service.py:244-246 | a 400 raised inside the run reaches the caller as a 500 whose text is "Failed to process file: 400: " and the detail |
| FileService.RefusedUploadReported | backend/app/services/file_service.py:136-137 | a refused upload becomes a 500 carrying the 400 and its detail |
| FileService.CompletedRunAccounted | backend/app/services/file_service.py:151-242 | a completed run accounts for every row, keeps emails unique, and its summary has a rate in 0..100 and failed plus processed ≥ total |
| FileService.SummaryRate | backend/app/services/file_service.py:256 | with processed ≤ total the success rate lies in 0..100 |
| FileService.RecordAnalysis | backend/app/services/file_service.py:206-230 | equals `Reanalysed`: a failure adds "Row n: AI processing failed - …" and changes nothing else; a success writes sentiment, score and urgency into the row, tallies the sentiment, and marks the email sent and counts it exactly when the analysis asks for a send |
| FileService.StoreRow | backend/app/services/file_service.py:189-233 | storing a checked row and analysing it updates the collection and the results as specified |
| FileService.ProcessRowInto | backend/app/services/file_service.py:164-238 | one iteration of the loop body, on the collection and the results dictionary |
| FileService.ProcessRowsInto | backend/app/services/file_service.py:164-238 | the row loop leaves the collection and the results that the fold over the rows describes |
| FileService.ProcessExcelReviews | backend/app/services/file_service.py:127-246 | the whole operation, on the review collection, has exactly the outcome `ProcessExcel` describes |
| FileService.GetFileProcessingSummary | backend/app/services/file_service.py:249-271 | the first ten errors, `has_more_errors` iff some were cut off, failed rows equal to the number of errors, and a rate of 0 for no rows |

## Left out

- Language-model calls, prompts and JSON parsing are oracles. Rendering (Jinja), SMTP delivery (aiosmtplib), spreadsheet parsing (pandas) and the database (Beanie) are parameters or values. `test_email_connection` is only a connection attempt and is not modelled.
- Oracles are deterministic functions. The upload's two analysis calls per row (inside `create_and_process_review`, and the loop's own call) are two separate oracles, because the model may answer them differently.
- async/await, logging and `lru_cache` are left out. Calls run one after another. Each operation takes one clock value `now`, so a batch stamps all its rows with the same time.
- The review collection is a sequence, and a record's position is its id. `find_one` returns the first record with the email. A database failure inside `get_review_stats`, which returns `{}`, is not modelled.
- Floating point: scores are copied reals and never computed on. The success and processing rates are exact reals: the rounding to two places and the "10.0MB" formatting of the size limit are not modelled (the message is the fixed text).
- `lower()` is modelled for ASCII letters only.
- ReviewAgent.DecideStage: the `except` branch of `_decide_email_action` cannot be reached in the typed model, so it is left out and the analysis always ends complete.
- ReviewAgent.DecideStage: the send rule follows the code ("negative" OR urgency medium or above). Some descriptions of the system give AND instead; `SendConditionAnd` and `AndVariantIsStricter` relate the two.
- The `Review` document declares no `rating`, `sentiment`, `sentiment_score`, `urgency_level`, `categories` or `key_issues`, although the services read or write them. They are fields of the modelled record. The module-level `analyze_review` the services import is the agent's `analyze_review`.
- Every row is assumed to be as wide as the header. Cells arrive as the text `str(cell)` gives.
- FileService.Cells: when two header cells normalise to the same name (as "Review" and "review " both become "review"), pandas gives every such column for `row[name]`, and `str()` of that is a multi-line rendering of all of them; the model reads the first column with that name instead.
- ReviewModel.NewReview: the text of a validation failure is an abstraction of pydantic's `ValidationError` message (field name and broken constraint only). It reaches the upload's errors as "Row n: …" when storing a row fails, for example on a name over 255 characters, so those error texts are not the service's exact words.
- FileService.ProcessExcelReviews: the `send_emails` argument is accepted and unused, as in the source.
- FileService.ValidEmailFitsReviewPattern: stated for the regex shape `EmailRegexMatch`, which `ValidateEmail` is proved equal to, not for `ValidateEmail` itself.
- The batch model uses the column mapping as written. The corrected mapping (below) is proved separately.
- The application settings class, the routes, the controllers and the frontend are not part of this model.

## Findings

| source | as written | input that shows it | evidently intended | confidence | as-written member | corrected member |
|---|---|---|---|---|---|---|
| backend/app/services/email_service.py:201-209 | `send_email` reads `settings.restaurant_name`, `restaurant_phone` and `restaurant_email`, which the settings class (backend/app/core/config.py:6-33) does not declare; the AttributeError is caught and `send_email` returns False | any call, with the settings as shipped | the settings declare the restaurant fields, and the result is the transport's answer | not executed; high | EmailService.NoRestaurantSettingsNeverSend | EmailService.SendEmailReportsTransport |
| backend/app/services/file_service.py:91-100 | a column matches customer_name when either name contains the other, or the column contains "name" or "customer"; "customer" occurs in "customer_email" | header ["customer_email", "customer_name", "review"]: both customer_name and customer_email map to the first column | a column named exactly like the required one is taken for it | not executed; high | FileService.EmailColumnTakenForName | FileService.ExactFirstMappingKeepsNames |
