# Financial Document Analyzer — verified model of the job lifecycle and the text tools

The Financial Document Analyzer is a FastAPI service. A client uploads a financial PDF.
The service extracts the PDF's text and hands it, with the client's query, to a
four-agent CrewAI pipeline. It stores each request as a row of the `analysis_results`
table. It can also queue the work for a Celery worker that retries failed attempts.
This project models two parts of it in Dafny and proves what they do.

1. **The job-record lifecycle.** Three pieces of code change the table, the uploads and the
   queue:
   - the synchronous `POST /analyze` handler;
   - the asynchronous `POST /analyze-async` submitter;
   - one delivery of the Celery task `analyze_document_task`.

   The readers `GET /analysis/{id}` and `GET /analyses` change none of these; they only open
   and close a database session around a query of the table.

   They are modelled twice:
   - **`Jobs`** gives each handler as a function on a `World`. The world holds the table,
     a clock, the uploaded PDFs, the written reports, the number of open database
     sessions, the task queue and a log of the observable steps in order: commits,
     extraction, kickoff and file operations.
   - **`Server.App`** is a class with the same state as fields. Its handler methods
     assign the record, commit, extract, kick off, write and remove step by step, in the
     source's order. Each is proved to end in exactly the state and response the `Jobs`
     function gives, and to keep the world valid.

   `HandlerProperties` and `TaskProperties` prove what every path does:
   - success, the pipeline raising, the report write failing after COMPLETED, oversize
     uploads, duplicate ids and a missing record;
   - the retry schedule of 30 and 60 seconds with at most three attempts;
   - clean-up in every `finally`: session closed, upload removed;
   - the quirks of the code as written: a retry sees a missing upload unless `os.remove` raised, a
     redelivered COMPLETED job runs again, and an old error survives a later success.

2. **The text tools of tools.py.** These are modelled as specification functions with
   lemmas, plus the loops as methods proved against them:
   - PDF text extraction and its duplicate reader (`PdfText`);
   - the investment-figure extractor (`Investment`) and the risk-section extractor
     (`Risk`);
   - their shared parts (`Signals`, `Patterns`) and the Python string operations they
     use (`Strings`).

   The two regular expressions are hand-coded scanners. The module comment of `Patterns`
   explains why the greedy first path decides every match.

Nothing external is called. The pipeline's answer, the page texts PyMuPDF would produce,
and whether a write, the database lookup, `os.remove` or the broker raises all arrive as
parameters: `CrewOutcome`, `PdfFile`, `RequestFaults` and `TaskFaults`. The request id that
`uuid.uuid4()` would draw is a parameter too. The clock is a counter that ticks at each
read of `utcnow()` whose value reaches the database: the `created_at` default and
`completed_at`. The reads for the `Generated` stamp inside a report do not tick it.

## Model

| member | source | states |
|---|---|---|
| Database.StatusValueRoundTrip | database.py:25-29 | a status is exactly one of the four values: parsing a status's value gives that status back, and only that value parses to it |
| Database.NewRecord | database.py:36-47 | a new row has the given id, filename, query and creation time, is PENDING, and has no result, error or completion time |
| Database.EmptyTable | database.py:31-47 | the empty table is valid and has no rows |
| Database.KeysUnique | database.py:36 | in a valid table no id is listed twice |
| Database.InsertValid | database.py:36-46 | inserting a new well-formed PENDING row under a fresh id, stamped with the current clock, keeps the table valid and adds exactly that key |
| Database.InsertRowsValid | database.py:39-47 | the same insert keeps every row well formed and its times below the clock |
| Database.InsertOrdered | database.py:46 | the same insert keeps the listing order equal to creation order |
| Database.UpdateValid | database.py:31-47 | assigning fields to an existing row keeps the table valid and its keys the same, when the creation time is kept and any completion time is in the past |
| Database.LaterClockValid | database.py:46 | a table valid at some clock stays valid at every later clock |
| Requests.NormalizeQueryFacts | main.py:152-153 | a blank query becomes the default and any other query is kept; the result is never blank, and normalising twice changes nothing |
| Requests.PipelineQuery | main.py:221-226 | the query the pipeline and the async row receive is non-empty and has no white space at either end |
| Requests.FilenameOrDefault | main.py:135 | a missing or empty upload filename becomes `unknown.pdf`, and any other name is kept |
| Requests.LastIndex | main.py:36 | the position `rfind` returns: -1 or an index inside the string that holds the character |
| Requests.LastIndexIsLast | main.py:36 | no occurrence of the character follows the position found, so it is the last one |
| Requests.SplitExtParts | main.py:36 | `os.path.splitext` splits a path into root and extension that concatenate back to it; the extension is empty or a dot followed by neither a dot nor a separator; a path without dots has no extension |
| Requests.ExtensionShape | main.py:36 | when the last dot follows the last separator and does not open a dot-only name, the split is exactly at that dot |
| Requests.SplitExtAtParts | main.py:36 | for any correct last-separator and last-dot positions, the split at them has the four properties of `os.path.splitext` |
| Requests.RootNonEmpty | main.py:36 | a dot that does not open a dot-only name is never at position 0 |
| Requests.TailHasNoSeparator | main.py:36 | after the last dot that follows the last separator there is neither a dot nor a separator |
| Requests.ReplaceSpaceLeavesNone | main.py:36 | replacing every space with `_` leaves no space |
| Requests.OutputFileNameFacts | main.py:36-37 | the safe name has at most 50 characters and no space; the report file name is the safe name, `_`, the first 8 characters of the id, then `.txt` |
| Requests.OutputPathShape | main.py:37 | the report path is the outputs directory joined with the file name, as `os.path.join` joins, when the safe name is relative; when the safe name is absolute the directory is dropped and the report lands outside the outputs directory |
| Requests.UploadPathInjective | main.py:131 | different request ids give different upload paths |
| Requests.GetAnalysisFacts | main.py:242-257 | an unknown id gives 404; a known id gives the row's fields, its status as its string value, and no completion time when unset |
| Requests.Reverse | main.py:267 | reversing keeps the length and puts element `n-1-k` at position `k` |
| Requests.Window | main.py:268-269 | offset then limit, for any sequence: the window holds `min(limit, n - skip)` elements, or none when `skip` is at or past the end, and its k-th element is the input's element at `skip + k` |
| Requests.Summaries | main.py:272-282 | one summary per listed key, in order, each projected from its row |
| Requests.ListAnalysesFacts | main.py:260-282 | the listing has `min(limit, n - skip)` entries (none when `skip >= n`); entry `k` summarises the row created `skip + k`-th most recently; creation times strictly decrease |
| Requests.ListedRows | main.py:265-282 | the length and per-entry part of `ListAnalysesFacts`, for any table whose listing names only rows |
| Requests.ListedNewestFirst | main.py:267 | the entries are newest first |
| Requests.KeysNewestFirst | main.py:267 | keys taken backwards from the creation order have strictly decreasing creation times |
| Requests.WindowOfNewest | main.py:267-269 | the window of the reversed creation order has the expected length and holds the keys counted back from the newest |
| Jobs.RemoveUploadFacts | main.py:185-190 | the `finally` removes the upload when it exists and `os.remove` returns, leaves it when `os.remove` raises, and touches nothing else |
| Jobs.AddRecordValid | main.py:139-140 | committing the new PENDING row keeps the world valid |
| Jobs.CommitValid | main.py:154-160 | committing field assignments to an existing row keeps the world valid |
| Jobs.TickValid | main.py:159 | reading the clock keeps the world valid |
| Jobs.RowOf | database.py:31-47 | every row of a valid world is well formed, keyed by its own id and created before the clock |
| HandlerProperties.SyncTryFrame | main.py:142-184 | the `try` of the handler leaves the sessions, the queue and the set of rows alone, and writes the upload exactly when it is small enough and its write returns |
| HandlerProperties.SyncDuplicateId | main.py:139-140 | an id already in the table makes the first commit raise; nothing is written and the session is closed |
| HandlerProperties.SyncCleansUp | main.py:185-190 | every path closes its session, adds exactly the row `id`, leaves the queue alone, and leaves no upload behind unless `os.remove` raised |
| HandlerProperties.SyncTooLarge | main.py:142-148 | an upload over the limit gives a 413 passed through unchanged; no file is written and the row stays PENDING |
| HandlerProperties.SyncWriteFails | main.py:149-150 | a failing upload write gives FAILED with the message, no completion time, and a 500 with the message |
| HandlerProperties.SyncSucceeds | main.py:133-172 | the whole success trace: PENDING, upload, PROCESSING, one extraction, one kickoff with the stripped query, COMPLETED, the report, the `finally`; the row keeps the raw query, has the result and the completion time, and the response carries the normalised query |
| HandlerProperties.SyncSucceedsFrom | main.py:154-172 | the success response, final row and reports for any upload path, report path and limit |
| HandlerProperties.SyncSucceedsLog | main.py:139-190 | the success event log for any upload path, report path and limit |
| HandlerProperties.SyncTrySucceeds | main.py:149-172 | the successful `try` alone: its events, the upload written, the row COMPLETED, the report written |
| HandlerProperties.SyncFinishLog | main.py:185-190 | the `finally` logs at most one removal and then the closing of the session |
| HandlerProperties.SyncCrashes | main.py:176-184 | the pipeline raising gives FAILED with the message, no result, no completion time, no report, and a 500 |
| HandlerProperties.SyncReportFails | main.py:157-184 | a failing report write after COMPLETED gives FAILED with the message, yet the result and completion time stay |
| HandlerProperties.SyncKeepsValid | main.py:113-190 | every request keeps the world valid |
| HandlerProperties.SyncTryValid | main.py:142-184 | the `try` keeps the world valid |
| HandlerProperties.SyncRunValid | main.py:156-184 | the steps after the kickoff keep the world valid |
| HandlerProperties.AsyncTooLarge | main.py:211-216 | an oversize upload is refused before anything is written: no row, no file, no message |
| HandlerProperties.AsyncWriteFails | main.py:218-219 | a failing upload write escapes with no row and no message |
| HandlerProperties.AsyncAccepted | main.py:211-238 | acceptance adds exactly one PENDING row holding the stripped query, queues exactly one message with the same id, query and path, and keeps the upload |
| HandlerProperties.AsyncEnqueueFails | main.py:229-231 | a broker failure leaves exactly the new PENDING row with nothing queued and the upload on disk; the events are session opened, upload written, PENDING committed, session closed, so `get_db` closes the session |
| HandlerProperties.AsyncDuplicateId | main.py:229-230 | a duplicate id makes the commit raise after the upload was written; no row changes, the upload stays, and the events end with `get_db` closing the session |
| HandlerProperties.AsyncCleansUp | main.py:194-238 | on every path of the submitter the session count returns to where it was and closing the session is the last event |
| HandlerProperties.AsyncKeepsValid | main.py:194-238 | every submission keeps the world valid, and every queued message names a row |
| TaskProperties.TaskRecordMissing | celery_worker.py:47-53 | with no row for the id the task returns its error, writes no row, reads no time, schedules no retry, and still cleans up |
| TaskProperties.TaskLookupFails | celery_worker.py:47-50 | a raising lookup writes no row, since `record` is still None, and goes to the retry |
| TaskProperties.TaskProcessingFirst | celery_worker.py:55-76 | with the row found, PROCESSING is committed first; then the file is extracted once and the pipeline started once with the query, path and text; nothing later extracts or kicks off |
| TaskProperties.TaskTail | celery_worker.py:78-111 | the events after the kickoff hold no extraction and no kickoff |
| TaskProperties.RunLog | celery_worker.py:78-102 | the events of the steps after the kickoff, on each path |
| TaskProperties.TaskLog | celery_worker.py:49-111 | the whole event log of an attempt that found its row |
| TaskProperties.TryFrame | celery_worker.py:49-103 | the `try` leaves the uploads, sessions, queue and set of rows alone |
| TaskProperties.TaskSucceeds | celery_worker.py:78-95 | success gives COMPLETED with the result and completion time, leaves `error` as it was, writes the report under the row's file name and returns its path |
| TaskProperties.TaskCrashes | celery_worker.py:97-103 | the pipeline raising gives FAILED with the message and leaves result and completion time untouched; the retry follows |
| TaskProperties.TaskReportFails | celery_worker.py:78-102 | a failing report write after the COMPLETED commit makes the same row FAILED, keeping result and completion time |
| TaskProperties.TaskCleansUp | celery_worker.py:105-111 | every path closes its session and, unless `os.remove` raised, removes the upload; the other uploads stay |
| TaskProperties.RetrySchedule | celery_worker.py:103 | the retries are 30 and then 60 seconds away; a failure with retry count 2 or more gives up |
| TaskProperties.DeliveriesFacts | celery_worker.py:32-103 | over repeated deliveries: each retry's countdown is 30 times the retry number; only the last delivery is not a retry; there are at most `3 - retries` deliveries; giving up after finding the row leaves it FAILED |
| TaskProperties.AttemptOutcome | celery_worker.py:97-103 | an attempt retries only below the limit, with countdown `30 * (retries + 1)`; giving up after finding the row leaves it FAILED |
| TaskProperties.DeliveriesSchedule | celery_worker.py:32-103 | the countdown and count part of `DeliveriesFacts` |
| TaskProperties.DeliveriesGiveUp | celery_worker.py:97-103 | the last-delivery part of `DeliveriesFacts` |
| TaskProperties.GaveUpAfterFailure | celery_worker.py:97-103 | giving up with the row found leaves the row FAILED |
| TaskProperties.AtMostThreeAttempts | celery_worker.py:32-103 | a fresh job runs at most three times, waiting 30 and then 60 seconds |
| TaskProperties.RetrySeesMissingFile | celery_worker.py:105-111 | after an attempt's `finally` the upload is gone; the next delivery extracts the not-found message and passes it to the pipeline |
| TaskProperties.RedeliveryRerunsCompleted | celery_worker.py:50-80 | a redelivered message for a COMPLETED row sets it back to PROCESSING, runs the pipeline again, and on success replaces the result |
| TaskProperties.ErrorSurvivesSuccess | celery_worker.py:78-101 | after a failed attempt and then a successful one, the row is COMPLETED with the new result and still holds the old error |
| TaskProperties.TaskKeepsValid | celery_worker.py:32-111 | every attempt keeps the world valid |
| TaskProperties.TryValid | celery_worker.py:49-103 | the `try` keeps the world valid |
| TaskProperties.RunValid | celery_worker.py:78-103 | the steps after the kickoff keep the world valid |
| Server.App.constructor | database.py:68-72 | the service starts valid, with an empty table, no uploads, no reports, nothing queued and no open session |
| Server.App.Open | database.py:75-77 | `get_db` opens one more session |
| Server.App.Close | database.py:80-81 | closing the session releases it |
| Server.App.Add | main.py:139-140 | `db.add` plus `commit` inserts the row and stamps it with the clock |
| Server.App.Save | main.py:154-155 | `commit` stores the assigned fields of an existing row |
| Server.App.Now | main.py:159 | `utcnow()` returns the current time and advances the clock |
| Server.App.WriteFile | main.py:149-150 | the upload is written at its path |
| Server.App.WriteReportFile | main.py:39-46 | the report file is written at its path |
| Server.App.RemoveFile | main.py:185-190 | the upload is removed if it exists and `os.remove` returns |
| Server.App.Kickoff | main.py:83-102 | the PDF is extracted once and the pipeline started once with that text |
| Server.App.Delay | main.py:231 | the message is queued |
| Server.App.AnalyzeDocument | main.py:113-190 | the handler, done step by step, keeps the service valid and ends in exactly `Jobs.SyncAnalyze`'s state and response |
| Server.App.AnalyzeTry | main.py:142-184 | the handler's `try` and `except` clauses, step by step, equal `Jobs.SyncTry` |
| Server.App.Except | main.py:176-184 | the `except` commits FAILED with the message and answers 500 |
| Server.App.AnalyzeDocumentAsync | main.py:194-238 | the submitter, step by step, keeps the service valid and ends in exactly `Jobs.AsyncSubmit`'s state and response |
| Server.App.AnalyzeDocumentTask | celery_worker.py:32-111 | one delivery of the task, step by step, keeps the service valid and ends in exactly `Jobs.TaskAttempt`'s state and delivery |
| Server.App.TaskTry | celery_worker.py:49-103 | the task's `try` and `except`, step by step, equal `Jobs.TaskTry` |
| Server.App.TaskExcept | celery_worker.py:97-103 | the task's `except` with the row found commits FAILED and schedules the retry or gives up |
| Server.App.GetAnalysisById | main.py:242-257 | the poll returns `GetAnalysis` of the table inside one session, opened and closed, and keeps the service valid |
| Server.App.ListAnalysesPage | main.py:260-282 | the listing returns `ListAnalyses` of the table inside one session, opened and closed, and keeps the service valid |
| Strings.Strip | tools.py:47 | `strip` leaves no white space at either end, never lengthens, and is empty exactly when the input is all white space |
| Strings.StripCuts | tools.py:47 | the cut points of `strip`: the result is the slice `s[a..b]` of the input, and everything before `a` and from `b` on is white space |
| Strings.StripCutsSpace | tools.py:47 | `strip` returns the input with a white-space prefix and a white-space suffix removed; together with Strip's own contract this leaves only one possible result |
| Strings.ContainsNeedsRoom | tools.py:41 | a substring is never longer than the string holding it |
| Strings.ReplaceAll | tools.py:42 | replacing with something no longer never lengthens, and strictly shortens when the pattern occurs and the replacement is shorter |
| Strings.Take | main.py:36 | `[:n]` is the prefix of length `min(n, len)` |
| Strings.SplitFrom | tools.py:112 | splitting always gives at least one piece |
| Strings.SplitLinesFrom | tools.py:114 | no piece of a split at `"\n"`, from any start without a newline, holds a newline |
| Strings.SplitLinesHaveNoNewline | tools.py:114 | the pieces of `text.split("\n")` hold no newline, so with the join they are exactly the lines |
| Strings.SplitBlocksFrom | tools.py:112 | splitting at `"\n\n"` cuts at the leftmost separator: no piece holds `"\n\n"` and no piece but the last ends in a newline |
| Strings.SplitBlocksShape | tools.py:112 | the same for `text.split("\n\n")` from the start of the text |
| Strings.SplitFromJoin | tools.py:112 | joining the pieces of a split with its separator gives the text back |
| Strings.SplitJoin | tools.py:112 | joining the pieces of a split with its separator gives the text back |
| Strings.NatToString | tools.py:120 | `str` of a count is a non-empty run of digits |
| Strings.NatToStringRoundTrip | tools.py:120 | parsing the decimal form of a count gives the count back |
| Strings.NatToStringInjective | tools.py:120 | different counts give different strings |
| Patterns.DigitRun | tools.py:100 | the greedy run of digits, and commas where allowed, and the first character past it is neither |
| Patterns.SpaceRun | tools.py:100 | the greedy run of white space, and the first character past it is not white space |
| Patterns.UnitLength | tools.py:100 | the optional unit takes 7, 1 or 0 characters, within the text |
| Patterns.MatchAt | tools.py:100-101 | a money match starts with `$` and then a digit or comma; a percentage match starts with a digit and ends with `%`; every match has at least two characters |
| Patterns.FindFromEmptyIff | tools.py:117 | `findall` from a position finds nothing exactly when no match starts at or after it |
| Patterns.SearchIffFindAll | tools.py:137 | `re.search` succeeds exactly when `re.findall` finds something |
| Patterns.FindFromShape | tools.py:117 | every found money figure starts with `$` and a digit or comma; every found percentage starts with a digit and ends with `%` |
| Patterns.FindAllShape | tools.py:125 | every found money figure starts with `$` and a digit or comma; every found percentage starts with a digit and ends with `%` |
| PdfText.Collapse | tools.py:41-42 | the squeeze loop leaves no three newlines in a page and never lengthens it |
| PdfText.VisibleAppend | tools.py:43 | the characters other than newlines of a concatenation are those of its parts |
| PdfText.ReplaceKeepsVisible | tools.py:42 | one replacement round removes newlines only |
| PdfText.CollapseKeepsVisible | tools.py:41-42 | squeezing removes newlines only |
| PdfText.CollapseIdempotent | tools.py:41-42 | squeezing a squeezed page changes nothing |
| PdfText.ExtractedTextCases | tools.py:19-47 | the extractor never returns an empty string: the not-found message for a missing file, the open error for an unopenable one, otherwise the stripped page texts or the no-text message |
| PdfText.JoinedPagesCanHoldTripleNewline | tools.py:37-47 | a page ending in two newlines followed by a page gives a result that holds three newlines |
| PdfText.ExtractPdfText | tools.py:19-47 | the extractor's loops compute exactly the extracted text |
| PdfText.ReadFinancialDocument | tools.py:52-78 | the reader's loops compute exactly the extracted text |
| PdfText.BothReadersAgree | tools.py:52-78 | the reader and the extractor return the same non-empty string for every file |
| Signals.StrippedNonEmpty | tools.py:112 | the kept paragraphs are non-empty and stripped, and there are no more than the chunks |
| Signals.StrippedLonger | tools.py:114 | the fallback lines are stripped and longer than the bound |
| Signals.StrippedNonEmptyExact | tools.py:112 | a string is a kept paragraph exactly when it is the non-empty strip of some chunk |
| Signals.StrippedLongerExact | tools.py:114 | a string is a kept fallback line exactly when it is the strip of some line and longer than the bound |
| Signals.StrippedLongerSound | tools.py:114 | every kept fallback line is the strip of some line and longer than the bound |
| Signals.StrippedLongerComplete | tools.py:114 | every line whose strip is longer than the bound has that strip kept |
| Signals.ParagraphsShape | tools.py:112-114 | paragraphs are stripped and non-empty; with five or more non-blank blocks they are exactly the non-blank strips of the `"\n\n"` pieces, otherwise exactly the strips of the `"\n"` pieces longer than the bound |
| Signals.MatchedKeywords | tools.py:136 | a keyword is matched exactly when it occurs in the lowered paragraph, and the matches keep keyword order |
| Signals.FirstIndex | tools.py:119 | the first position of an element, with no occurrence before it |
| Signals.FirstIndexInPrefix | tools.py:119 | the first position of an element found in a prefix is the same in the whole sequence |
| Signals.Dedup | tools.py:119 | `dict.fromkeys` keeps each element once: the result has no repeats and exactly the input's elements |
| Signals.DedupKeepsFirstOrder | tools.py:119 | the kept elements are in the order of their first occurrences |
| Signals.DedupOfDistinct | tools.py:119 | a sequence without repeats is unchanged |
| Investment.AppendBullets | tools.py:121-122 | the loop appends one bullet per figure |
| Investment.AppendFigures | tools.py:118-123 | the loop appends exactly the figure block |
| Investment.CollectSections | tools.py:133-138 | the loop collects exactly the metric sections |
| Investment.AppendSectionLines | tools.py:142-145 | the loop appends three lines per shown section |
| Investment.AppendSections | tools.py:140-145 | the loop appends exactly the section block |
| Investment.AnalyzeInvestmentData | tools.py:82-153 | the tool's loops compute exactly the report its specification function gives |
| Investment.FigureBlockFacts | tools.py:117-131 | a figure block is empty exactly when nothing matched; otherwise it counts all matches, then lists the first occurrences, deduplicated and capped, one bullet each, then a blank line |
| Investment.BulletsAt | tools.py:121-122 | bullet `k` is the `k`-th figure, stripped and indented |
| Investment.BodyShortIff | tools.py:147 | the report body has at most two lines exactly when there are no money figures, no percentages and no sections |
| Investment.NoFiguresIff | tools.py:147-151 | the no-figures message appears exactly when nothing matched and no section was found; otherwise the body is followed by the closing line |
| Investment.MetricSectionsExact | tools.py:133-138 | a paragraph becomes a section exactly when it names a metric and holds a figure; its text is capped at 600 characters and its keywords are non-empty |
| Investment.SectionKeywords | tools.py:136 | a section's keywords are exactly the metric keywords in its lowered text, in keyword order |
| Investment.SectionLinesLength | tools.py:142-145 | each shown section takes three lines |
| Investment.SectionBlockBound | tools.py:140-145 | at most ten sections are shown, and the block opens with the count of all of them |
| Investment.RepeatedFigureCountedTwice | tools.py:119-120 | a figure found twice is counted twice but listed once |
| Investment.SameBulletTwice | tools.py:119-122 | figures that differ only in trailing white space are kept apart by the dedup but give the same bullet line |
| Risk.CollectRelevant | tools.py:206-211 | the loop collects exactly the relevant extracts of a category |
| Risk.AppendEntries | tools.py:215-218 | the loop appends three lines per shown extract |
| Risk.AppendCategory | tools.py:206-219 | the loop appends exactly the category block and returns the number of all its extracts |
| Risk.AppendCategories | tools.py:205-219 | the loop appends all category blocks in order and totals all extracts |
| Risk.CategoriesSnoc | tools.py:205-219 | one more category adds its block and its count |
| Risk.AssessRiskFactors | tools.py:157-228 | the tool's loops compute exactly the report its specification function gives |
| Risk.RelevantEmptyIff | tools.py:206-213 | a category has no extracts exactly when no paragraph names one of its keywords |
| Risk.RelevantExact | tools.py:206-211 | every paragraph naming a keyword gives an extract, every extract comes from such a paragraph, and its text is capped at 500 characters |
| Risk.ExtractTerms | tools.py:208-209 | an extract's terms are exactly the keywords in its lowered paragraph, in keyword order |
| Risk.TotalZeroIff | tools.py:219-221 | the total is zero exactly when no category has an extract, and exactly when no category block is written |
| Risk.TotalZeroIffNoneRelevant | tools.py:205-219 | the total of relevant paragraphs is zero exactly when no category has one |
| Risk.BlocksEmptyIffTotalZero | tools.py:205-219 | no category block is written exactly when the total is zero |
| Risk.CategoryBlockEmptyIff | tools.py:213-218 | one category writes no block exactly when it has no relevant paragraph |
| Risk.NothingRelevantIff | tools.py:221 | the total is zero exactly when no paragraph names any keyword of any category |
| Risk.ClosingIff | tools.py:221-226 | with nothing relevant, the report is the title and the two fixed lines; otherwise the blocks, the total line and the closing line |
| Risk.NoRisksIff | tools.py:198-226 | the same for the text's own paragraphs: the fixed message exactly when nothing is relevant, otherwise the total line over five categories |
| Risk.EntriesLength | tools.py:215-218 | each shown extract takes three lines |
| Risk.CategoryBlockShape | tools.py:213-218 | a block is written exactly when the category has extracts; it opens with the count of all of them and shows at most five |
| Risk.LowerHasNoUpper | tools.py:208 | a lowered paragraph has no ASCII capital |
| Risk.NoUpperDoesNotContain | tools.py:209 | a text without capitals contains no keyword that starts with one |
| Risk.SecNeverMatches | tools.py:186 | the keyword `SEC` is listed but never matches, because paragraphs are lowered first |

## Left out

- Text outside ASCII: `str.lower` folds only `A`–`Z`, and `\d` in the patterns matches only `0`–`9`. Python folds and matches all of Unicode. White space follows Python's `isspace` list in full.
- Requests.Window: negative `skip` or `limit` are not modelled. FastAPI accepts them, but the model takes them as natural numbers. The query defaults `skip=0` and `limit=20` of `list_analyses` (main.py:262) are not modelled either; both are always passed.
- Failures of `db.commit()` other than the duplicate key on insert, and SQLAlchemy session semantics (isolation, rollback, expiry), are not modelled. A commit always stores the assigned fields.
- Column lengths (`String(36)`, `String(255)`) and database type checks are not modelled.
- Real time: the clock is a counter ticked by each read, and timestamps are compared only by order. The `str(datetime)` rendering in the readers is left out; the model returns the time value itself.
- Report file contents, and the `Generated` timestamp in them: only the report's path and whether its write raises are modelled (main.py:39-46, celery_worker.py:85-92).
- `os.makedirs` for the outputs and data directories: its failure counts as a failure of the write that follows.
- A partial upload is not modelled. `open(file_path, "wb")` creates or truncates the file before `write` runs (main.py:149-150 and 218-219). So a write that raises after `open`, on a full disk for example, leaves an empty or partial file at the upload path. The model treats every raising write as writing nothing: `Jobs.SyncTry`, `Jobs.AsyncSubmit`, `HandlerProperties.FilesAfterTry`, `HandlerProperties.SyncTryFrame` and `HandlerProperties.SyncCleansUp` leave that path as it was. On the sync path the source's `finally` (main.py:186-188) then removes the partial file and logs the removal, and the model logs no removal. On the async path (main.py:211-231) nothing removes it, so the partial file stays on disk, and the model does not show it.
- `asyncio.to_thread` is modelled as a plain sequential call. The model does not capture concurrency between requests, or between a task and a retry of the same job; each handler runs to completion before the next one starts.
- Celery broker and backend configuration, JSON serialisation, start tracking, prefetch and the scheduling of a retry after its countdown are not modelled (celery_worker.py:14-29). A retry is the next call of the task with the retry count plus one. Late acknowledgement appears only as a redelivery of the same message.
- The exception `self.retry` raises, and the error the task records, carry the exception's message only. Its type is not kept.
- `await file.read()` raising is not modelled; the upload's size and content are given.
- The text of the duplicate-key exception is represented by one fixed message.
- `uuid.uuid4()` is a parameter: the caller chooses the request id.
- `UserRecord`, `init_db` and the application `lifespan` are not modelled beyond the empty starting state (database.py:53-72, main.py:52-64).
- The health-check endpoint, logging (logger.py), the CrewAI agents and tasks (agents.py, task.py) and the web-search tool are left out. The pipeline is only a given outcome per attempt.
- PyMuPDF is not modelled. A file's page texts, or the message of the exception `fitz.open` raises, are given.
- An exception while iterating the pages or from `page.get_text()` (tools.py:37-39) is not modelled. It is outside any `try`, so it would escape `extract_pdf_text`, but in the model the pages of an opened file are always readable.
- Paths follow POSIX only: `os.path.splitext` and `os.path.join` are modelled as `posixpath` defines them, with `/` as the only separator.
- Building the crew (`Crew(...)`, celery_worker.py:57-70 and main.py:83-96) is not a separate step. A failure while building it is represented as a crash of the kickoff, which the model logs after the extraction. So on that path the model logs a kickoff that the source does not reach. In the task the crew is built before `extract_pdf_text`, so the logged extraction is not reached either. The rows stored are the same either way.
- `MAX_UPLOAD_SIZE_MB` is a natural number in `Requests.Config`. config.py reads it with `int(...)`, which also accepts a negative value, and then every upload is refused with 413 (main.py:144 and 212). The model does not cover that setting.
- The default argument `file_path="data/sample.pdf"` of `read_financial_document` (tools.py:52) and of `run_crew` (main.py:75) is not modelled; the path is always passed.
- The handlers compute the report path before they run the pipeline. The source computes it after, from the same values, so the result is the same.

