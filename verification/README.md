# Delhi High Court case-status scraper: a Dafny model

The system looks up a case in the Delhi High Court's "case type status"
form on behalf of a web user. A Flask route validates the submitted case
type, number and filing year. It checks that the court site is reachable
and queues a background job under a fresh job id. The job drives a
Selenium-controlled browser through the form: it fills the year through a
cascade of selectors and selection methods, and submits the form through a
cascade of buttons, the form element and the Enter key. It then reads the
result page into a case record. The job reports its progress in a shared
status store that the browser polls. It publishes its final record into a
"latest result" slot. A scraper call that raises a retryable error is
retried, with at most three calls in all (so at most two retries). Every
search is logged in a log capped at 1000 records.

This project models that core in five modules:

- `Text`: the ASCII meaning of the Python string operations the code uses
  (`lower`, `strip`, `isdigit`, `in`, `split`, `s[:n]`, `str(n)`).
- `Extractor`: `extract_case_information` in `engine.py`. It covers the two
  early exits (still on the search page, not found), the localisation of the
  result text, the line scan that fills the seven fields, the PDF link and
  the final validation. The page, as the browser sees it, is an input value.
- `Session`: the year cascade and the submit cascade, with every browser
  action abstracted to whether it worked, and the step order of
  `get_case_information`.
- `ErrorPolicy`: `SimpleErrorHandler` in `app.py`. It covers input
  validation, error classification, the user-facing advice, the retry
  verdict and delay, and `handle_error`.
- `Jobs`: the status store and the latest slot as a class, the search log
  as a class, and the background job `scrape_case_background`. The job is a
  method over the store and the log, with its retry loop, progress values
  and terminal outcome. The module also holds the status endpoint with its
  eviction of stale entries, the clear route, and the POST branch of the
  search route.

Errors are modelled by their message (`str(e)`). The clock, the
reachability probe, what each scraper call does, and whether the report
files could be written are all inputs. The clock is `time.time()`: a `real`
number of seconds with fractions. Timestamps and the one-hour eviction use it
as it is. Only the job id takes its whole seconds, truncated like `int()`
(`Jobs.WholeSeconds`). Every progress value the status store is given is
recorded in a ghost `progressLog`, so the job's contract speaks of the
progress the store actually received.

Three behaviours of the code the model keeps:

- The delay before a retry is always 2. `handle_error` asks for
  `get_retry_delay(1)` whatever the attempt (app.py:170). A schedule of
  2, 4, ... is never used.
- The pre-flight error inside the job is a `ConnectionError` whose text
  contains no keyword. So it is classified UNKNOWN, not NETWORK, and it is
  not retryable (`ErrorPolicy.PreflightIsUnknown`).
- `get_case_information` catches every exception and returns a record
  (engine.py:874-884). So the job's retry loop ends after the first call
  (`Jobs.NoRetryWhenScraperReturns`). The loop is still modelled in full,
  for scrapers that raise.

## Model

| member | source | states |
|---|---|---|
| ErrorPolicy.ParseInt | app.py:110-111 | `int()` on form text: succeeds only when the stripped text is non-empty; `ParseIntRoundTrip` states that it reads back every written integer |
| ErrorPolicy.ParseIntRoundTrip | app.py:110-111 | `int()` reads back every integer written by `str()` |
| Text.Split | engine.py:702 | Python's `split(c)`: at least one piece, one exactly when `c` does not occur, no piece holds `c`, and the pieces joined with `c` give the text back |
| Text.LastPieceAfterLastSeparator | engine.py:738-742 | the last piece of a split is what follows the last separator |
| Text.FirstOccurrenceSplitUnique | engine.py:722 | `split(sep, 1)` is determined: two splits of a text around `sep`, neither with an occurrence of `sep` starting in its left part, are the same split |
| Text.AfterLastUnique | engine.py:738-740 | the text after the last occurrence of a character is unique: two ways of writing a text as something, the character, then a text free of it, end in the same text |
| ErrorPolicy.ValidateCaseInputs | app.py:103-122 | accepted exactly when all three fields are present, both numbers parse, the number is positive and the year is in 1990..2030; the message is "Valid inputs" exactly on acceptance; missing fields and unparsable numbers get their own messages; for any spellings `int()` reads, a non-positive number gets the number message before the year is looked at, and otherwise a year outside 1990..2030 gets the year message |
| ErrorPolicy.WrittenInputsAccepted | app.py:106-119 | any non-empty type with a positive number and a year in 1990..2030, written in decimal, is accepted |
| ErrorPolicy.RangeRejections | app.py:113-117 | a non-positive number is rejected with the number message, and otherwise a year outside 1990..2030 with the year message |
| ErrorPolicy.ClassifyError | app.py:124-139 | the if-chain itself; `ClassifyIsFirstMatch` states that it is the first keyword match in precedence order, and UNKNOWN exactly when no keyword occurs |
| ErrorPolicy.FirstKindIsFirst | app.py:128-139 | scanning kinds in order yields UNKNOWN exactly when no kind's keywords occur, else the first kind whose keyword occurs |
| ErrorPolicy.ClassifyIsFirstMatch | app.py:124-139 | the classifier is the first match over TIMEOUT, NETWORK, DNS, BROWSER, ELEMENT_NOT_FOUND on the lowercased message; UNKNOWN exactly when no keyword occurs |
| ErrorPolicy.ClassifyIgnoresCase | app.py:126 | classification does not depend on letter case |
| ErrorPolicy.ConnectionTimeoutIsTimeout | app.py:128-131 | every message whose lowercased text contains "timeout" is a TIMEOUT, whatever else it contains (a connection included): the timeout test comes first |
| ErrorPolicy.UnknownWithoutMarks | app.py:138-139 | a message lacking the letters and letter pairs every keyword needs is UNKNOWN |
| ErrorPolicy.PreflightIsUnknown | app.py:297-298 | the job's pre-flight error message is classified UNKNOWN and is not retryable |
| ErrorPolicy.UserFriendlyMessage | app.py:141-154 | the advice per kind; `GenericLeadOnlyWhenUnknown`, `AdviceIgnoresText` and `UnexpectedQuotesError` state its properties |
| ErrorPolicy.GenericLeadOnlyWhenUnknown | app.py:141-154 | the message starts with the generic "unexpected error" lead exactly when the kind is UNKNOWN |
| ErrorPolicy.AdviceIgnoresText | app.py:141-152 | for every kind except UNKNOWN the advice is fixed, whatever the error text |
| ErrorPolicy.UnexpectedQuotesError | app.py:153-154 | the UNKNOWN advice is the fixed lead, then the first 100 characters of the error (all of it when shorter), then "..." |
| ErrorPolicy.ShouldRetry | app.py:156-159 | the retry verdict per kind; `RetriedByName` ties it to the handler's list of names |
| ErrorPolicy.RetriedByName | app.py:156-159 | a kind is retried exactly when its name is one of TIMEOUT, NETWORK, ELEMENT_NOT_FOUND |
| ErrorPolicy.RetryDelay | app.py:161-163 | the backoff delay lies in 1..10 and is either 10 or 2 to the attempt |
| ErrorPolicy.RetryDelayShape | app.py:161-163 | the delay never decreases with the attempt, is 1, 2, 4, 8 for attempts 0..3 and 10 from attempt 4 on |
| ErrorPolicy.HandleError | app.py:165-177 | retry exactly for TIMEOUT, NETWORK and ELEMENT_NOT_FOUND; the message is the advice for the classified kind; the delay is 2 on retry and 0 otherwise |
| Extractor.IsStill | engine.py:596-597 | the still-on-search-page test; `Extract` states the failure it leads to |
| Extractor.IsNotFound | engine.py:604-627 | the not-found test: a failure phrase and no success phrase in the lowercased body; `SuccessPhraseWins` and `Extract` state its consequences |
| Extractor.SuccessPhraseWins | engine.py:624-627 | a body with any success phrase is never "not found", whatever error phrases it holds |
| Extractor.EarlyFailure | engine.py:597-602 | an early exit is a Failed record with every field "N/A" |
| Extractor.FirstMatchIsFirst | engine.py:649-663 | the localisation search returns nothing exactly when no candidate qualifies, else the first qualifying candidate in selector-then-element order |
| Extractor.FirstQualifying | engine.py:650-663 | the nested selector/element loop returns the first qualifying candidate |
| Extractor.Localise | engine.py:649-698 | the text scanned is the localised text: a qualifying table, else a content area, else the body |
| Extractor.LocalisedTextIsFirst | engine.py:649-698 | the localised text is the first qualifying table text, else the first content-area text longer than 100, else the body |
| Extractor.FirstSeparator | engine.py:720-721 | the separator chosen is the first in the list ' vs ', ' versus ', ' v/s ', ' v. ' that occurs in the lowercased line; when none is chosen, none occurs |
| Extractor.PartiesOf | engine.py:720-725 | the separator is the first one found in the lowercased line; the original line splits into a left part, the separator and a right part, each part stripped, where no occurrence of the separator starts inside the left part, so the split is at its first occurrence even when occurrences overlap ("A vs vs B" gives "A" and "vs B"; `Text.FirstOccurrenceSplitUnique` shows this split is unique); there are no parties exactly when no separator occurs in the lowercased line or the chosen one does not occur in the original line |
| Extractor.SplitParties | engine.py:720-725 | the separator loop sets the parties exactly as `PartiesOf` and otherwise leaves them |
| Extractor.SameLineDate | engine.py:738-742 | a same-line date, when found, has a digit and is the stripped text after the line's last ':' |
| Extractor.SameLineDateTaken | engine.py:738-742 | conversely, whenever the stripped text after a line's last ':' has a digit, that text is the same-line date |
| Extractor.DateStep | engine.py:729-742 | a date field either keeps its value or takes a value with a digit |
| Extractor.UpdateDate | engine.py:729-742 | the date update of one line matches `DateStep` |
| Extractor.UpdateLabel | engine.py:760-772 | the status, judge or advocate update of one line matches `LabelStep` |
| Extractor.Step | engine.py:708-711 | a line shorter than 3 characters after stripping changes no field |
| Extractor.ExtractFields | engine.py:702-772 | the line loop, one `ScanLine` per line, yields the fields of `ScanLines` over all lines |
| Extractor.ScanLine | engine.py:708-772 | one pass of the loop body over one line updates all seven fields as `StepAll` |
| Extractor.StepOverwrites | engine.py:716-772 | title, status, judge and advocate are overwritten by every selecting line and otherwise kept |
| Extractor.UnselectedStaysSentinel | engine.py:582-594 | a line-valued field that no line selects stays "N/A" |
| Extractor.LastMatchWins | engine.py:760-772 | a line-valued field holds the stripped text of the last line that selects it |
| Extractor.SentinelIffUnselected | engine.py:708-772 | a line-valued field is "N/A" exactly when no line selects it |
| Extractor.DatesHaveProvenance | engine.py:728-757 | a set date field has a digit and comes from a labelled line: its qualifying next line or the text after its last ':' |
| Extractor.NextLineFirst | engine.py:730-734 | a labelled line followed by a qualifying line sets the date to that next line, whatever the field held |
| Extractor.SameLineOnlyWhileUnset | engine.py:736-742 | the same-line fallback never replaces a date that is already set |
| Extractor.PartiesNeedTitle | engine.py:716-725 | parties are set only when the case title is set |
| Extractor.UpperCaseVsKeepsPartiesUnset | engine.py:716-724 | the line "A VS B" becomes the case title but leaves the parties "N/A", because the split uses the original case |
| Extractor.FindPdfLink | engine.py:775-793 | the PDF loop returns `FirstPdf`, the first link of the first selector that finds any, else "#" |
| Extractor.FirstPdfIsFirst | engine.py:783-789 | no link anywhere gives "#"; otherwise the result is the first link of the first non-empty selector |
| Extractor.Extract | engine.py:558-808 | still on the search page gives the "still on search page" failure; otherwise "not found" gives the not-found failure; otherwise the record carries the scanned fields, the first PDF link, the first 1000 characters, the page's time and url, and is Failed with the no-data error exactly when no meaningful field is set and the stripped text is shorter than 200 |
| Session.FirstWorking | engine.py:478-493 | the index of the first strategy that works; none exactly when none works |
| Session.TryInOrder | engine.py:478-493 | trying strategies in order stops at `FirstWorking` |
| Session.YearOutcome | engine.py:359-426 | the year cascade's result as a function of what works; `YearPrecedence` states its precedence |
| Session.SelectYear | engine.py:359-426 | the year cascade gives `YearOutcome` |
| Session.YearPrecedence | engine.py:359-426 | a selector is used only when it is a usable drop-down and no earlier one is, with its first working method; the scan runs only when no selector is usable and picks the first working drop-down; the year stays unfilled exactly when nothing works |
| Session.SubmitOutcome | engine.py:476-518 | the submit cascade's result as a function of what works; `SubmitPrecedence` states its precedence |
| Session.SubmitForm | engine.py:476-518 | the submit cascade gives `SubmitOutcome` |
| Session.SubmitPrecedence | engine.py:476-518 | a button wins (the first that works) over the form element, which wins over the Enter key; the search is not submitted exactly when all fail |
| Session.GetCaseInformation | engine.py:823-872 | browser, site and submit failures give their fixed brief records, in that order; the page is read exactly when all three steps succeed, and the record then has the page's url and time |
| Jobs.Report | app.py:571-579 | the answer for a known id has its state name, message and progress; data is available exactly when the job says so and a latest result exists; retryable only when stored true; an error type exactly when one is stored, given by its kind's name |
| Jobs.StatusStore.constructor | app.py:26-27 | the store and the latest slot start empty |
| Jobs.StatusStore.Enqueue | app.py:486-493 | the route writes a fresh queued entry at progress 5, and the store receives progress 5 |
| Jobs.StatusStore.Start | app.py:286-293 | the job replaces its entry with a starting entry at progress 10, and the store receives progress 10 |
| Jobs.StatusStore.MarkRunning | app.py:304-309 | state running, progress 30, the rest of the entry kept; progress 30 is received only when the entry exists |
| Jobs.StatusStore.BeginAttempt | app.py:321-323 | the attempt message and progress 30 + 20 per attempt, the rest kept; that progress is received only when the entry exists |
| Jobs.StatusStore.AnnounceRetry | app.py:342-343 | only the message changes, to the retry announcement |
| Jobs.StatusStore.MarkProcessing | app.py:351-353 | progress 90 and the processing message, the rest kept; progress 90 is received only when the entry exists |
| Jobs.StatusStore.PublishRecord | app.py:229-230 | the record is copied into the latest slot before any file is written |
| Jobs.StatusStore.Finish | app.py:360-367 | a terminal entry replaces the job's entry, and the store receives its progress |
| Jobs.StatusStore.FinishWith | app.py:389-405 | the terminal entry and the failure record are written together, and the store receives the entry's progress |
| Jobs.StatusStore.Poll | app.py:557-587 | an unknown id gets not-found and nothing changes; a known id is answered from its entry as it was before eviction, and every stale entry is then removed |
| Jobs.StatusStore.StaleIds | app.py:562-566 | collects exactly the ids whose entries are older than an hour |
| Jobs.StatusStore.Remove | app.py:568-569 | deletes exactly the collected ids |
| Jobs.StatusStore.Clear | app.py:610-612 | the store and the latest slot become empty |
| Jobs.Evict | app.py:561-569 | the store without its stale entries; `EvictKeepsYoung` and `StaleAnsweredOnce` state its properties |
| Jobs.EvictKeepsYoung | app.py:561-569 | after eviction exactly the entries written within the last hour remain, unchanged |
| Jobs.StaleAnsweredOnce | app.py:558-569 | a stale id is answered once and is gone from every later poll |
| Jobs.KeepLast | app.py:67-69 | the last 1000 records, in order |
| Jobs.SliceFrom | app.py:83 | Python's `s[k:]`: a suffix of `s`, the whole of `s` for 0, and the last `-k` (at most all) for negative `k` |
| Jobs.SearchLog.constructor | app.py:37-41 | the log starts empty |
| Jobs.SearchLog.LogSearch | app.py:43-76 | append then keep the last 1000; the new record is last |
| Jobs.SearchLog.RecentLogs | app.py:78-85 | the last `limit` records (all for 0), a suffix of the log |
| Jobs.LogKeepsMostRecent | app.py:65-69 | after appending, the log holds at most 1000 records, the new one last, preceded by the most recent earlier ones |
| Jobs.RetryLoop | app.py:313-346 | the retry loop's end as a function of each call's outcome; `RetryShape`, `RetryLoopShape` and `NoRetryWhenScraperReturns` state its shape |
| Jobs.RetryShape | app.py:318-346 | the loop makes 1 to 3 calls; every call but the last raised an error judged retryable; the last returned, or raised the error given up on, which was judged not retryable unless it was the third call |
| Jobs.VerdictMeaning | app.py:332-339 | an attempt is retried exactly when it raised an error the handler marks retryable |
| Jobs.RetryLoopShape | app.py:318-346 | the shape of `RetryShape`, with the handler's own verdicts |
| Jobs.NoRetryWhenScraperReturns | app.py:325-326 | a first call that returns ends the loop after one call |
| Jobs.AttemptProgress | app.py:323 | attempt i writes progress 30 + 20·i |
| Jobs.ReachableProgress | app.py:303-395 | the progress of a reachable job starts at 10, ends at 100 and never decreases, also after the queued 5 |
| Jobs.ProgressNeverGoesBack | app.py:286-431 | every job's progress starts at 10, ends at 100 and never decreases |
| Jobs.Crash | app.py:413-447 | the end of a job whose scraper call raised; `CrashMapping` states it |
| Jobs.Conclude | app.py:357-411 | the end of a job whose scraper call returned; `ConcludeMapping` states it |
| Jobs.JobOutcome | app.py:276-449 | how a job ends; `TerminalMapping` states what every ending has in common |
| Jobs.CrashMapping | app.py:413-447 | a raised error fails the job with the handler's message, kind and retry verdict in the entry and the failure record, and logs FAILED with the raw error |
| Jobs.ConcludeMapping | app.py:357-411 | a returned record completes the job exactly when it is a success (with a warning exactly when saving failed) and publishes it; otherwise the job fails with "no data" and the record's error |
| Jobs.TerminalMapping | app.py:357-447 | every job ends at progress 100 in a terminal state, data ready exactly when not failed; completed exactly on a saved success; error fields exactly after a raised error |
| Jobs.UnreachableIsUnknownFailure | app.py:296-298 | an unreachable site fails the job through the handler as a non-retryable UNKNOWN error |
| Jobs.Judge | app.py:325-346 | a returned call, a call on the last attempt and a non-retryable error end the loop as `RetryFrom` does; a retryable error announces the retry with delay 2 and changes only the entry's message |
| Jobs.Attempts | app.py:313-346 | the loop ends as `RetryLoop`; the store receives exactly `AttemptProgress` of the calls made; it waits 2 before each retry; the job's entry is left with the last attempt's message and progress 30 + 20 per call, its other fields (timestamp included) unchanged, and no other entry changes |
| Jobs.Scrape | app.py:303-353 | the reachable job up to its terminal write ends as `JobOutcome`, and the store receives exactly the progress of `ScrapeProgress` |
| Jobs.TraceAfter | app.py:286-431 | the start's 10, the reachable part and the end's 100 make up `ProgressTrace` |
| Jobs.Settle | app.py:357-447 | the terminal entry, the latest slot and one log record are written, and the store receives the terminal progress |
| Jobs.RunJob | app.py:276-449 | the store ends with the job's entry at `JobOutcome`, the latest slot holds its record, the log gains its record, the progress values the store receives are exactly `ProgressTrace`, and every delay is 2 |
| Jobs.WholeSeconds | app.py:479 | `int(time.time())`: the whole seconds of the clock, truncated toward zero |
| Jobs.SubmitSearch | app.py:456-501 | an invalid form is rejected with the validation message, an unreachable site with the notice, both leaving the store and its progress log alone; otherwise a job is queued under the id built from the stripped fields and the clock's whole seconds, with the parsed number and year, and the store receives progress 5 |

## Left out

- Selenium itself: waiting for elements, clicks, scripts and screenshots. Each browser action is an input saying whether it worked, or it is the page the extractor reads.
- The case-type and case-number fill cascades of `auto_fill_case_details`, and the captcha handling. Their failures are only reported; the search goes on either way. `Session.GetCaseInformation` does not take the fill step's result for the same reason.
- Navigation retries, the loading-indicator waits after submitting, and every `time.sleep`.
- The exception paths of `extract_case_information` (engine.py:810-821) and of `get_case_information` (engine.py:874-884). They catch driver exceptions that the model has no counterpart for.
- `Session.GetCaseInformation`: fixes the brief failure records and, for an extracted record, only its url and time; the rest of that record is `Extractor.Extract`'s contract.
- The reachability probe (a bounded-timeout GET) is the `reachable` input, and the report writers (CSV and PDF) are the `saved` input.
- Threads, the lock and interleavings: each `StatusStore` method is one atomic critical section. Without interleaving the job's entry cannot be evicted while the job runs. So the `KeyError` a partial update of an evicted entry would raise is modelled only as the `found` flag, which is always true in `RunJob`.
- The timestamps stored by the log, the fixed 'localhost' address, the database logger and the processing time.
- Reading and writing the log's JSON file, with its fallbacks on unreadable files.
- Flask rendering, flash messages and the session cookie; the GET branch of the search route; the `/status`, `/api/result`, download, log-view, test and database routes.
- The search route's `except` branch (app.py:508-511): after validation `int()` cannot fail there.
- `int()` accepting underscores between digits, non-ASCII digits and non-ASCII whitespace. Whitespace, digits and letter case are ASCII only.
- The order in which eviction deletes stale ids.
- Jobs.SubmitSearch: one clock reading serves both the job id and the queued entry's timestamp, where the route reads the clock twice (app.py:479 and app.py:491), a moment apart.
- Jobs.StatusStore.FinishWith: the failure record is kept as the message and, for a raised error, its kind and verdict; the constant "N/A" fields and "#" link are not stored.
