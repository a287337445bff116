# HandyOsint core, modelled in Dafny

HandyOsint is a command-line OSINT platform. It looks up a username across
social, developer and content platforms, analyses the profiles it finds,
and keeps scan history and reports. This project models the sequential
logic at its core and proves properties of that model:

- **Scan orchestration** (`integration.dfy`, module `Integration`):
  - the priority task queue with its worker cap;
  - the batch-job bookkeeping of the orchestrator: task ids, result recording, progress;
  - the choice of report files a report run writes.
- **Input validators** (`validators.dfy`, module `Validators`):
  - username, URL, e-mail, domain, IPv4, port, platform id, SQL query and scan-target validation;
  - `validate_multiple`, and the failure message of the `validate_inputs` decorator.
- **Error handling** (`error_handler.dfy`, module `ErrorHandling`):
  - the exception families and their error codes;
  - the bounded error history, its summary and its queries;
  - the specialised handlers, `safe_call`, `try_except` and the synchronous retry decorator.
- **TTL cache** (`cache.dfy`, module `Cache`): get, set, clear and cleanup, with the clock passed in.
- **Scanner configuration** (`production_scanner.dfy`, module `ProductionScanning`):
  - platform configuration defaults and their normalisation;
  - the five content validators and their table;
  - the result records and the scanner's initial state.
- **Profile analysis** (`analysis.dfy`, module `Analysis`):
  - the classifiers of the behavioural fingerprint;
  - the likely connections;
  - the blocking anomaly;
  - the risk level.
- **Component dependency checking** (`validation.dfy`, module `SystemValidation`):
  - component health updates;
  - the edge checks of `_validate_dependencies`;
  - the depth-first startup order and the overall status flag.
- **README viewer** (`documentation.dfy`, module `Documentation`):
  - the line-based Markdown section extractor;
  - the fallback sections;
  - `display_section`.
- **Command centre fragments** (`command_center.dfy`, module `CommandCenter`):
  - the prompt answer and the cancel words;
  - the comma-separated target list;
  - the uptime string and the truncated table columns.

Four shared modules hold what the others use:

- `Wrappers`: `Option`.
- `Sets`: the cardinality of a subset.
- `PyStr`: Python's `str.strip`, `split`, `join`, `lower`, `upper`, `in`, `startswith` and `str(int)`, written out, and the `\d` class of `str` patterns.
- `Tally`: insertion-ordered counting dictionaries, as `defaultdict(int)` and `dict.get(k, 0) + 1` build them.

The model takes the source's own form:

- Objects whose methods update fields are classes with `modifies` clauses:
  - `ScanTask`, `ScanTaskQueue`, `ScanOrchestrator`, `CacheManager` and `ErrorHandler`;
  - `PlatformConfig`, `ProductionScanner`, `SystemComponent` and `IntegratedDocumentation`.
- Loops are methods with invariants, proved against specification functions:
  - `_extract_section`, `_validate_dependencies`, the recursive `visit`, `cleanup_expired`;
  - the retry loop and `validate_multiple`.
- Expression-only code is functions: the validators and the classifiers.
- A `ScanTask` is an object shared by reference, as in Python. A batch job is a value whose task list holds the same task objects the queue holds. Recording a result updates that one object, and the update shows through the job and through the queue.

Facts the proofs establish about the code as written:

- Tasks of equal priority keep their insertion order in the queue, because Python's sort is stable even with `reverse=True`.
- A task id `j_i` always parses back to `j`, even when `j` contains underscores.
- `_assess_privacy_awareness` counts a configurable profile twice in its ratio.
  - The ratio therefore lies in 0..2.
  - A user whose profiles are all configurable is "privacy_conscious".
- `get_error_history(0)` returns the whole history, because `[-0:]` is the full slice.
- `_validate_dependencies` never returns a "Missing dependency" issue. A missing dependency makes the startup-order computation raise `KeyError`, which escapes.
  - The model returns `None` exactly when some dependency is missing.
- Only mutual pairs (including self-loops) are reported as circular. A three-component cycle is reported as validated edges.
- The built-in component graph has no missing dependency and no cycle.
  - Its report has no issues.
  - Its startup order lists all 18 components once, each after its dependencies.
- `_extract_section` decides two things by prefix:
  - A heading opens a section by prefix, so "## Aboutness" opens "About".
  - A repeated same-name heading inside the section is skipped rather than ending it.
- `display_section` returns `True` for a section whose text is empty, although it prints the error.
- `Menu.prompt` returns the answer stripped and upper-cased.
  - So "BACK" cancels a scan prompt.
  - Batch targets reach the scanner without lower-case letters.

Three semantic choices:

- Python's `str.strip()` and `isspace()` are modelled with Python's exact list of Unicode whitespace characters, not just ASCII whitespace.
- `\d` in the URL pattern's port matches every Unicode decimal digit, as it does in a Python `str` pattern. So "https://a:\u0663", with an Arabic-Indic three, is a valid URL.
- `lower()`/`upper()` map only ASCII letters (see "Left out").

## Model

| member | source | states |
|---|---|---|
| Integration.SortIsSorted | core/integration.py:168-172 | sorting by priority value in reverse leaves the queue in non-increasing priority order |
| Integration.SortIsPermutation | core/integration.py:168-172 | the sort neither loses nor duplicates a task: same multiset of tasks |
| Integration.SortIsStable | core/integration.py:169-172 | tasks of one priority keep their relative order (Python's sort is stable under reverse=True) |
| Integration.SortOfSorted | core/integration.py:169-172 | sorting a queue that is already in priority order changes nothing |
| Integration.SortAppend | core/integration.py:165-172 | appending to a sorted queue and sorting equals sorting the whole concatenation, so repeated enqueues equal one sort |
| Integration.SortCons | core/integration.py:169-172 | a task whose priority is at least every other's stays in front |
| Integration.SortHead | core/integration.py:177-181 | the head of the sorted queue has maximal priority and is the earliest task of that priority |
| Integration.ScanTask.constructor | core/integration.py:71-78 | a task with the given id, username, priority and creation time, and pending metadata |
| Integration.ThreeEnqueues | core/integration.py:165-172 | a low, a normal and a high task enqueued in that order end up high, normal, low |
| Integration.ScanTaskQueue.constructor | core/integration.py:157-162 | an empty queue, no active workers, the given worker cap; the invariant holds |
| Integration.ScanTaskQueue.Enqueue | core/integration.py:165-175 | the new queue is the stable priority sort of the old queue plus the task; active workers unchanged; 0 <= active <= max kept |
| Integration.ScanTaskQueue.Dequeue | core/integration.py:177-185 | when the queue is non-empty and active < max, pops the head and increments active; otherwise returns None and changes nothing |
| Integration.ScanTaskQueue.MarkComplete | core/integration.py:187-191 | active workers decrease by one with a floor of 0, whatever the task id; queue unchanged |
| Integration.ScanTaskQueue.GetQueueStatus | core/integration.py:193-206 | pending = queue length, active and capacity reported; active is non-negative and within a non-negative capacity |
| Integration.TaskIdRoundTrip | core/integration.py:243-266 | joining all but the last "_"-field of "jobId_i" gives back jobId, for any jobId including ones with underscores |
| Integration.TaskIdsDistinct | core/integration.py:242-243 | tasks of one job at different indices get different ids |
| Integration.FindTask | core/integration.py:271-272 | returns the first index whose task has the id, or None exactly when no task has it |
| Integration.TaskFor | core/integration.py:266-272 | the task object with the id in the job its id prefix names; None exactly when that job is unknown or has no such task |
| Integration.CountCompletedBounds | core/integration.py:298-302 | completed count is 0 iff no task is "completed", and equals the total iff every task is |
| Integration.JobStatusOf | core/integration.py:297-316 | copies the job's id, status and timestamps; progress splits at "/" into the completed and total counts; percentage 0 when nothing completed and 100 when all completed |
| Integration.ProgressSplits | core/integration.py:314 | the progress text "c/t" splits back into the two numbers |
| Integration.ScanOrchestrator.constructor | core/integration.py:212-218 | a fresh empty queue with the worker cap, no jobs, zeroed metrics |
| Integration.ScanOrchestrator.CreateBatchJob | core/integration.py:220-256 | stores the job under its id; n usernames give n freshly allocated pending task objects with ids jobId_0..jobId_{n-1}, the usernames in order, the job's priority and their creation times; the queue becomes the priority sort of the old queue plus those same objects; metrics unchanged |
| Integration.ScanOrchestrator.UpdateTaskResult | core/integration.py:258-289 | a task found by its id gets status, result and completion time on the shared task object, and successful or failed scans grow by one; an unknown task changes no task and no metric; jobs and queue order unchanged; mark_complete always runs |
| Integration.ScanOrchestrator.GetJobStatus | core/integration.py:291-316 | None exactly for an unknown job id, otherwise the status view of the stored job |
| Integration.ScanOrchestrator.UpdateMetrics | core/integration.py:327-332 | total scans grow by one and profiles found by the reported count (0 when absent); jobs unchanged |
| Integration.NewJobStatus | core/integration.py:291-316 | a pending job whose tasks are all pending, as a new job's are, reports status "pending", progress "0/n" and percentage 0 |
| Integration.ReportFile | core/integration.py:424-458 | JSON and HTML files for every run, CSV and TXT only for individual runs, nothing else; the path text is dir + "/" + base + "." + ext; batch HTML uses the batch writer |
| Integration.GenerateReports | core/integration.py:384-418 | the output map has exactly one entry per requested format that yields a file, keyed by the format value |
| Integration.BatchSkipsCsvAndTxt | core/integration.py:438-447 | a batch report run never produces a csv or txt entry |
| Integration.IndividualBaseFilename | core/integration.py:377-382 | individual report names start with the username ("unknown" when absent) and "_" |
| Integration.BatchBaseFilename | core/integration.py:405-407 | batch report names start with "batch_" |
| Integration.QueueScenario | tests/core/test_integration.py:89-114 | the queue test's dequeues give task2, task3, nothing (both workers busy), then task1 after a completion; active workers 1, 2, 1 |
| Integration.ResultScenario | tests/core/test_integration.py:153-172 | after completing a new job's task, its status is "completed" both in the job and in the queue, and successful scans are 1; a second job's failed task makes failed scans 1 |
| Validators.When | core/validators.py:114-144 | a conditional append contributes a message exactly when its condition holds |
| Validators.ValidateUsername | core/validators.py:106-148 | empty input: one error, value unchanged; otherwise the value is the stripped name, valid iff 2..64 characters of [A-Za-z0-9_.-], valid iff no error; only STRICT adds warnings |
| Validators.LevelOnlyAddsWarnings | core/validators.py:138-147 | the validation level never changes validity, value or errors |
| Validators.HostNameShape | core/validators.py:244-270 | a name matching the host pattern is non-empty, has no leading or trailing dot and no "..", so the explicit dot checks are implied |
| Validators.ValidateUrl | core/validators.py:171-194 | value is the stripped URL; valid iff non-empty, at most 2048 characters and matching the pattern; the HTTP warning fires iff "http://" occurs but not at the start |
| Validators.UrlPatternShape | core/validators.py:159-167 | a URL matching the pattern starts with "http" in any case, has at least 7 characters and no whitespace |
| Validators.ValidUrlShape | core/validators.py:181-194 | a valid URL's value is at most 2048 characters, starts with http in any case and has no whitespace |
| Validators.HttpsUrlValid | core/validators.py:159-194 | "https://" + host + path is valid when the parts match and fit in 2048 characters |
| Validators.HttpsAuthorityValid | core/validators.py:159-194 | "https://" + host + a port-and-path part is valid when the parts match and fit in 2048 characters |
| Validators.PortThenPath | core/validators.py:162-163 | ":" then a non-empty run of decimal digits, then a path, matches the port-and-path part |
| Validators.HttpsUrlWithPortValid | core/validators.py:159-194 | "https://" + host + ":" + port + path is valid for any non-empty port of decimal digits of any script |
| Validators.OneDigitPortValid | core/validators.py:162 | "https://a:" followed by one decimal digit of any script is a valid URL |
| Validators.ArabicIndicThreeIsDecimal | core/validators.py:162 | the Arabic-Indic digit three (U+0663) is a `\d` digit |
| Validators.EmailPatternOneAt | core/validators.py:205-228 | a string matching the e-mail pattern has exactly one "@" and no whitespace, so the "@" count check never fires |
| Validators.EmailPatternLower | core/validators.py:205-221 | lower-casing preserves a match of the e-mail pattern |
| Validators.AssembledEmailValid | core/validators.py:205-232 | local@domain.tld with allowed characters and at most 254 characters in total validates |
| Validators.ValidateEmail | core/validators.py:207-232 | value is the stripped lower-cased address; valid iff non-empty, matching the pattern and at most 254 characters; no warnings |
| Validators.ValidEmailShape | core/validators.py:219-231 | a valid e-mail value is lower-case, unpadded, has exactly one "@" and at most 254 characters |
| Validators.ValidateDomain | core/validators.py:252-284 | value is the stripped lower-cased domain; valid iff no error; no warnings |
| Validators.DomainValidIff | core/validators.py:264-280 | a domain is valid iff it is non-empty and matches the label pattern with at least two fields and a TLD of at least 2 characters |
| Validators.OctetPatternIsByte | core/validators.py:295-298 | an octet alternative of the IPv4 pattern matches exactly 1-3 ASCII digits with value at most 255 |
| Validators.PatternIsDottedQuad | core/validators.py:295-298 | the IPv4 pattern matches exactly four dot-separated byte groups |
| Validators.ValidateIp | core/validators.py:300-319 | value is the stripped text; valid iff non-empty and four dot-separated groups of 1-3 digits each at most 255 (leading zeros allowed) |
| Validators.ByteGroup | core/validators.py:295-298 | the decimal text of any number up to 255 is a byte group with that value |
| Validators.JoinedBytesValid | core/validators.py:300-319 | four byte groups joined by dots validate, with the address itself as value |
| Validators.QuadValid | core/validators.py:312-319 | a non-empty dotted quad without whitespace validates unchanged |
| Validators.ValidatePort | core/validators.py:334-358 | unparsable text: the single error "Port must be a valid integer"; otherwise valid iff 1..65535, and the privileged warning iff warn_privileged and 1..1023 |
| Validators.ValidatePlatform | core/validators.py:393-415 | value is the stripped lower-cased id; valid iff it is one of the 21 known ids; one error otherwise |
| Validators.KeywordErrorInjective | core/validators.py:444 | different keywords give different error messages |
| Validators.KeywordErrorsMembers | core/validators.py:442-444 | the keyword loop reports a message exactly for the flagged keywords it visits |
| Validators.KeywordErrorsDistinct | core/validators.py:442-444 | no keyword is reported twice |
| Validators.KeywordErrorsAreFlagged | core/validators.py:426-444 | in any iteration order of the keyword set, the errors are exactly those of the flagged keywords, without duplicates |
| Validators.KeywordErrorsEmpty | core/validators.py:442-444 | no keyword error iff the query starts with SELECT or contains none of the six keywords |
| Validators.QueryResult | core/validators.py:429-454 | value is the query as given; errors are the keyword errors of the upper-cased stripped query; warnings from the comment and statement checks |
| Validators.QueryValidIff | core/validators.py:429-454 | a query is valid iff it is non-empty and, upper-cased and stripped, starts with SELECT or contains none of DROP/DELETE/TRUNCATE/ALTER/EXEC/EXECUTE |
| Validators.ValidateQuery | core/validators.py:429-454 | the loop over the keywords in the given iteration order computes the query result |
| Validators.PlatformErrors | core/validators.py:477-481 | no platform error iff every listed platform is known |
| Validators.ValidateScanTarget | core/validators.py:465-485 | errors are the username's followed by each failing platform's; value is the unstripped target; no warnings |
| Validators.ScanTargetValidIff | core/validators.py:465-485 | a scan target is valid iff the username is valid and every listed platform is known |
| Validators.ValidateMultiple | core/validators.py:546-559 | all_valid iff every result is valid; the results map holds exactly each name's result |
| Validators.Prefixed | core/validators.py:578 | each error becomes "name: error", in order |
| Validators.FailureLinesConcat | core/validators.py:576-578 | the failure lines of two validator lists are those of each, concatenated |
| Validators.CollectFailures | core/validators.py:575-578 | the loop collects the prefixed errors of every failing validator in order |
| Validators.ValidateInputs | core/validators.py:567-587 | the call proceeds iff all validators pass; otherwise it fails with "Validation failed: " and the failure lines joined by "; " |
| ErrorHandling.NewHandyOsintException | core/error_handler.py:30-38 | message, error code (default "UNKNOWN"), timestamp and details (empty when absent) are recorded; not a caught kind |
| ErrorHandling.NewKindException | core/error_handler.py:41-130 | each specialised exception carries its class name, the message, its fixed error code and the details |
| ErrorHandling.ErrorCodesDistinct | core/error_handler.py:41-130 | distinct exception kinds have distinct error codes and class names |
| ErrorHandling.MakeEntry | core/error_handler.py:166-192 | the entry records the exception's type name and message, the severity and recovery values, and the context (empty when absent) |
| ErrorHandling.Trimmed | core/error_handler.py:284-285 | keeps the most recent min(len, 1000) entries, in order |
| ErrorHandling.AppendTrimmed | core/error_handler.py:281-285 | after appending, the new entry is last, length stays at most 1000, and on overflow only the oldest entry is dropped |
| ErrorHandling.CountWithSeverityIsOccurrences | core/error_handler.py:560-562 | the count for a severity is its number of occurrences in the history's severities |
| ErrorHandling.HandlerTable | core/error_handler.py:302-366 | the six handlers record VALIDATION/DATABASE/NETWORK/SCAN/TIMEOUT/RATE_LIMIT error codes with severities WARNING/ERROR/WARNING x4 and recoveries user_input/retry/retry/fallback/retry/retry |
| ErrorHandling.RetryNoneIffNoAttempts | core/error_handler.py:433-450 | the retry loop yields nothing (returns None) exactly when there are no attempts left |
| ErrorHandling.RetryUsesOnlyFirstAttempts | core/error_handler.py:433 | the result depends only on the outcomes of the first max_retries attempts |
| ErrorHandling.RetryDecidedAt | core/error_handler.py:433-442 | after caught failures, the first success, uncaught exception or final attempt decides the result |
| ErrorHandling.RetryCaughtMeansExhausted | core/error_handler.py:436-442 | a caught exception comes out only from the final attempt after every attempt failed with a caught kind |
| ErrorHandling.FormatErrorMessage | core/error_handler.py:564-572 | starts with the cross mark, the type name and the message; that alone unless verbose on a HandyOsint exception, which adds the error code and timestamp lines and then a details line exactly when the details are non-empty |
| ErrorHandling.ErrorHandler.constructor | core/error_handler.py:256-269 | the history starts empty |
| ErrorHandling.ErrorHandler.HandleException | core/error_handler.py:273-300 | returns the new entry; the history is the old one plus the entry, trimmed to the last 1000 |
| ErrorHandling.ErrorHandler.HandleWith | core/error_handler.py:302-366 | each specialised handler logs its kind's exception with the handler's severity and recovery |
| ErrorHandling.ErrorHandler.SafeCall | core/error_handler.py:368-378 | success: (True, result, None), history unchanged; caught KeyError/ValueError/TypeError: (False, None, message), exactly one entry added; other exceptions propagate |
| ErrorHandling.ErrorHandler.TryExcept | core/error_handler.py:380-399 | success passes through; a caught exception yields the default, logged with ERROR/FALLBACK; others propagate, history unchanged |
| ErrorHandling.ErrorHandler.WithRetry | core/error_handler.py:431-450 | the result is the retry specification's; exactly one history entry is added iff a caught exception escapes the final attempt |
| ErrorHandling.ErrorHandler.GetErrorHistory | core/error_handler.py:505-507 | the last `limit` entries for limit >= 1; the whole history for limit 0; Python's slice for a negative limit |
| ErrorHandling.ErrorHandler.GetErrorSummary | core/error_handler.py:509-528 | total is the history length; severity and type counts in first-seen order; recent is the last <= 5 entries |
| ErrorHandling.ErrorHandler.ClearHistory | core/error_handler.py:543-546 | the history becomes empty |
| ErrorHandling.ErrorHandler.GetLastError | core/error_handler.py:548-550 | the last entry, or None exactly when the history is empty |
| ErrorHandling.ErrorHandler.GetErrorCount | core/error_handler.py:556-562 | the history length without a severity, never more than it |
| ErrorHandling.SummaryConsistent | core/error_handler.py:509-562 | severity and type counts each sum to the total; a severity's count equals get_error_count; has_errors iff a last error exists iff the count is positive |
| Tally.TallyCounts | core/error_handler.py:518-524 | the counting dictionary maps each key to its number of occurrences |
| Tally.TallyTotal | core/error_handler.py:518-524 | the counts of a counting dictionary sum to the number of items counted |
| Tally.TallyKeys | core/analysis.py:197-203 | a key is present exactly when it occurs among the items |
| Cache.Lookup | core/cache.py:23-34 | a value is returned iff the key is present and not older than ttl, and it is the stored value |
| Cache.Live | core/cache.py:46-56 | the entries kept by cleanup: exactly the unexpired ones, unchanged |
| Cache.ExpiredKeys | core/cache.py:50-53 | exactly the keys whose age exceeds ttl |
| Cache.SetThenLookup | core/cache.py:23-39 | after set at t, get at t' returns the value whenever t' - t <= ttl; other keys unaffected |
| Cache.CleanupPreservesLookups | core/cache.py:46-56 | cleanup changes no lookup at the same time |
| Cache.LiveAndExpiredPartition | core/cache.py:46-56 | kept and expired keys partition the store, so their counts add up |
| Cache.CacheManager.constructor | core/cache.py:16-19 | an empty store with the given ttl |
| Cache.CacheManager.Get | core/cache.py:23-34 | returns the lookup result; removes the key only when it was present and expired, nothing else changes |
| Cache.CacheManager.Set | core/cache.py:36-39 | stores the value with the current time, overwriting; other keys unchanged |
| Cache.CacheManager.Clear | core/cache.py:41-44 | the store becomes empty |
| Cache.CacheManager.CleanupExpired | core/cache.py:46-56 | removes exactly the expired entries and returns their number; the rest is untouched |
| ProductionScanning.CustomValidatorsKeys | core/production_scanner.py:140-171 | the table has exactly the github, twitter, instagram, tiktok and facebook keys; github looks for "Page not found" and facebook for "Log in to Facebook" |
| ProductionScanning.ValidatorsRejectShortOrMarked | core/production_scanner.py:140-162 | every validator in the table rejects content of at most 100 characters or containing its marker |
| ProductionScanning.PlatformConfig.constructor | core/production_scanner.py:59-79 | fields as given, empty valid codes become [200] and empty not-found codes [404] |
| ProductionScanning.PlatformConfig.PostInit | core/production_scanner.py:74-79 | replaces an empty valid_codes with [200] and an empty not_found_codes with [404]; everything else unchanged |
| ProductionScanning.DefaultPlatformConfig | core/production_scanner.py:66-72 | defaults: "status_code", [200], [404], [403], timeout 10.0, no validator, 2 retries |
| ProductionScanning.NewScanResultDetail | core/production_scanner.py:84-96 | given fields set, status code 0, response time 0.0, not found, empty preview, no error |
| ProductionScanning.DetailToDict | core/production_scanner.py:98-100 | exactly the ten field keys, each holding its field's value (error its message or null) |
| ProductionScanning.DetailDictRoundTrip | core/production_scanner.py:98-100 | the dictionary of a detail gives the detail back: no field is lost |
| ProductionScanning.DictDetailRoundTrip | core/production_scanner.py:98-100 | a dictionary that reads back as a detail is that detail's dictionary |
| ProductionScanning.NewUsernameSearchResult | core/production_scanner.py:105-116 | status "pending", zero counts and duration, no platforms, errors or statistics |
| ProductionScanning.PlatformsToDict | core/production_scanner.py:127 | keeps exactly the platforms' keys, each detail turned into its dictionary |
| ProductionScanning.ProductionScanner.constructor | core/production_scanner.py:208-234 | settings as given; the proxy pool empty when none is given; the built-in user agents when none or an empty list is given, so at least one agent; empty tables, no session, zero counters |
| Analysis.Count | core/analysis.py:232-246 | a count of results is 0 exactly when no result matches |
| Analysis.CountAppend | core/analysis.py:232-246 | counts over concatenated result lists add |
| Analysis.CountAtMostFound | core/analysis.py:232-246 | no criterion counts more results than the found ones |
| Analysis.FoundIds | core/analysis.py:167 | exactly the ids of found results |
| Analysis.FilterIn | core/analysis.py:178 | keeps exactly the list's elements that are found, never more entries than the list |
| Analysis.FilterInExtremes | core/analysis.py:178 | all found keeps the secondary list whole, none found leaves it empty |
| Analysis.LikelyConnections | core/analysis.py:162-180 | keys are exactly the found primaries that have a secondary list; each value is that list filtered to found ids |
| Analysis.ConnectionsAreFoundSecondaries | core/analysis.py:176-178 | a connection's primary is found, and its list holds exactly its found secondaries |
| Analysis.MonetizationStatus | core/analysis.py:259-272 | at least 2 found monetisation platforms: active; exactly 1: partial; none: no_monetization |
| Analysis.MonetizationMonotone | core/analysis.py:259-272 | more results never lower the monetisation status |
| Analysis.ActivityTypes | core/analysis.py:213-219 | exactly the non-empty activity types of found results |
| Analysis.ActivityProfile | core/analysis.py:211-228 | 0 activity types: inactive; 1: specialized; 2-3: multi_interest; at least 4: highly_diverse |
| Analysis.ActivityMonotone | core/analysis.py:211-228 | more results never lower the activity profile |
| Analysis.PrivacyRatio | core/analysis.py:232-251 | the ratio (non-public + configurable) / found lies in 0..2 |
| Analysis.PrivacyAwareness | core/analysis.py:230-257 | not_applicable iff nothing found; privacy_conscious iff the ratio exceeds 0.7; privacy_negligent iff below 0.3; average iff something is found and the ratio lies in 0.3..0.7 |
| Analysis.AllConfigurableIsConscious | core/analysis.py:232-254 | configurable profiles count twice: all configurable gives ratio 2 and privacy_conscious |
| Analysis.AllPublicIsNegligent | core/analysis.py:239-256 | all public gives ratio 0 and privacy_negligent |
| Analysis.Categories | core/analysis.py:197-203 | the non-empty categories of found results; empty exactly when no found result has one |
| Analysis.FirstMaxIndex | core/analysis.py:208 | `max` by count: an index of maximal count, earlier entries strictly smaller |
| Analysis.PrimaryInterest | core/analysis.py:205-206 | "unknown" when no found result has a category |
| Analysis.PrimaryInterestIsMostFrequent | core/analysis.py:195-209 | otherwise the result is a category occurring at least as often as any other |
| Analysis.PrimaryInterestFirstOfMaximal | core/analysis.py:208-209 | on ties the category first reached in insertion order wins |
| Analysis.DetectAnomalies | core/analysis.py:274-293 | the blocking message iff some result (found or not) is blocked; the slow message iff there are slow platforms, first |
| Analysis.LevelThresholds | core/analysis.py:64-72 | a score reaches a level iff it is at least that level's threshold (0.40, 0.60, 0.75) |
| Analysis.LevelMonotone | core/analysis.py:64-72 | the risk level is a monotone step function of the score |
| Analysis.RiskAssessment | core/analysis.py:25-72 | (0.0, LOW) for no platforms; otherwise the score capped at 1.0 and its level |
| SystemValidation.SystemComponent.constructor | validation.py:37-48 | the field defaults: STARTING health, zero response time, empty metrics, no errors |
| SystemValidation.SystemComponent.UpdateHealth | validation.py:50-56 | sets health, last check, response time and the two metric entries, nothing else |
| SystemValidation.RankedIsAcyclic | validation.py:293-301 | a graph whose dependencies always rank lower has no cycle |
| SystemValidation.MutualIsCycle | validation.py:272-274 | a mutual pair is a cycle |
| SystemValidation.BuiltinKeysDistinct | validation.py:83-176 | the built-in dictionary has 18 distinct keys |
| SystemValidation.DependenciesRankLower | validation.py:83-176 | every built-in dependency is a built-in component of lower rank |
| SystemValidation.BuiltinGraphShape | validation.py:83-176 | the built-in graph is well formed, has 18 components, lists only known dependencies and has no cycle |
| SystemValidation.DepChecksMembers | validation.py:268-276 | each dependency gives a missing issue if unknown, a circular issue if it lists the component, a validated edge otherwise |
| SystemValidation.AllChecksMembers | validation.py:266-276 | the same over all components |
| SystemValidation.IssuesAreMutualPairs | validation.py:266-276 | when every dependency is known, all issues are circular, and there are none iff no pair lists each other |
| SystemValidation.LongCycleNotReported | validation.py:272-276 | a three-component cycle produces no issue |
| SystemValidation.AcyclicHasNoIssues | validation.py:266-276 | an acyclic graph with known dependencies has no issues |
| SystemValidation.BuiltinHasNoIssues | validation.py:83-176 | the built-in graph has no issues |
| SystemValidation.Visit | validation.py:293-301 | the recursive visit fails only when some dependency is unknown; otherwise it extends the search state, keeps its invariant (listed components follow their dependencies), and leaves the component visited and, absent cycles, listed |
| SystemValidation.VisitDependencies | validation.py:298-299 | visits a component's dependencies in order, covering them all |
| SystemValidation.SearchComplete | validation.py:303-306 | after visiting every key, the order lists every component exactly once, dependencies first when acyclic |
| SystemValidation.CalculateStartupOrder | validation.py:288-306 | None exactly when a dependency is unknown (KeyError); otherwise every component exactly once, dependencies first when acyclic |
| SystemValidation.ValidateDependencies | validation.py:260-286 | returns iff every dependency is known; issues and validated edges in dictionary order; has_issues iff issues; the startup order |
| SystemValidation.CheckComponent | validation.py:268-276 | the inner loop computes one component's issues and validated edges |
| SystemValidation.ValidateBuiltin | validation.py:260-306 | the built-in report has no issues and an 18-component startup order with dependencies first |
| SystemValidation.AllHealthy | validation.py:552-562 | all_healthy iff no dictionary argument has has_issues true or status "failed" |
| SystemValidation.ReportHealth | validation.py:559-560 | a dependency report counts against the overall status exactly when it has issues |
| Documentation.ExtractSection | core/documentation.py:37-53 | the loop computes the section text specification |
| Documentation.InsideSpan | core/documentation.py:44-51 | inside a section, the lines up to the next other delimiter line are collected, same-name headings dropped |
| Documentation.BeforeSpan | core/documentation.py:44-51 | the lines after the first matching heading up to the next other delimiter line |
| Documentation.NoHeadingNothing | core/documentation.py:44-53 | without a matching heading nothing is collected |
| Documentation.SectionTextLines | core/documentation.py:53 | "Section not found" iff no line was collected; otherwise the text splits back into the collected lines, none starting with the delimiter |
| Documentation.SentinelIsAlsoABody | core/documentation.py:53 | a section whose only line is "Section not found" is indistinguishable from a missing one |
| Documentation.PrefixOpens | core/documentation.py:45 | a heading matching by prefix ("## Aboutness" for "About") opens the section |
| Documentation.RepeatedHeadingSkipped | core/documentation.py:45-47 | a repeated same-name heading inside the section is skipped, not closing it |
| Documentation.DefaultSections | core/documentation.py:55-87 | the fallback has exactly about, features and license |
| Documentation.IntegratedDocumentation.constructor | core/documentation.py:12-35 | the fallback without a README; otherwise the five sections extracted under "## " headings |
| Documentation.IntegratedDocumentation.DisplaySection | core/documentation.py:89-101 | returns whether the lower-cased lookup found an entry; the text is shown only when it is non-empty |
| Documentation.EmptySectionFoundButHidden | core/documentation.py:92-101 | an empty section prints the error yet reports True |
| CommandCenter.PromptAnswer | ui/menu.py:89-100 | the answer is as long as the stripped line and has no lower-case ASCII letter; "0" on end of input |
| CommandCenter.LowerUpper | main.py:366 | lower-casing the upper-cased answer gives the lower-cased typed text, so the cancel check sees the typed word |
| CommandCenter.CancelsIff | main.py:436 | cancels iff the stripped answer is empty or lower-cases to back, exit or 0, so "BACK" cancels |
| CommandCenter.NonBlankStripped | main.py:439 | every target is non-empty and unpadded |
| CommandCenter.NonBlankStrippedMembers | main.py:439 | the targets are exactly the non-blank stripped fields |
| CommandCenter.TargetsRoundTrip | main.py:439 | non-empty, unpadded, comma-free targets joined by commas parse back to themselves, in order |
| CommandCenter.KeptAsIs | main.py:439 | fields that are already non-blank and unpadded are kept in order |
| CommandCenter.TargetsUpperCase | main.py:434-439 | targets reach the scanner without lower-case letters |
| CommandCenter.BatchOperation | main.py:426-449 | cancels iff the answer cancels; warns iff not cancelled and no target parses; reports the missing scanner iff there are targets and no scanner; scans only a non-empty parsed target list, and only with a scanner |
| CommandCenter.SingleScan | main.py:357-375 | cancels iff the answer cancels; reports the missing scanner; scans the non-empty answer as given |
| CommandCenter.TruncToInt | main.py:487 | int() of a float truncates toward zero |
| CommandCenter.UptimePartsMeaning | main.py:487-490 | hours and minutes name the minute the elapsed seconds fall in, with minutes in 0..59 |
| CommandCenter.UptimeString | main.py:486-490 | the uptime text is "{hours}h {minutes}m" of the truncated seconds |
| CommandCenter.UptimeMinutesShort | main.py:490 | the minutes field has one or two digits |
| CommandCenter.TruncateUrl | main.py:413 | unchanged up to 40 characters; otherwise the first 40 plus "...", 43 in total |
| CommandCenter.TruncateUrlIdempotent | main.py:413 | truncating twice equals truncating once |
| CommandCenter.ResultRow | main.py:408-414 | platform, check mark and status, truncated URL |
| CommandCenter.ResultRows | main.py:406-414 | one row per result, in order |
| CommandCenter.HistoryRow | main.py:536-542 | the number, target cut to 15, platform cut to 12, status and date |
| CommandCenter.HistoryRows | main.py:534-542 | one row for each of the first 20 records (fewer when the history is shorter), numbered from 1 |
| CommandCenter.HistoryNumbersDistinct | main.py:534-537 | distinct row numbers show distinct labels |
| PyStr.StripIdempotent | core/validators.py:120 | stripping twice equals stripping once |
| PyStr.JoinSplit | core/integration.py:266 | joining the fields of a split gives back the string |
| PyStr.SplitJoin | main.py:439 | splitting a join of separator-free fields gives back the fields |
| PyStr.NatToStringRoundTrip | core/integration.py:243 | the decimal text of a number reads back as that number |
| PyStr.AsciiDigitIsDecimal | core/validators.py:162 | every ASCII digit is a `\d` digit |
| PyStr.DecimalNotSpace | core/validators.py:162-163 | no `\d` digit is whitespace, so a port never holds whitespace |

## Left out

- Network I/O: the aiohttp probing, status-code classification and retries of `ProductionScanner` are not modelled. core/production_scanner.py stops inside `ProductionScanner.__init__`, and `_init_platforms` is not part of this model.
- The psutil, benchmark and integration-test methods of validation.py are not modelled, nor `_check_component_health`'s sleep; they are system and timing I/O.
- Persistence is not modelled: the SQL `DatabaseManager` in main.py, core/job_repository.py and core/audit.py.
- UI rendering is not modelled: Rich tables and boxes, banners and colours, and ui/menu.py beyond the answer `prompt` returns.
- Report file contents are not modelled: JSON, CSV, TXT and HTML writing. Only which files are produced, and the text of their paths, are.
- Integration.ReportFile: the path is the plain text `reportsDir + "/" + base + "." + ext`. The `pathlib` normalisation of `str(Path(reports_dir) / name)` is not modelled. Python drops "." components and repeated or trailing slashes, so `Path(".") / "x.json"` is "x.json". An absolute name replaces the directory, and a "/" inside the name adds a directory level.
- Integration.IndividualBaseFilename: an absent key is `None` and gives "unknown". A "username" or "scan_id" key that is present with the value `None` is not modelled; Python's `get` returns that `None` and the name then holds the text "None".
- Floating point:
  - the averages in `update_metrics`;
  - the queue `utilization` string;
  - the risk factors, category coverage and exposure risk, with `round`; `Analysis.RiskAssessment` takes the factor average as a parameter;
  - `_calculate_confidence`;
  - the slow-response threshold of `_detect_anomalies`; the slow platforms are a parameter.
- Integration.JobStatusOf: the float percentage is a parameter `pct`. Only its endpoint cases (0 and 100) are stated, because `int(c / t * 100)` can fall one below `100c/t`, as for 29/100.
- Concurrency: locks, the thread pool and the async retry wrapper. The logic is modelled sequentially, and the retry `sleep` delays are left out.
- Clocks, hashes and randomness are parameters:
  - the current time (`now`) in the cache, the error entries and the records;
  - the SHA-256 job id;
  - task creation times (`taskClock`);
  - the traceback text;
  - the JSON rendering of exception details.
- Logging side effects and the global error handler singleton are not modelled.
- `_detect_patterns` is not modelled. It puts unhashable `PlatformResult` dataclasses into a set, so it raises `TypeError` whenever a result is found.
- `export_error_log` and `to_json` write or serialise files; they are not modelled.
- PyStr.IsDecimal: the decimal digits of Unicode 15.0. Python builds on later Unicode versions may accept a few more digit blocks.
- PyStr.Lower, PyStr.Upper: only ASCII letters are case-mapped; Python maps all Unicode cased letters.
- Validators.ValidateQuery: the keyword set's iteration order is a parameter, because Python does not fix it. Validators.QueryValidIff and Validators.KeywordErrorsAreFlagged hold for every order of the six keywords.
- Validators.ValidatePort: Python's `int()` parsing of a port string is passed in as the parsed value, or `None` when it raised.
- Validators.ValidateMultiple, Validators.ValidateInputs: they require distinct validator names, as the keys of a Python keyword dictionary are.
- `validate_inputs` does not call the wrapped function: success is modelled as `None`, failure as the `ValueError` message.
- Documentation.IntegratedDocumentation.constructor: reading the README is a parameter; `None` stands for a missing file or a read error.
- validation.py is cut off at line 564. The value `_calculate_overall_status` returns when not all healthy is not part of this model. `SystemValidation.AllHealthy` gives the flag that selects "HEALTHY".
- CommandCenter.HistoryRow: the `strftime` rendering of the history timestamp is passed in as the record's date.
- Analysis: `PLATFORM_INFO` comes from config/platforms, which is not part of this model; it is a parameter (`InfoTable`).
- Analysis.PrimaryInterest: its tie-breaking and maximality are stated in Analysis.PrimaryInterestIsMostFrequent and Analysis.PrimaryInterestFirstOfMaximal, not in its own contract.
- ErrorHandling.ErrorHandler.GetErrorCount: the per-severity count is connected to the history in ErrorHandling.SummaryConsistent and ErrorHandling.CountWithSeverityIsOccurrences, not in its own contract.
