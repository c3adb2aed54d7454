# JobNado AI (Antigravity Job Seeker): a verified model of the pipeline core

JobNado AI reads a CV, pasted as text, uploaded as a PDF or given as an image. It asks a language model for a
structured analysis: skills, level, suggested roles and boolean search strings. It then asks a grounded search for
live job listings. It also runs a scheduled sweep that mails subscribers new listings for their alert.

This project models the deterministic code around those remote calls and proves what that code promises:
- `services/geminiService.ts`:
  - the CV truncation and three-attempt retry of `analyzeCV`;
  - the retry, the `|||` block parser, the application-link resolution and the simulated fallback of `searchOpportunities`;
  - the fixed fallbacks of `generateOutreach` and `generateAlertConfirmation`.
- `supabase/functions/check-alerts/index.ts`: the serial alert sweep. It covers the JSON candidate, the fallback
  entry, the skip rules, the results list and the `last_alerted_at` column.
- `App.tsx`: the page's phase machine, as class `App.AppState`. It covers phase and hash navigation, the analysis
  and search handlers, reset, subscribe and unsubscribe, the `localStorage` persistence effect and the initial
  values read back on a reload.
- `components/CVInput.tsx`: the submit guard, the PDF page loop and the `replace(/\s+/g, ' ').trim()` cleanup, as
  class `CVInput.Panel`.

Every remote or browser facility is an oracle passed in as a parameter. This covers the model, the grounded search,
`JSON.parse`, the database, the mail service, PDF.js, `encodeURIComponent` and `Date.now()`. An oracle is a function
from the request and the attempt number to a reply or an `Exception`. The code around the oracles is modelled branch
by branch.

Files:
- `wrappers.dfy`: Option and Result.
- `types.dfy`: the records of `types.ts`.
- `text.dfy`: JavaScript white space, `trim`, substring search, `split`/`join` and decimal digits.
- `seqs.dfy`: `filter`.
- `retry.dfy`: the shared retry loop.
- `job_parser.dfy`, `gemini_service.dfy`, `check_alerts.dfy`, `app.dfy`, `cv_input.dfy`: one per core concern,
  each followed by a `...Facts` module with the properties proved about it.

Three behaviours of the code worth noting:
- A `JSON.parse` failure on the bracketed text of an alert reply skips the alert. It does not fall back to the
  search-link entry.
- A block is kept only when its trimmed length exceeds 10, so a block of exactly 10 characters is dropped.
- The search makes three attempts with the 1 s and 2 s backoff. No two-attempt variant exists in the code.

## Model

| member | source | states |
|---|---|---|
| Retry.Retry | services/geminiService.ts:74-92 | at most `maxAttempts` calls; all but the last failed; the result is the last call's outcome; a failure only after every attempt; the waits are base·1, base·2, … and there is no wait after the last attempt |
| GeminiService.SafeText | services/geminiService.ts:34 | the text sent is the first 40,000 characters of a longer CV and the whole CV otherwise |
| GeminiService.Contents | services/geminiService.ts:30-45 | two parts: the instructions, then either the `CV TEXT:` part with the truncated text (no inline data) or the inline image data (no text part) |
| GeminiService.AnalysisAttempt | services/geminiService.ts:85-86 | a thrown call keeps its error; an empty reply is the "No analysis generated" error; any other reply is what the parser makes of it |
| GeminiService.AnalyzeCV | services/geminiService.ts:13-96 | a client fault throws before any attempt; otherwise 1–3 attempts with 1 s and 2 s waits, the first parsed analysis is returned, and it succeeds exactly when some attempt parses; after three failures the last attempt's error is rethrown |
| GeminiService.SweepJobs | services/geminiService.ts:163-248 | a search never ends with an empty list: the parsed jobs of the last reply, or the simulated jobs |
| GeminiService.Sweep | services/geminiService.ts:142-249 | the retry followed by the parse or the fallback; the list is non-empty, and the attempts, waits and jobs are those of the sweep outcome |
| GeminiService.SearchOpportunities | services/geminiService.ts:102-250 | only a client fault throws (an analysis without `adjacentIndustries` counts as having none); otherwise a non-empty job list from the request built of the target role, the first five skills, the level and the country |
| GeminiService.GenerateOutreach | services/geminiService.ts:256-284 | without a client fault always a non-empty text: the reply, the fixed sentence for an empty reply, or on error a sentence that contains the job title |
| GeminiService.GenerateAlertConfirmation | services/geminiService.ts:290-317 | without a client fault always a non-empty text: the reply, or the radar sentence when the reply is empty or the call throws |
| GeminiServiceFacts.CvTruncation | services/geminiService.ts:32-38 | a CV within the limit is sent whole; a longer one is sent as exactly its first 40,000 characters and never whole |
| GeminiServiceFacts.RadarMessageNamesAll | services/geminiService.ts:313-315 | the radar sentence names the role, the country and the email address |
| GeminiServiceFacts.TargetRoleChoice | services/geminiService.ts:110 | a non-empty selected role wins, otherwise the first suggested role; the role is absent exactly when neither exists |
| GeminiServiceFacts.SkillsListParts | services/geminiService.ts:111 | the skills line holds the first n skills in order: splitting it on `", "` gives them back when no skill has a comma |
| GeminiServiceFacts.SimulatedShape | services/geminiService.ts:220-248 | the fallback is three simulated jobs with distinct ids, strictly decreasing scores (92, 88, 85), each title naming the target role |
| GeminiServiceFacts.SimulatedIdsApart | services/geminiService.ts:199-222 | a simulated id never equals the id of a parsed job |
| GeminiServiceFacts.SweepAllOrNothing | services/geminiService.ts:209-248 | a search ends with exactly the parsed jobs of the last reply, all real, or with exactly the simulated jobs; never a mix |
| GeminiServiceFacts.SweepOfRenderedAnswer | services/geminiService.ts:132-214 | an answer written in the requested block format yields its listings, in order, none simulated |
| JobParser.LineAt | services/geminiService.ts:173 | the `(.+)` capture is a non-empty run of characters with no line terminator |
| JobParser.DigitsAtStart | services/geminiService.ts:175 | the `(\d+)` capture is a non-empty run of decimal digits |
| JobParser.LineCapture | services/geminiService.ts:173-176 | the capture of `key\s*(.+)` at its leftmost match is a non-empty single line |
| JobParser.DigitsCapture | services/geminiService.ts:175 | the capture of `Score:\s*(\d+)` at its leftmost match is a non-empty digit string |
| JobParser.FirstMention | services/geminiService.ts:186-191 | `find` stops at the first chunk whose lower-cased title contains the company, and no earlier chunk does; none means no chunk does |
| JobParser.ApplicationUrl | services/geminiService.ts:182-196 | a company of 2 characters or fewer gets the search link; otherwise the first mentioning chunk decides, by its URI or, without one, the search link; no mentioning chunk gives the search link |
| JobParser.ParseJobs | services/geminiService.ts:170-207 | one job per kept block, in block order, with the block's position as its index and the clock reading for that index |
| JobParserFacts.KeptBlocksExactly | services/geminiService.ts:170 | a block is kept exactly when it is a piece of the split on the triple-bar separator and its trimmed length exceeds 10 |
| JobParserFacts.JobIdIndex | services/geminiService.ts:199 | the index can be read back from a job id: it is the digits between `job-` and the next dash |
| JobParserFacts.JobIdsDistinct | services/geminiService.ts:199 | jobs at different indices get different ids, whatever the clock reads |
| JobParserFacts.ParsedJobsReal | services/geminiService.ts:198-206 | every parsed job is marked real and has id `job-i-t`; the ids of one batch are pairwise distinct |
| JobParserFacts.FieldShape | services/geminiService.ts:178-179 | a text field is either its default or a non-empty trimmed single line |
| JobParserFacts.FieldAbsent | services/geminiService.ts:178-179 | a block without the key gets the field's default |
| JobParserFacts.FieldAt | services/geminiService.ts:173 | a key followed by a space and a plain value on its line captures exactly that value |
| JobParserFacts.DigitsAt | services/geminiService.ts:202 | a key followed by a space and a digit string gives the number those digits denote |
| JobParserFacts.ScoreNotCapped | services/geminiService.ts:202 | the score is whatever number is written, with no clipping to 100 |
| JobParserFacts.TitleInBlock | services/geminiService.ts:134 | the title of a block rendered in the requested format is read back unchanged |
| JobParserFacts.CompanyInBlock | services/geminiService.ts:135 | the company of a rendered block is read back unchanged |
| JobParserFacts.ScoreInBlock | services/geminiService.ts:136 | the score of a rendered block is read back unchanged |
| JobParserFacts.ReasonInBlock | services/geminiService.ts:137 | the reason of a rendered block is read back unchanged, even though it sits below the other keys |
| JobParserFacts.BlockSurvivesSplit | services/geminiService.ts:170 | a rendered block has no bar character and is long enough to be kept |
| JobParserFacts.ParseRendered | services/geminiService.ts:132-207 | parsing the rendering of listings joined by the triple-bar separator gives back exactly those listings, in order |
| CheckAlerts.FirstAbort | supabase/functions/check-alerts/index.ts:89-123 | the position of the first alert whose mail call throws, and no earlier alert throws; none means no alert throws |
| CheckAlerts.HandleAlert | supabase/functions/check-alerts/index.ts:33-137 | one alert: a throwing mail call aborts with its error and changes nothing; otherwise the alert's entry, if any, is appended and its timestamp written only for a sent mail |
| CheckAlerts.SweepAlerts | supabase/functions/check-alerts/index.ts:33-138 | the loop handles the alerts in order; without an abort it returns every entry and every timestamp; with one it stops at the first throwing mail call, keeping the timestamps written before it |
| CheckAlerts.CheckAlerts | supabase/functions/check-alerts/index.ts:9-151 | the preflight answers `ok`; a store error answers 400 with nothing processed; otherwise the run over the active rows |
| CheckAlertsFacts.ActiveRows | supabase/functions/check-alerts/index.ts:21-33 | exactly the active rows are handled, in store order |
| CheckAlertsFacts.JsonCandidateExactly | supabase/functions/check-alerts/index.ts:65 | a candidate exists exactly when some `[` precedes some `]`, and it is a bracketed slice of the reply |
| CheckAlertsFacts.NoBracketFallback | supabase/functions/check-alerts/index.ts:68-75 | a reply with no bracketed text yields the single search-link entry, and the alert is not skipped |
| CheckAlertsFacts.SearchFailuresSkip | supabase/functions/check-alerts/index.ts:37-82 | a missing model key, a failed search, a failed parse and an empty list each skip the alert |
| CheckAlertsFacts.StampOnlyWhenSent | supabase/functions/check-alerts/index.ts:125-131 | the timestamp is written exactly for a 'sent' entry; that entry reports the number of jobs, which is non-zero, and the mail service accepted it |
| CheckAlertsFacts.EntriesNeedJobs | supabase/functions/check-alerts/index.ts:82-137 | every entry follows a non-empty job list; 'skipped (no email key)' is recorded exactly when the mail key is missing |
| CheckAlertsFacts.TouchOnlySent | supabase/functions/check-alerts/index.ts:128-131 | a timestamp that changed belongs to an alert whose mail was accepted |
| CheckAlertsFacts.SentAreStamped | supabase/functions/check-alerts/index.ts:125-131 | every alert whose mail was accepted has a timestamp afterwards |
| CheckAlertsFacts.EntriesBounds | supabase/functions/check-alerts/index.ts:126-136 | at most one entry per alert, and every 'sent' entry reports at least one job |
| CheckAlertsFacts.ListHtmlConcat | supabase/functions/check-alerts/index.ts:87 | the mail list is one item per job, in order |
| CheckAlertsFacts.SubjectCount | supabase/functions/check-alerts/index.ts:98-112 | the subject names the number of jobs, and the mail reports that number and lists those jobs |
| CheckAlertsFacts.AbortAnswers400 | supabase/functions/check-alerts/index.ts:145-150 | a run stopped by a throwing mail call answers 400 and keeps only the timestamps written before that alert |
| App.Load | App.tsx:18-43 | every stored value is read back; a missing phase gives idle, and a missing or empty country gives "United States"; a missing or empty role gives none |
| App.HashFor | App.tsx:105-107 | the review is shown under `analysis` and the results under `results`; every other phase has no hash |
| App.NavigationPhase | App.tsx:76-91 | a navigation event moves to the results only for `#results` with jobs, to the review only for `#analysis` with an analysis, and to idle exactly for `""` or `#`; otherwise the phase stays |
| App.AppState.constructor | App.tsx:18-72 | the hooks load from storage, the alert flag is set exactly when its key holds `'true'`, the persistence effect runs, and the hash is restored |
| App.AppState.NavigateToPhase | App.tsx:103-120 | the phase is set; the hash becomes the phase's hash or none, and a history entry is added only when the hash changes |
| App.AppState.HandleNavigation | App.tsx:76-91 | the phase follows the navigation rule for the new hash, nothing else in the session changes, and the storage matches the session afterwards |
| App.AppState.HandleAnalysis | App.tsx:122-139 | an empty country gets its default; the review opens with the `#analysis` hash exactly when some attempt parses, holding the analysis of the first attempt that parses (every earlier one failed) and adding one history entry unless the hash already was `#analysis`; otherwise the error message and the idle phase, with the old analysis kept |
| App.AppState.BeginAnalysis | App.tsx:123-127 | before the await: the country default, the analysing phase, no error, then the persistence effect |
| App.AppState.FinishAnalysis | App.tsx:131-138 | after the await: the analysis and the review on success, the error message and idle on failure, then the persistence effect |
| App.AppState.HandleSearch | App.tsx:141-156 | without an analysis nothing changes; otherwise the target role is stored, and either the results open with the `#results` hash and the sweep's non-empty jobs, adding one history entry unless the hash already was `#results`, or the review returns with the error message and the old jobs |
| App.AppState.BeginSearch | App.tsx:142-146 | before the await: the searching phase, no error, the chosen role, then the persistence effect |
| App.AppState.FinishSearch | App.tsx:148-155 | after the await: the jobs and the results on success, the error message and the review on failure, then the persistence effect |
| App.AppState.HandleSubscribe | App.tsx:158-161 | the flag is set and stored as `'true'`; nothing else changes |
| App.AppState.HandleUnsubscribe | App.tsx:163-166 | the flag is cleared and its key removed; nothing else changes |
| App.AppState.Reset | App.tsx:181-203 | the session returns to its first-visit values, the six session keys are removed, one history entry without hash is pushed, and the alert flag is kept |
| App.PersistIdempotent | App.tsx:54-61 | running the persistence effect twice is running it once |
| App.PersistEntries | App.tsx:54-61 | phase, CV text and country are always written; the analysis only when set, the jobs only when non-empty, the role only when truthy; every other key is untouched |
| App.PersistOtherKey | App.tsx:158-166 | setting or removing the alert key leaves the storage a fixed point of the persistence effect |
| AppFacts.ReloadRestores | App.tsx:18-61 | a reload restores the persisted phase, a non-empty CV text and country, and a set analysis, jobs and role; an unset one comes back as stored before |
| AppFacts.ResetReloadsFresh | App.tsx:181-199 | after reset a reload gives the first-visit session, and no analysis, jobs or role is stored |
| AppFacts.ValidReloads | App.tsx:40-61 | storage kept in step with a full session reloads to that session |
| AppFacts.HashRoundTrip | App.tsx:76-120 | the hash a phase is shown under leads back to that phase when its data is there, and otherwise leaves the phase alone |
| AppFacts.NavigationEventHarmless | App.tsx:94-120 | the `hashchange` fired by `navigateToPhase` never moves away from the phase it just set |
| AppFacts.RestoredHashLeadsBack | App.tsx:64-91 | after a reload without a hash, the restored hash leads back to the restored phase |
| CVInput.Submits | components/CVInput.tsx:37-42 | the analysis starts exactly when the text has a character that is not white space |
| CVInput.ExtractPages | components/CVInput.tsx:77-88 | the page loop builds the page texts of pages 1..n in order, each followed by a line break, and stops at the first unreadable page with its error |
| CVInput.Extract | components/CVInput.tsx:64-88 | a document that fails to load gives its error; otherwise the page loop's result |
| CVInput.FailureSticks | components/CVInput.tsx:79-88 | once a page fails, every longer run fails with the same error |
| CVInput.Collapse | components/CVInput.tsx:91 | `replace(/\s+/g, ' ')` never lengthens the text, keeps it empty exactly when it was, keeps whether it starts with white space, and leaves only plain spaces as white space |
| CVInput.CollapseSingles | components/CVInput.tsx:91 | after the replacement no two white-space characters are adjacent |
| CVInput.CollapseKeepsVisible | components/CVInput.tsx:91 | the replacement keeps every visible character, in order |
| CVInput.CollapseFixed | components/CVInput.tsx:91 | a text of single plain spaces is left unchanged by the replacement |
| CVInput.CleanSpacing | components/CVInput.tsx:91 | the cleaned text has no white space at either end, no two white-space characters in a row, and only plain spaces |
| CVInput.CleanVisible | components/CVInput.tsx:91 | the cleaned text holds exactly the visible characters of the extracted text, in order |
| CVInput.CleanBlank | components/CVInput.tsx:91 | the cleaned text is empty exactly when the extracted text is blank |
| CVInput.CleanIdempotent | components/CVInput.tsx:91 | cleaning a cleaned text changes nothing |
| CVInput.CleanKeepsSubmit | components/CVInput.tsx:37-92 | the cleaned text can be submitted exactly when the raw text could |
| CVInput.Panel.constructor | components/CVInput.tsx:34 | the panel starts with the given text, the flag cleared, an empty file input and no alerts |
| CVInput.Panel.HandlePdfUpload | components/CVInput.tsx:53-102 | no file changes nothing; a non-PDF only raises its alert; otherwise the cleaned text of all pages replaces the text, or the failure alert is raised and the text is kept, and the flag and file input are always reset |
| CVInput.Panel.Settle | components/CVInput.tsx:91-101 | the cleaned text or the failure alert, then the `finally` block |
| CVInputFacts.PagesInOrder | components/CVInput.tsx:79-88 | reading more pages only appends: the text of the first m pages is a prefix of that of n |
| CVInputFacts.PagesFailure | components/CVInput.tsx:79-95 | the extraction fails exactly when some page in 1..n is unreadable, and then with the first such page's error |
| CVInputFacts.PageEndsLine | components/CVInput.tsx:84-87 | each page's text is followed by its own line break at the end of the text |
| Text.TrimOneLine | services/geminiService.ts:178-179 | trimming a single line gives nothing or a non-empty trimmed line |
| Text.TrimWithin | services/geminiService.ts:178-179 | trimming adds no character |
| Text.JoinSplit | services/geminiService.ts:170 | `split` loses nothing: joining the pieces back with the separator gives the original text |
| Text.SplitJoin | services/geminiService.ts:111 | joining pieces that lack the separator's first character and splitting again gives exactly those pieces |
| Text.SplitPiecesFree | services/geminiService.ts:170 | no piece produced by `split` contains the separator |
| Text.NatToStringInjective | services/geminiService.ts:199 | distinct numbers render to distinct decimal strings |
| Text.ParseNatToString | services/geminiService.ts:202 | `parseInt` of the decimal rendering of n is n |
| Seqs.FilterMembership | services/geminiService.ts:170 | an element survives `filter` exactly when it was present and passes the test |
| Seqs.FilterConcat | services/geminiService.ts:170 | `filter` commutes with concatenation, so survivors keep their order |

## Left out

- The remote and browser facilities are parameters, never models: the model call, the grounded search, JSON schema
  enforcement and `JSON.parse`, the database, the mail service, PDF.js, `encodeURIComponent`, `Date.now()`,
  `setTimeout` and the console. The waits are recorded as a sequence of milliseconds.
- `await` is a sequential step. A handler's state updates are batched before and after its await, and the
  persistence effect runs after each batch. The intermediate renders are not modelled.
- The prompt wording is reduced to the fields it interpolates (`SearchRequest`, `OutreachRequest`,
  `ConfirmationRequest`). The mail's HTML styling is reduced to the interpolated fields and the job list.
- Lengths are counted in code points, not UTF-16 units, for the 40,000-character truncation, for `trim().length` and for
  the `companyName.length > 2` guard of the chunk fallback.
- Text.ToLower: lower-cases ASCII letters only. The full Unicode case mapping of `toLowerCase` is not modelled, so
  the chunk-title match is exact only for ASCII company names.
- JobParserFacts.DigitsAt: `parseInt` is exact on unbounded naturals. Rounding of very long digit strings to
  double precision is not modelled.
- GeminiService.SearchOpportunities: an analysis without `adjacentIndustries` makes the source's fallback throw a
  `TypeError` when it reads the first industry, which `handleSearch` shows as its error; the model treats the field as
  an empty list, so that fallback always succeeds.
- GeminiService.SimulatedJobs: with no target role the first simulated job's title is the empty string, where the
  source leaves it `undefined`.
- A `JSON.parse` result that is not an array of objects is not modelled: the alert parser oracle yields a list of
  jobs or an error.
- The `last_alerted_at` update's own database error is ignored, as the code ignores it.
- Stored values are typed (`App.Stored`). A stored value of the wrong shape loads as the default, and
  `JSON.parse` throwing on a corrupt stored analysis is not modelled.
- The `hashchange` event that `navigateToPhase` triggers is not run after each handler. AppFacts.NavigationEventHarmless
  shows it cannot change the phase.
- App.AppState.HandleNavigation: takes the new hash from the browser. The back button (`history.back`) and the
  history stack itself are not modelled, only the number of entries pushed.
- The `prepJob`/`coverLetterJob` modals, the alert modal flag, the clipboard paste of the CV panel and the rendering
  are not modelled. `handlePrepMe`, `handleCoverLetter` and `handleBack` only open a modal or call the browser.
- The `isPdfProcessing = true` state while the PDF is read is not observable in the model. The method sets it before
  the extraction and the `finally` block clears it.
- The unused `AppPhase.ERROR` value exists only as a constructor of the phase type.
