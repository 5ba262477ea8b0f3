# PersonaBalance interaction pipeline, modelled in Dafny

PersonaBalance is a browser "desktop simulator" that counts the user's clicks,
keystrokes and focus changes, turns each 30-second window into an integer
intensity score, classifies the score as `Calm`, `Balanced` or `Aggressive`,
stores one record per window, shows the ten newest records, and can produce a
report over a window of stored records, either locally or through a remote
text-generation service. This project models that pipeline and the stores it
writes to, and proves what each part promises.

Modules, one per file:

- `Classifier` (`classifier.dfy`): the pure part of `src/script.js`. It holds the score weights 2/1/3, the thresholds 20 and 60, and the record built at the end of a cycle.
- `RecordStore` (`record_store.dfy`): `src/sqliteClient.js`. The `interaction_summary` table is a class over the sequence of its rows in insertion order, with AUTOINCREMENT ids. The "newest N, id descending" query is a loop proved against a recursive specification.
- `Reports` (`reports.dfy`): `src/aiConfig.js`. It holds the local report's statistics and branch choice, the OpenAI and HuggingFace summaries, and the dispatch and fallback rules. The remote call is reduced to its outcome.
- `Session` (`session.dfy`): the stateful part of `src/script.js`. The counters, the timer flag, the localStorage list and the record store belong to one class. Its methods are the event handlers, the analysis cycle and the start and reset controls.
- `LegacyDb` (`legacy_db.dfy`): the older two-table store of `src/db/db.js`. It checks the handle, then the input, then mutates. Inputs are untyped JavaScript values (`undefined`, `null`, numbers, `NaN`, strings and booleans), and over those the falsy defaults and the `typeof` test are modelled exactly.
- `Tracker` (`tracker.dfy`): the standalone `eventTracker` object of `eventTracker.js`.
- `Wrappers` (`wrappers.dfy`): an `Option` type standing for `null`/`undefined`.

Clock readings (`new Date().toISOString()`) are a `now` string parameter. A timer firing is an explicit method call. Whether the timer is set is a boolean. Whether a remote call succeeded is a `RemoteOutcome` parameter. Whether the SQL engine loads is an `engineLoads` parameter.

Notes on the code's behaviour:

- For `getRecentRecords(limit)`, SQLite treats a negative `LIMIT` as "no limit" and `LIMIT 0` as "no rows" (`RecordStore.NewestRows`).
- The start and reset buttons sit inside the document, so a press also reaches the document `click` listener. A press of reset therefore leaves the click counter at 1, not 0 (`Session.Analyzer.PressReset`).
- The "fewer than five records gives no report" rule holds only for the local report. A remote service that replies produces a report for any number of records (`Reports.RemoteReportIgnoresMinimum`).
- `insertEvent` and `insertSummary` substitute defaults for falsy fields (`window_switches`, `score`, `mood`) instead of rejecting them. A `NaN` timestamp passes the event check (`LegacyDb.NaNTimestampAccepted`).
- The legacy `summary` table accepts only upper-case moods. The newer pipeline writes `Calm`/`Balanced`/`Aggressive` (`LegacyDb.MixedCaseMoodRejected`).
- Ids come from AUTOINCREMENT, so deleting rows does not reset the id counter (`nextId` survives `ClearRecords`).

## Model

| member | source | states |
|---|---|---|
| Classifier.IntensityScore | src/script.js:94-96 | The score lies between the number of interactions and three times that number, and it is zero exactly when all three counters are zero |
| Classifier.ScoreWeights | src/script.js:94-96 | The score is clicks times 2 plus keys times 1 plus focus changes times 3; one more click adds exactly 2, one more key exactly 1, one more focus exactly 3; the score is the sum of the three counters' separate contributions |
| Classifier.CalculateMode | src/script.js:98-102 | Calm exactly when score < 20, Balanced exactly when 20 <= score < 60, Aggressive exactly when score >= 60 (total, no gap or overlap) |
| Classifier.ModeBoundaries | src/script.js:98-102 | 0 and 19 are Calm, 20 and 59 are Balanced, 60 is Aggressive |
| Classifier.ModeMonotone | src/script.js:98-102 | A higher score never gives a calmer mode (Calm < Balanced < Aggressive) |
| Classifier.ModeNameInjective | src/script.js:99-101 | Distinct modes are stored under distinct names |
| Classifier.BuildInteractionRecord | src/script.js:106-115 | The record carries the given timestamp, the three counters and the given score and mode unchanged |
| Classifier.BuiltRecordIsConsistent | src/script.js:164-174 | A record built in a cycle has score equal to the intensity of its counters and mode equal to the classification of that score |
| RecordStore.ToStored | src/sqliteClient.js:41-48 | timestamp, clickCount, keyCount, focusCount and score go to the timestamp, click_count, key_count, focus_count and score columns unchanged; the mode column gets the mode's name, always one of Calm, Balanced, Aggressive |
| RecordStore.Store.constructor | src/sqliteClient.js:3-4 | No database handle and no rows at module load |
| RecordStore.Store.InitDb | src/sqliteClient.js:6-31 | Afterwards the handle exists; a second call changes nothing; rows and ids are kept |
| RecordStore.Store.InsertRecord | src/sqliteClient.js:33-50 | Appends exactly one row, with the next id and the record's fields under the snake-case column names; earlier rows unchanged; ids stay increasing |
| RecordStore.NewestRows | src/sqliteClient.js:56-63 | The query returns as many rows as the limit allows (all rows for a negative limit, none for 0), and only rows of the table |
| RecordStore.FetchNewest | src/sqliteClient.js:54-68 | Pushing the delivered rows one by one, newest first, until the table or the limit runs out yields exactly the query specification NewestRows (projected to the selected columns) |
| RecordStore.Store.GetRecentRecords | src/sqliteClient.js:52-69 | Opens the database if needed and returns exactly NewestRows of the table for the given limit; the table and the id counter are unchanged |
| RecordStore.Store.ClearRecords | src/sqliteClient.js:71-74 | The table is empty afterwards; the id counter is kept |
| RecordStore.NewestRowsShape | src/sqliteClient.js:56-66 | The query returns min(limit, row count) rows, or all rows for a negative limit, never more than a non-negative limit; the j-th result is the j-th newest row |
| RecordStore.NewestRowsDescending | src/sqliteClient.js:56-66 | On a table with increasing ids the result is ordered by id descending |
| RecordStore.NewestRowsAreLastInserted | src/sqliteClient.js:56-66 | With at least limit rows the result is exactly the last limit rows inserted, in reverse insertion order |
| RecordStore.LastInsertedComesFirst | src/sqliteClient.js:33-69 | After an insert, a query with limit 1 returns exactly the inserted row |
| Reports.CountMode | src/aiConfig.js:51-53 | A mode count never exceeds the number of records |
| Reports.CountModeIsMultiplicity | src/aiConfig.js:47-53 | Each mode count equals the multiplicity of that name in the records' modes |
| Reports.ModeCountsBound | src/aiConfig.js:47-53 | The three counts sum to at most the number of records, and to exactly that number if and only if every mode is one of the three names |
| Reports.StoredModeCountsAddUp | src/aiConfig.js:51-53 | For records the pipeline stored, the three counts sum to the number of records |
| Reports.ScoreSum | src/aiConfig.js:48-49 | The score sum is non-negative when every score is, and zero when every score is zero |
| Reports.TotalInteractions | src/aiConfig.js:55-57 | The interaction total is non-negative when every counter is |
| Reports.TotalInteractionsAppend | src/aiConfig.js:55-57 | The interaction total and the score sum of a concatenation are the sums over its parts |
| Reports.InteractionsBoundedByScores | src/aiConfig.js:55-57 | For consistent pipeline records the interaction total is non-negative and at most the score sum |
| Reports.RoundedMean | src/aiConfig.js:97 | The result r is the nearest integer to sum/n with halves rounded up: 2nr - n <= 2 sum < 2nr + n |
| Reports.ChooseAnalysis | src/aiConfig.js:68-88 | High activity exactly when Aggressive is a strict plurality; low activity exactly when Calm is; optimal exactly when neither is |
| Reports.TiesAreOptimal | src/aiConfig.js:68-88 | Every tie for the top count and every Balanced plurality give the optimal branch |
| Reports.LocalStats | src/aiConfig.js:47-57 | The three counts are the numbers of records whose mode is Calm, Balanced and Aggressive; the total is the records' interaction total; the counts sum to at most the number of records; the average is the half-up rounding of the mean score |
| Reports.SimulatedReport | src/aiConfig.js:42-101 | No report exactly when the list is absent or has fewer than five records; otherwise a local report stamped now, carrying the local statistics of exactly those records and the branch its counts select |
| Reports.ReportNeedsFiveRecords | src/aiConfig.js:43-45 | Four records give no report, five give one |
| Reports.MeanScore | src/aiConfig.js:121 | The unrounded mean is absent (NaN) exactly for an empty list and otherwise times the count gives the score sum |
| Reports.OpenAISummary | src/aiConfig.js:114-125 | The summary counts every record as a cycle; its three mode counts are the numbers of records whose mode is Calm, Balanced and Aggressive, and sum to at most the cycle count; its mean is the exact mean score, absent exactly for an empty list; its interaction total is the records' total (the HuggingFace summary inherits all but the total) |
| Reports.HuggingFaceSummary | src/aiConfig.js:184-192 | The summary is the OpenAI summary without the interaction total |
| Reports.OpenAISummaryAgreesWithLocalStats | src/aiConfig.js:114-125 | With five or more records the OpenAI summary has the same mode counts and interaction total as the local report, and the local average is within one half of the summary's mean |
| Reports.RemoteReportOrFallback | src/aiConfig.js:106-222 | An empty key, an absent list or a failed call gives exactly the local report; with a key, a list and a reply the result is the remote report stamped now with the reply text, the summary of the replying service and its source; a remote report arises in no other way |
| Reports.GenerateAIReport | src/aiConfig.js:27-37 | The simulated mode and every unrecognised mode give exactly the local report; so does any failed remote call; "openai" takes the OpenAI path with the OpenAI key and "huggingface" the HuggingFace path with the HuggingFace key |
| Reports.RemoteReportIgnoresMinimum | src/aiConfig.js:106-167 | On the OpenAI path with a key, a reply yields the remote report with the OpenAI summary for any number of records |
| Session.Analyzer.Score | src/script.js:94-96 | The score of the live counters is at least the number of interactions and zero exactly when all three counters are zero |
| Session.Analyzer.constructor | src/script.js:30-34 | Counters zero, no timer, a fresh empty store, localStorage list as found |
| Session.Analyzer.OnClick | src/script.js:75-78 | The click counter goes up by exactly 1, the other two are unchanged, the score goes up by 2 |
| Session.Analyzer.OnKeyDown | src/script.js:80-84 | The key counter goes up by exactly 1, the other two are unchanged, the score goes up by 1 |
| Session.Analyzer.OnFocus | src/script.js:86-90 | The focus counter goes up by exactly 1, the other two are unchanged, the score goes up by 3 |
| Session.Analyzer.SaveRecordToLocalStorage | src/script.js:117-123 | The record is appended at the end and the earlier entries are unchanged |
| Session.Analyzer.RunAnalysisCycle | src/script.js:163-197 | Exactly one row is appended; it holds the pre-cycle counters, their score and the mode of that score; the returned history is the ten newest rows and starts with that row; all three counters are zero afterwards |
| Session.Analyzer.Start | src/script.js:202-209 | The start handler alone: afterwards the timer is set; when it was already set nothing at all changes |
| Session.Analyzer.ResetCounters | src/script.js:211-233 | The reset handler up to its first await: counters zero (score zero) and timer cleared |
| Session.Analyzer.ClearHistory | src/script.js:234-238 | The awaited part of the reset handler: the store is empty and the history read back is empty |
| Session.Analyzer.Reset | src/script.js:211-241 | The reset handler alone: counters zero, timer cleared, store empty, and the history read back is empty |
| Session.Analyzer.PressStart | src/script.js:202-209 | A press of start, handler then the bubbled document click: the timer is set, the click counter goes up by 1 and the score by 2, the other counters are unchanged |
| Session.Analyzer.PressReset | src/script.js:211-241 | A press of reset: the whole handler runs, then the bubbled click is counted on the zeroed counters: click counter 1, key and focus counters 0, score 2, timer cleared, store and history empty |
| LegacyDb.EventAccepted | src/db/db.js:65 | An accepted event is present and its ts is neither undefined, null, a string nor a boolean; every present event with a numeric ts is accepted |
| LegacyDb.MoodAccepted | src/db/db.js:90-91 | Every falsy mood is let through; a truthy mood is accepted exactly when it is one of CALM, BALANCED, AGGRESSIVE (so a truthy UNKNOWN is refused); an accepted mood, once defaulted, is one of those three or UNKNOWN |
| LegacyDb.OrDefault | src/db/db.js:72 | A truthy value passes through and a falsy value gives the default; so the result is one of the two, and falsy only when the default is |
| LegacyDb.EventToRow | src/db/db.js:71-72 | The row copies ts, clicks and keys; window_switches is kept when truthy and 0 when falsy |
| LegacyDb.SummaryToRow | src/db/db.js:97-104 | The row copies ts, clicks and keys; score defaults to 0 and mood to UNKNOWN when falsy |
| LegacyDb.StoredMoodIsKnown | src/db/db.js:90-104 | Every mood that reaches the summary table is CALM, BALANCED, AGGRESSIVE or UNKNOWN |
| LegacyDb.MixedCaseMoodRejected | src/db/db.js:90-94 | Calm and Aggressive are refused, CALM and a missing mood are let through |
| LegacyDb.NaNTimestampAccepted | src/db/db.js:65-68 | A NaN timestamp passes the number check; a string timestamp does not |
| LegacyDb.GetEvents | src/db/db.js:115-118 | Always no rows |
| LegacyDb.GetSummary | src/db/db.js:120-123 | Always no rows |
| LegacyDb.Database.constructor | src/db/db.js:6 | No handle and both tables empty at module load |
| LegacyDb.Database.InitDb | src/db/db.js:9-53 | With a handle already present nothing changes; otherwise a loading engine opens the database with both tables empty, and a failing one leaves everything as it was and reports failure |
| LegacyDb.Database.InsertEvent | src/db/db.js:61-80 | Without a handle nothing changes; an absent event or a non-number ts is rejected with no row added; otherwise exactly one event row is appended; the summary table is never touched |
| LegacyDb.Database.InsertSummary | src/db/db.js:86-111 | Without a handle nothing changes; an absent summary throws; a truthy mood outside CALM, BALANCED, AGGRESSIVE is rejected with no row added; otherwise exactly one defaulted summary row is appended; the events table is never touched |
| LegacyDb.Database.ClearDatabase | src/db/db.js:127-132 | With a handle both tables are empty afterwards; without one nothing changes |
| Tracker.EventTracker.constructor | eventTracker.js:1-5 | Counters zero, active, empty buffer |
| Tracker.EventTracker.OnClick | eventTracker.js:15-19 | clickCount goes up by exactly 1 and nothing else changes |
| Tracker.EventTracker.OnKeyDown | eventTracker.js:21-25 | keyPressCount goes up by exactly 1 and nothing else changes |
| Tracker.EventTracker.OnVisibilityChange | eventTracker.js:27-37 | isActive becomes the negation of hidden; counters and buffer unchanged |
| Tracker.EventTracker.AggregationTick | eventTracker.js:40-52 | Exactly one snapshot of the current counters is appended at the end of the buffer, earlier entries unchanged; both counters zero afterwards; isActive unchanged |
| Tracker.EventTracker.RunCycles | eventTracker.js:39-53 | k firings grow the buffer by exactly k: the first new snapshot holds the counters as they were, every later one holds zeros, and the old entries are unchanged |

## Left out

- DOM rendering: the mode text and colour, the history panel HTML, the debug log, window dragging and closing. All of `app.js` (logging, z-index ordering, double-click handlers) is left out too. These only change the page.
- Real timers: `setInterval`/`clearInterval` are a boolean plus explicit calls of the cycle. `Session.Analyzer.RunAnalysisCycle` can be called whether or not the timer is set, as the function itself does not check.
- Session.Analyzer.RunAnalysisCycle: treated as atomic. While the first `initDb` is still loading the engine (src/sqliteClient.js:9-12), input handlers can run during the cycle's `await`s, and the increments they make are zeroed without being recorded. Once the database is open every `await` on the path settles in microtasks, so no handler can run between src/script.js:164 and :190. The model does not show the loss in the first case.
- The SQLite and sql.js engines, the CDN import and the wasm start-up are reduced to a handle flag and, for `src/db/db.js`, an `engineLoads` parameter. The engine errors that `insertEvent`/`insertSummary` catch and log are not modelled. The conversion of bound JavaScript values to SQLite column types is not modelled either. A failing `src/sqliteClient.js` call (`initDb`, or an `exec`) makes `runAnalysisCycle` reject at its `await` (src/script.js:178), before the counters are zeroed; the model has no such failure.
- LegacyDb.Database.InsertEvent, LegacyDb.Database.InsertSummary: the engine refuses to bind `undefined`, and that error is thrown inside the `try` (src/db/db.js:70-79, 96-110) and only logged. So an event without `clicks` or `keys`, or a summary without `ts`, `clicks` or `keys`, adds no row in the code. The model reports `Inserted` and stores those columns as `Undefined`.
- The default argument `limit = 10` of `getRecentRecords` is not modelled. Its only caller passes 10 explicitly (`Session.HistoryLimit`).
- The HTTP requests, prompt strings and JSON reply parsing of the OpenAI/HuggingFace paths are network I/O. Only the outcome (a reply text, or any failure) is modelled.
- The report text is left out: the Turkish strings, `toLocaleString` dates and the percentage figures are formatting and floating-point division. The integer statistics and the branch choice are modelled.
- JavaScript numbers in `src/sqliteClient.js` and `src/script.js` are unbounded integers, and counters are naturals; fractional and infinite values are not modelled there. In `src/db/db.js` numbers are reals plus `NaN`; `Infinity`, `-Infinity` and `-0` are not modelled there, nor are objects, arrays and BigInts (a `Date` passed as `ts`, whose `typeof` is `'object'` and which the check rejects, has no model value). In `src/aiConfig.js` the mean score (lines 49 and 121) is a double-precision division; `Reports.MeanScore` and `Reports.RoundedMean` use the exact quotient and exact rounding, which agree with the double result only while the score sum stays below 2^52 in magnitude.
- The localStorage JSON (de)serialisation, `loadRecordsFromLocalStorage` and `requestPersistentStorage` are browser storage APIs. Saving is a sequence append.
- The start-up sequence at the end of `src/script.js` (init the store, then render the history) and `eventTracker.init` only wire handlers and timers.
- `selfTest` in `src/db/db.js` is a console diagnostic over the modelled operations.
- `updateAIConfig`/`getAIConfig` are a plain object merge and copy. The configuration is a parameter of `Reports.GenerateAIReport`.
