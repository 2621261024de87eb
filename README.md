# Student engagement monitor: a verified model of its decision logic

The system predicts a student's engagement level from physiological readings:
0 (Low), 1 (Moderate) or 2 (High). It consists of Flask back ends (prediction
routes, two authentication back ends, a stream simulator, a session-file
converter) and two React clients. Clients show the levels, summarise a
student's history and turn it into teaching suggestions.

This project models the parts that decide something:

- **Summariser** (`summariser.dfy`, with `levels.dfy`, `frequency.dfy` and `labels.dfy`):
  - the statistics of a history: mean, recent mean, population variance, the mode as JavaScript object-key order makes it, and two counts;
  - six threshold rules, each adding two suggestions, and the fallback;
  - `averageEngagement` and the average band.
- **The older client lists**:
  - `behaviour_panel.dfy`: the average, the latest suggestion and the behavioural list of the search page;
  - `data_panel.dfy`: the data list of the other search page;
  - lemmas relating the two lists.
- **Prediction routes** (`prediction.dfy`):
  - range validation and severity grading;
  - the choice of the two most important features;
  - the order of the checks in the manual and CSV routes;
  - the CSV row loop and the timestamp fallback;
  - the owner check of the delete route.
- **Session file converter** (`session_csv.dfy`):
  - the row-by-row state machine of `parse_custom_csv`, as written and with the session flush placed as evidently intended (see Findings);
  - the data frame of a session: narrower lines padded, a raise when the widest line does not match the headers, and duplicated column names.
- **Authentication**:
  - `reset_auth.dfy`: the in-memory user table with password reset;
  - `user_store.dfy`: the document store of users;
  - `mongo_auth.dfy`: the register, login and profile routes over that store.
- **Stream payload** (`stream_payload.dfy`): the defaults filled into each row before it is posted.
- **Client state**:
  - `history_view.dfy`: the load and delete handlers of the history page;
  - `dashboard.dfy`: the submit handlers and result cells of the dashboard.
- **Shared value model** (`values.dfy`, `text.dfy`, `wrappers.dfy`):
  - JavaScript truthiness and `||`;
  - Python's `dict.get`, truthiness, `str.strip` and `str.replace`.

Engagement levels are integers, so every mean and variance is exact with `real`.
Hashing (bcrypt, werkzeug) is symbolic: a hash records the password and the
salt drawn for it, and a password checks against a hash only when it is the
recorded one. Token signing and verification, the trained model, the SHAP
weights, the clock, date parsing and the random choices are parameters. A
route's reply is a datatype carrying its HTTP status. An exception that Flask
turns into a 500 is an explicit `ServerError`, which lists the documents the
CSV route had already inserted before it raised. A client request is a
`Response` parameter: the data it returned, or the error value the server
sent.

The mode reduces `Object.keys(frequency)` with a strict `>`. Integer keys
iterate in ascending order, so ties go to the largest tied level: for
`[0, 2, 0, 2, 0, 2]` the mode is 2, although 0 occurs first
(`Frequency.ModeIsLargestOfTied`).

## Model

| member | source | states |
|---|---|---|
| Labels.LabelOf | frontend/src/components/Dashboard.jsx:4-15 | strict `switch`: "Low", "Moderate", "High" exactly for the numbers 0, 1, 2; every other value, a string "1" or null included, is "Unknown" |
| Labels.LevelLabel | frontend/src/components/Suggestion.jsx:45-52 | each label holds exactly for its level; "Unknown" exactly outside 0..2 (the same mapping is repeated in frontend/src/components/History.jsx, frontend-1/src/components/Suggestion.jsx and frontend-1/src/components/Suggestion.js) |
| Labels.AverageBand | frontend/src/components/Suggestion.jsx:54-58 | "Low" iff avg < 0.8, "Moderate" iff 0.8 <= avg < 1.5, "High" iff avg >= 1.5 |
| Labels.AverageBandMonotone | frontend/src/components/Suggestion.jsx:54-58 | a higher average never gets a lower band |
| Levels.Mean | frontend/src/components/Suggestion.jsx:72 | the mean times the count is the sum of the levels |
| Levels.Tail | frontend/src/components/Suggestion.jsx:73 | the window has min(k, n) elements and they are the last ones of the history, in order |
| Levels.MeanBounds | frontend/src/components/Suggestion.jsx:72 | the mean of levels in [lo, hi] lies in [lo, hi] |
| Levels.VarianceNonNegative | frontend/src/components/Suggestion.jsx:75 | the population variance is never negative |
| Levels.ConstantStatistics | frontend/src/components/Suggestion.jsx:72-75 | a constant history has that constant as its mean and variance 0 |
| Levels.CountPositive | frontend-1/src/components/Suggestion.jsx:212 | a level is counted at least once iff it occurs |
| Levels.CountFull | frontend-1/src/components/Suggestion.jsx:217 | every element equals v iff v's count is the length |
| Frequency.KeyOrder | frontend/src/components/Suggestion.jsx:81 | `Object.keys` lists each distinct level of the history and nothing else |
| Frequency.IndexKeysBelow | frontend/src/components/Suggestion.jsx:81 | the array-index keys come first, strictly ascending, and are exactly the index levels present |
| Frequency.OtherKeys | frontend/src/components/Suggestion.jsx:81 | the non-index keys are exactly the other levels present |
| Frequency.ReduceMode | frontend/src/components/Suggestion.jsx:81-83 | the reduce ends on a key of largest count, and no later key has that count |
| Frequency.Mode | frontend/src/components/Suggestion.jsx:77-83 | the mode occurs in the history and no level occurs more often |
| Frequency.ModeIsLargestOfTied | frontend/src/components/Suggestion.jsx:77-83 | for levels 0..2^32-2 a tie goes to the largest tied level |
| Frequency.ModeOfConstant | frontend/src/components/Suggestion.jsx:77-83 | a history of one repeated level has that level as its mode |
| Summariser.LevelsOf | frontend/src/components/Suggestion.jsx:71 | one level per record, in order |
| Summariser.AfternoonLowCount | frontend/src/components/Suggestion.jsx:85-88 | counts at most one per record |
| Summariser.AfternoonLowCountZero | frontend/src/components/Suggestion.jsx:85-88 | without a record at 13..16 h below level 1 the count is 0 |
| Summariser.BoringFeedbackCount | frontend/src/components/Suggestion.jsx:90-92 | counts at most one per record |
| Summariser.ThreeAfternoonLows | frontend/src/components/Suggestion.jsx:85-92 | three afternoon lows with no "boring" feedback count 3 and 0 |
| Summariser.Summarise | frontend/src/components/Suggestion.jsx:71-92 | the variance of the statistics is non-negative and the mode is one of the levels |
| Summariser.AverageEngagement | frontend/src/components/Suggestion.jsx:60-65 | null exactly for the empty history; otherwise the mean of the levels with its band |
| Summariser.Advice | frontend/src/components/Suggestion.jsx:96-124 | each rule adds exactly two messages, never the fallback |
| Summariser.FiredRules | frontend/src/components/Suggestion.jsx:96-124 | no more rules fire than there are |
| Summariser.Suggestions | frontend/src/components/Suggestion.jsx:67-131 | what `generateDynamicSuggestions` returns; its properties are `SuggestionsEmptyIff`, `SuggestionsLength`, `StableIffNoRuleFires` and `RuleAdviceAt` |
| Summariser.SuggestionsOf | frontend/src/components/Suggestion.jsx:94-130 | the pushes for given statistics; `ApplyRules` is proved to compute it and `AdviceForUnrolled` spells out its rule order |
| Summariser.GenerateDynamicSuggestions | frontend/src/components/Suggestion.jsx:67-131 | the pushes produce `Suggestions(history)`: nothing for the empty history, else the rule advice or the fallback |
| Summariser.ApplyRules | frontend/src/components/Suggestion.jsx:94-130 | the six guarded pairs of pushes and the fallback give exactly `SuggestionsOf(s)` |
| Summariser.AdviceForUnrolled | frontend/src/components/Suggestion.jsx:96-124 | the advice is the pairs of the fired rules in the fixed order acute drop, decline, volatility, enrichment, afternoon dip, negative feedback |
| Summariser.AdviceForLength | frontend/src/components/Suggestion.jsx:96-124 | the advice has two messages per fired rule |
| Summariser.AdviceForNotStable | frontend/src/components/Suggestion.jsx:96-124 | the rule advice never contains the fallback |
| Summariser.AdviceForEmpty | frontend/src/components/Suggestion.jsx:96-124 | there is no advice iff no rule fires |
| Summariser.AdviceForSplit | frontend/src/components/Suggestion.jsx:96-124 | the advice splits at any rule into that of the rules before, the rule's own and that of the rules after |
| Summariser.SuggestionsEmptyIff | frontend/src/components/Suggestion.jsx:68-69 | the suggestions are empty iff the history is |
| Summariser.SuggestionsLength | frontend/src/components/Suggestion.jsx:94-128 | the suggestions number 1, or an even number from 2 to 12 |
| Summariser.StableIffNoRuleFires | frontend/src/components/Suggestion.jsx:126-128 | the fallback appears iff no rule fires, and then alone |
| Summariser.RuleAdviceAt | frontend/src/components/Suggestion.jsx:96-124 | a fired rule's two messages stand together, right after those of the earlier fired rules |
| Summariser.ConstantSummary | frontend/src/components/Suggestion.jsx:72-83 | a history of one level c has mean, recent mean and mode c and variance 0 |
| Summariser.SteadyHighSummary | frontend/src/components/Suggestion.jsx:111-114 | steady statistics at 2 with few afternoon lows and "boring" feedbacks fire only the enrichment rule |
| Summariser.SteadyLowSummary | frontend/src/components/Suggestion.jsx:96-104 | steady statistics at 0 fire only the acute-drop rule, not the decline rule |
| Summariser.DippingSummary | frontend/src/components/Suggestion.jsx:116-119 | steady statistics at 0 with more than two afternoon lows fire the acute-drop and afternoon rules |
| Summariser.AllHighGetsEnrichmentOnly | frontend/src/components/Suggestion.jsx:111-114 | a history of 2s with fewer than two "boring" feedbacks gets exactly the two enrichment messages |
| Summariser.AllLowGetsAcuteDropOnly | frontend/src/components/Suggestion.jsx:96-99 | a history of 0s with few afternoon lows and "boring" feedbacks gets only the acute-drop pair, and its average is 0 (Low) |
| Summariser.AfternoonLowsScenario | frontend/src/components/Suggestion.jsx:116-119 | three level-0 records at 14:00 get the acute-drop and afternoon pairs |
| BehaviourPanel.AverageEngagement | frontend-1/src/components/Suggestion.jsx:64-70 | null exactly for the empty history, else the mean of the levels |
| BehaviourPanel.RecentAverage | frontend-1/src/components/Suggestion.jsx:74-77 | the mean of the last up to five levels; NaN (None) exactly for the empty history |
| BehaviourPanel.DynamicSuggestion | frontend-1/src/components/Suggestion.jsx:73-86 | `dynamicSuggestion`; `DynamicSuggestionByWindowSum` states which message each window gets and `PickMonotone` that a lower average never picks a more engaged one |
| BehaviourPanel.PickMonotone | frontend-1/src/components/Suggestion.jsx:79-85 | a lower recent average never selects a more engaged message |
| BehaviourPanel.DynamicSuggestionByWindowSum | frontend-1/src/components/Suggestion.jsx:73-86 | the very-low message iff twice the window sum is below its length; the engaged one iff five times the sum reaches six times the length or the history is empty |
| BehaviourPanel.Panel | frontend-1/src/components/Suggestion.jsx:212-227 | at most the three items |
| BehaviourPanel.LowEngagementIff | frontend-1/src/components/Suggestion.jsx:212 | shown iff some level is 0 |
| BehaviourPanel.ConsistentDisengagementIff | frontend-1/src/components/Suggestion.jsx:217 | shown iff all of the last min(3, n) levels are 0 |
| BehaviourPanel.ConsistentImpliesLow | frontend-1/src/components/Suggestion.jsx:212-217 | for a non-empty history consistent disengagement implies low engagement |
| BehaviourPanel.DoingGreatIff | frontend-1/src/components/Suggestion.jsx:222-223 | shown iff twice the count of 2s is at least the length: exactly half qualifies |
| BehaviourPanel.PanelMembers | frontend-1/src/components/Suggestion.jsx:130-227 | the list holds an item iff the history is non-empty and its condition holds |
| BehaviourPanel.AllZeroPanel | frontend-1/src/components/Suggestion.jsx:212-227 | a history of 0s shows the two disengagement items only |
| DataPanel.Panel | frontend-1/src/components/Suggestion.js:160-176 | at most the three items |
| DataPanel.HighlyEngagedIff | frontend-1/src/components/Suggestion.js:167 | shown iff twice the count of 2s exceeds the length: exactly half does not qualify |
| DataPanel.RecentDisengagementIff | frontend-1/src/components/Suggestion.js:170-171 | shown iff there are at least five records and the last three are 0 |
| DataPanel.DisengagementImpliesLow | frontend-1/src/components/Suggestion.js:164-171 | the disengagement item implies the low-engagement item |
| DataPanel.StricterThanBehaviourPanel | frontend-1/src/components/Suggestion.js:164-171 | each condition implies its looser counterpart on the search page; the low conditions coincide |
| DataPanel.ExactlyHalfSeparates | frontend-1/src/components/Suggestion.js:167 | [2, 0] is "doing great" on the search page but not "highly engaged" here |
| DataPanel.ShortHistorySeparates | frontend-1/src/components/Suggestion.js:170-171 | [0, 0, 0] is flagged on the search page only |
| Prediction.GradeSeverity | backend/prediction.py:39-46 | `grade_severity`; `GradeSeverityByDistance` states its dependence on the distance alone and its monotonicity |
| Prediction.GradeSeverityByDistance | backend/prediction.py:39-46 | the grade depends only on the distance from the mean, not its sign, and a larger distance never grades milder |
| Prediction.RangeErrors | backend/prediction.py:48-63 | at most three errors; each error is reported iff its value is outside its inclusive range |
| Prediction.ValidateRanges | backend/prediction.py:48-63 | the appends produce exactly `RangeErrors(r)` |
| Prediction.RangeErrorsSound | backend/prediction.py:52-63 | no error iff every value is in range; errors come in the order HRV, EEG, GSR, each at most once |
| Prediction.Texts | backend/prediction.py:107 | one message per error, in order |
| Prediction.FirstMax | backend/prediction.py:67 | a position of largest weight with no earlier one as large |
| Prediction.Without | backend/prediction.py:67 | drops exactly the entry at i, keeping the others in order |
| Prediction.TopTwo | backend/prediction.py:67-68 | two distinct positions iff at least two weights, else the unpacking raises |
| Prediction.TopTwoIsSortedPrefix | backend/prediction.py:67 | the positions are those of the stable descending sort's first two entries |
| Prediction.Severities | backend/prediction.py:72-74 | keys exactly HeartRate, SkinConductance, EEG, each graded against its column mean |
| Prediction.GenerateFeedback | backend/prediction.py:65-76 | feedback exists iff the level has templates and at least two weights; then two top features and all three severities |
| Prediction.Caller | backend/prediction.py:88-91 | the caller is exactly the name `verify_token` gives for the header's token when that name is truthy, and none otherwise |
| Prediction.BearerCaller | backend/prediction.py:88-91 | a "Bearer t" header identifies the caller as `verify_token(t)` when that name is truthy |
| Prediction.MissingColumn | backend/prediction.py:100-102 | the reported column is one of the expected ones and absent; none reported means all present |
| Prediction.ManualPredict | backend/prediction.py:86-132 | `manual_predict`; `ManualPredictCheckOrder` states the order of its checks and `ManualPredictStoresOnlyValid` what it stores |
| Prediction.ManualPredictCheckOrder | backend/prediction.py:88-107 | 401 iff the token is not verified; then a missing student id; then the first missing column; then the joined range errors |
| Prediction.ManualPredictStoresOnlyValid | backend/prediction.py:93-124 | a stored prediction is one document of the verified caller, with a truthy student id and an in-range reading |
| Prediction.ResolveTimestamp | backend/prediction.py:172-179 | the timestamp of a CSV row; `ResolveTimestampFallback` states when the parsed time is used and when now |
| Prediction.ResolveTimestampFallback | backend/prediction.py:172-179 | the timestamp is the parsed text exactly when the cell is non-blank text that parses; otherwise now |
| Prediction.RowDoc | backend/prediction.py:161-191 | one row of the CSV loop; `RowRecord` computes it and `RecordsKeepInRange` states what it inserts |
| Prediction.Records | backend/prediction.py:160-202 | the CSV row loop; `CollectRecords` computes it, and `RecordsKeepInRange`, `RecordsRaisedPersists` and `RaiseKeepsEarlierInserts` state what it inserts and where it stops |
| Prediction.RecordsKeepInRange | backend/prediction.py:160-202 | every inserted document is in range and the caller's; at most one per in-range row, exactly one each when no row raises; with none in range nothing is inserted |
| Prediction.CollectRecords | backend/prediction.py:160-202 | the loop produces `Records(rows)`: the documents inserted, in row order, and whether a row raised |
| Prediction.RowRecord | backend/prediction.py:161-191 | one pass of the row loop computes `RowDoc`: skip an out-of-range row, raise when the feedback cannot be built, else the document stored for it |
| Prediction.RecordsRaisedPersists | backend/prediction.py:161-191 | once a row raises, the loop ends: later rows insert nothing |
| Prediction.RaiseKeepsEarlierInserts | backend/prediction.py:161-191 | a row whose feedback raises gives a 500 with the earlier rows' documents still inserted |
| Prediction.CsvPredictSpec | backend/prediction.py:135-207 | `csv_predict`; `CsvPredict` computes it and `CsvPredictStoresOnlyInRange` states its replies and what it stores |
| Prediction.CsvPredict | backend/prediction.py:136-207 | the route produces `CsvPredictSpec`: the guards, a 500 for a file without data rows, then the row loop |
| Prediction.CsvPredictStoresOnlyInRange | backend/prediction.py:146-207 | a stored result is exactly the in-range rows, all the caller's; a 500 keeps only in-range documents of the caller; a file without data rows gets the 500 of the model, and one with no row in range the 400 |
| Prediction.ObjectId | backend/prediction.py:235 | an id is accepted iff it is exactly 24 hexadecimal digits, and then names a 24-character id |
| Prediction.DeleteHistoryItem | backend/prediction.py:226-242 | `delete_history_item`; `DeleteOnlyOwn` states which document goes and when nothing changes |
| Prediction.DeleteOnlyOwn | backend/prediction.py:226-242 | deleted iff the caller is verified, the id is valid and names the caller's own document; then only that one goes; otherwise nothing changes |
| SessionCsv.Fit | real-time-datasets/process.py:40-45 | exactly n cells: the row's values, padded with None or truncated |
| SessionCsv.TruncateTowardZero | real-time-datasets/process.py:56-57 | `int()` of a float truncates toward zero |
| SessionCsv.IndexOf | real-time-datasets/process.py:56-57 | a found position holds the name; none found means the name is absent |
| SessionCsv.SessionRows | real-time-datasets/process.py:54-69 | one output row per data line |
| SessionCsv.MaxWidth | real-time-datasets/process.py:50 | the width the data frame takes: no stored line is wider, and some line is exactly as wide |
| SessionCsv.Widen | real-time-datasets/process.py:50 | a line padded to n cells keeps its own cells and holds None in every added one |
| SessionCsv.WidenAll | real-time-datasets/process.py:50 | every stored line, padded to the same width |
| SessionCsv.Flush | real-time-datasets/process.py:49-72 | the flush of a session; `FlushSession` computes it, and `FlushRaisesIff`, `FlushPadsNarrowLines`, `DuplicatedTimeSkipsSession` and `DuplicatedNumericRaises` state when it raises, skips or emits |
| SessionCsv.Step | real-time-datasets/process.py:18-72 | one pass of the loop body; `StepRow` computes it, and the step lemmas below state what each kind of row does |
| SessionCsv.FlushSession | real-time-datasets/process.py:49-72 | the flush body computes `Flush`: it raises when the widest line's width differs from the headers', skips the session when a timestamp raises, and otherwise appends the session and clears the started flag |
| SessionCsv.StepRow | real-time-datasets/process.py:18-72 | one pass of the loop body computes `Step` |
| SessionCsv.ParseCustomCsvSpec | real-time-datasets/process.py:6-78 | `parse_custom_csv` as written; `ParseCustomCsv` computes it, and `RunKeepsSessions` and the two as-written findings state what it returns |
| SessionCsv.ParseCustomCsv | real-time-datasets/process.py:6-78 | the loop produces `ParseCustomCsvSpec`: `None` exactly when some flush raises, otherwise the emitted sessions concatenated in order |
| SessionCsv.FlushRaisesIff | real-time-datasets/process.py:50 | with each numeric column named once, the flush raises if and only if the widest stored line is not as wide as the headers |
| SessionCsv.FlushPadsNarrowLines | real-time-datasets/process.py:34-50 | a session whose headers grew from one to two columns between its two lines is emitted with both rows, the first one's missing "Alpha Peak frequency" read as NaN |
| SessionCsv.DuplicatedTimeSkipsSession | real-time-datasets/process.py:53-61 | a duplicated "Time, min" or "Time, sec" column makes the timestamp raise, so a session with lines is skipped and nothing else changes |
| SessionCsv.DuplicatedNumericRaises | real-time-datasets/process.py:63-66 | a duplicated "Heart Rate" or "Alpha Peak frequency" column makes a session whose timestamps are fine raise out of the whole parse |
| SessionCsv.BlankRowUnchanged | real-time-datasets/process.py:19-20 | an empty or all-blank row changes nothing |
| SessionCsv.HeaderRowSetsHeaders | real-time-datasets/process.py:34-36 | a "Markdown" row makes the rest of the row the headers and starts the data |
| SessionCsv.DataRowFitsHeaders | real-time-datasets/process.py:39-46 | a line is stored only while the data has started and only for an "IAPF"/"Baseline" row, fitted to the headers' width |
| SessionCsv.SessionStartResets | real-time-datasets/process.py:23-31 | a session-start row with a second cell sets the parsed start (None if invalid) and clears the lines and the started flag; a bare one changes nothing |
| SessionCsv.EmitOnlyAtBoundary | real-time-datasets/process.py:49 | sessions are emitted only at a session-start row or the last row, never at a session-start row with a second cell |
| SessionCsv.RunKeepsSessions | real-time-datasets/process.py:18-72 | emitted sessions are never lost |
| SessionCsv.OutRowTimestamp | real-time-datasets/process.py:54-69 | a row's timestamp is start + whole minutes + whole seconds (0 for a missing column), with no skin conductance |
| SessionCsv.SessionStartDiscardsPending | real-time-datasets/process.py:23-49 | as written, a well-formed session-start row drops the pending session without emitting it |
| SessionCsv.LastBlankRowNeverFlushes | real-time-datasets/process.py:19-20 | as written, a blank last row leaves a ready session unemitted |
| SessionCsv.CompleteSessionLostAsWritten | real-time-datasets/process.py:6-78 | as written, any file of one complete session (start time, "Markdown" header, "IAPF" line) followed by a new session start or by a blank row yields no rows |
| SessionCsv.StepIntendedEmitsPending | real-time-datasets/process.py:49-71 | intended: a session-start row first emits the pending session, then clears the lines when it carries a time |
| SessionCsv.TrailingBlankIrrelevant | real-time-datasets/process.py:19-20 | intended: a trailing blank row changes nothing |
| SessionCsv.InterruptedKeptAsIntended | real-time-datasets/process.py:49-71 | intended: one complete session followed by a new session start yields that session's one row |
| SessionCsv.TrailingBlankKeptAsIntended | real-time-datasets/process.py:49-71 | intended: one complete session followed by a blank row yields that session's one row |
| ResetAuth.Register | temp_backup/auth.py:23-39 | `register` on the table; `RegisterOutcome`, `RegisterNewEntry` and `RegisterThenLogin` state its replies and the new entry |
| ResetAuth.Login | temp_backup/auth.py:42-59 | `login`; `LoginOutcome` states when it succeeds and that every failure is the same 401 |
| ResetAuth.RequestPasswordReset | temp_backup/auth.py:62-77 | `request_password_reset`; `RequestResetOutcome` states its reply and the new token |
| ResetAuth.ResetPassword | temp_backup/auth.py:80-94 | `reset_password`; `ResetOutcome`, `TokenSingleUse`, `ResetFlow` and `ResetWithoutTokenSucceeds` state when it succeeds and what it changes |
| ResetAuth.UserTable.HandleRegister | temp_backup/auth.py:25-39 | the table after registering is that of `Register` |
| ResetAuth.UserTable.HandleLogin | temp_backup/auth.py:44-59 | login leaves the table alone and replies as `Login` |
| ResetAuth.UserTable.HandleRequestPasswordReset | temp_backup/auth.py:64-77 | the table after the request is that of `RequestPasswordReset` |
| ResetAuth.UserTable.HandleResetPassword | temp_backup/auth.py:82-94 | the table after the reset is that of `ResetPassword` |
| ResetAuth.RegisterOutcome | temp_backup/auth.py:31-39 | a taken name gets 400 and changes nothing; 201 iff the name is new and a password is given |
| ResetAuth.RegisterNewEntry | temp_backup/auth.py:29-38 | a new entry has the hashed password, no reset token, and role "student" when none is sent |
| ResetAuth.LoginOutcome | temp_backup/auth.py:49-59 | logged in iff the user exists and the password checks, with the stored role; every failure is the same 401 |
| ResetAuth.RegisterThenLogin | temp_backup/auth.py:34-51 | after registering, login succeeds with that password and no other |
| ResetAuth.RequestResetOutcome | temp_backup/auth.py:68-77 | 404 and no change for an unknown user; otherwise the issued token replaces any earlier one and the hash is kept |
| ResetAuth.ResetOutcome | temp_backup/auth.py:88-94 | success iff the user exists, the tokens are equal and a new password is given; then a new hash and a cleared token |
| ResetAuth.TokenSingleUse | temp_backup/auth.py:89-93 | a used token is refused the second time |
| ResetAuth.ResetFlow | temp_backup/auth.py:68-94 | the issued token resets the password; the new password logs in and a different old one does not |
| ResetAuth.ResetWithoutTokenSucceeds | temp_backup/auth.py:38-89 | a reset sending no token succeeds for a new user, since both tokens are None |
| ResetAuth.OthersUnchanged | temp_backup/auth.py:34-93 | each route leaves every other user's entry as it was |
| ResetAuth.NoUserRemoved | temp_backup/auth.py:34-93 | no route removes a user |
| UserStore.FindUser | backend-1/models/user.py:18-20 | a result is a stored document with that name; none iff no document has it |
| UserStore.CreateUser | backend-1/models/user.py:10-16 | `create_user`; `CreateUserOutcome`, `StoredPasswordIsHash` and `CreateUserKeepsUnique` state its result and the documents after it |
| UserStore.UserCollection.HandleCreateUser | backend-1/models/user.py:10-16 | the collection after the call is that of `CreateUser` |
| UserStore.UserCollection.GetUser | backend-1/models/user.py:18-20 | as `FindUser` on the current documents |
| UserStore.CreateUserOutcome | backend-1/models/user.py:10-16 | fails with "Username already exists" and inserts nothing iff the name is stored; otherwise appends exactly the new document and says "User created" |
| UserStore.StoredPasswordIsHash | backend-1/models/user.py:13-14 | the stored password is the hash of the given one and checks against it |
| UserStore.CreateUserKeepsUnique | backend-1/models/user.py:11-15 | usernames stay unique |
| UserStore.FindUserUnique | backend-1/models/user.py:18-20 | with unique names the lookup returns that name's one document |
| UserStore.CreateThenGet | backend-1/models/user.py:10-20 | after a successful create the lookup finds the new document |
| MongoAuth.Register | backend-1/auth.py:7-21 | `register`; `RegisterMissingFields`, `RegisterPassesCreateResult` and `RegisterKeepsUnique` state its replies and the documents after it |
| MongoAuth.Login | backend-1/auth.py:23-37 | `login`; `LoginOutcome` and `RegisterThenLogin` state when it gives a token |
| MongoAuth.GetProfile | backend-1/auth.py:40-67 | `profile`; `ProfileNeedsBearer`, `ProfileOutcome` and `EveryBearerRemoved` state its replies |
| MongoAuth.RegisterMissingFields | backend-1/auth.py:14-15 | "Missing fields" iff a field is absent, null or empty; then nothing is stored |
| MongoAuth.RegisterPassesCreateResult | backend-1/auth.py:17-21 | a taken name gets the store's message as 400 and no change; otherwise 201 with one document added |
| MongoAuth.RegisterKeepsUnique | backend-1/auth.py:8-21 | registration keeps usernames unique |
| MongoAuth.LoginOutcome | backend-1/auth.py:29-37 | a token iff the user exists and the password checks; unknown user and wrong password get the same 401 |
| MongoAuth.RegisterThenLogin | backend-1/auth.py:17-37 | after registering, login succeeds with that password, and with no other under the whole-password check (see Left out for bcrypt's 72-byte limit) |
| MongoAuth.ProfileNeedsBearer | backend-1/auth.py:43-45 | 401 before any token check iff the header does not start with "Bearer " |
| MongoAuth.ProfileOutcome | backend-1/auth.py:47-67 | a profile iff the token verifies to a stored user, and then exactly that user's name and email; 404 iff it verifies to no stored user |
| MongoAuth.EveryBearerRemoved | backend-1/auth.py:47 | every "Bearer " in the header is removed, not only the first |
| StreamPayload.BuildPayload | backend/simulate_stream.py:45-74 | the payload has exactly the 13 expected columns; present ones normalised, absent ones defaulted |
| StreamPayload.FillColumns | backend/simulate_stream.py:49-74 | over any column list that all have defaults, the payload has exactly those columns, each holding its normalised or default value for the row |
| StreamPayload.FillColumn | backend/simulate_stream.py:50-74 | one column's value: the row's value normalised when present, the column's default when absent |
| StreamPayload.EveryColumnHasDefault | backend/simulate_stream.py:67-74 | every expected column is numeric or one of the two categoricals, so a missing one always gets a default |
| StreamPayload.Normalise | backend/simulate_stream.py:50-66 | the value of a column the dataset has; `NumericReplacement`, `NumericNeverMissing` and `CategoricalAlwaysValid` state its replacements |
| StreamPayload.NumericReplacement | backend/simulate_stream.py:53-56 | a numeric value is replaced by its default iff it is NaN or 0 |
| StreamPayload.NumericNeverMissing | backend/simulate_stream.py:27-56 | no numeric column of the payload is NaN or 0 |
| StreamPayload.CategoricalAlwaysValid | backend/simulate_stream.py:59-64 | both categorical columns always hold a valid state: the row's own when valid, else "engaged" or "focused" |
| HistoryView.RemoveId | frontend/src/components/History.jsx:31 | no item with that id remains, every other item is kept, and the list never grows |
| HistoryView.HistoryPage.LoadHistory | frontend/src/components/History.jsx:15-21 | success replaces the list and keeps the error; failure sets the error and keeps the list |
| HistoryView.HistoryPage.HandleDelete | frontend/src/components/History.jsx:27-37 | nothing changes without confirmation; a success filters the id out; a failure keeps the list and sets the error |
| HistoryView.RemoveIdAppend | frontend/src/components/History.jsx:31 | filtering distributes over concatenation, so the remaining items keep their order |
| HistoryView.RemoveIdMembers | frontend/src/components/History.jsx:31 | an item remains iff it was there and has another id |
| HistoryView.RemoveIdAbsent | frontend/src/components/History.jsx:31 | a list without the id is left as it was |
| HistoryView.RemoveIdIdempotent | frontend/src/components/History.jsx:31 | deleting the same id twice removes nothing more |
| Dashboard.DashboardPage.HandleManualSubmit | frontend/src/components/Dashboard.jsx:32-49 | the result and feedback are reset first; success shows the level and the feedback or ""; failure alerts the server's error or "Prediction failed" |
| Dashboard.DashboardPage.SelectFile | frontend/src/components/Dashboard.jsx:187-192 | the file input's `onChange`: a file is selected iff one was chosen; nothing else changes |
| Dashboard.DashboardPage.HandleCsvSubmit | frontend/src/components/Dashboard.jsx:51-66 | results and error are cleared first; without a file the error asks for one and no request is made; then the rows or the error |
| Dashboard.StudentIdCell | frontend/src/components/Dashboard.jsx:218 | `student_id` if truthy, else `studentId` if truthy, else "N/A"; never falsy |
| Dashboard.FeedbackCell | frontend/src/components/Dashboard.jsx:223 | the row's feedback if truthy, else "" |
| Dashboard.LevelCell | frontend/src/components/Dashboard.jsx:222 | not "Unknown" iff the predicted level is the number 0, 1 or 2 |
| Dashboard.StudentIdFallbacks | frontend/src/components/Dashboard.jsx:218 | an empty or 0 `student_id` falls back to `studentId`, and to "N/A" when neither is truthy |
| Values.Or | frontend/src/components/History.jsx:19 | `a || b` is a when a is truthy, else b |
| Values.Get | backend-1/auth.py:10 | `data.get` gives a string exactly for a string field; absent and null both give None |
| Values.GetOr | temp_backup/auth.py:29 | only an absent key takes the default; null stays None |
| Values.AsNumber | backend/prediction.py:52-60 | only numbers and booleans compare; anything else raises |
| Text.StripBlank | real-time-datasets/process.py:19 | `s.strip() == ''` iff every character is whitespace |
| Text.RemoveAll | backend-1/auth.py:47 | `replace(p, '')` never lengthens the string |
| Text.RemoveAllPrefix | backend-1/auth.py:47 | removing "Bearer " from "Bearer " + t leaves t when t holds no "Bearer " |

## Left out

- Floating point: levels are integers and every mean and variance is an exact `real`. The `toFixed(2)` formatting of averages is left out.
- `new Date(timestamp).getHours()`: the hour of each record is an input. An unparsable timestamp is `None`, for which no comparison holds.
- `toLowerCase` is modelled on ASCII letters only.
- The trained model, the scaler, `predict_df`, the SHAP weights and `random.choice` of a feedback template are parameters of `Prediction.Services`. The wording of the templates is not modelled.
- The history listing routes of backend/prediction.py, and the Mongo queries behind them, are not modelled. The delete route works over a map from id to document.
- CSV cells that are neither blank nor numbers, and duplicate header names, are not modelled in `Prediction`. Nor is `pd.read_csv` beyond column names and rows.
- Request bodies that are not JSON objects, and JSON numbers or objects in text fields, are not modelled: a field is absent, null or a string.
- `Prediction.ObjectId`: the contract does not state that upper- and lower-case digits name the same id; that is in its body only.
- bcrypt, werkzeug hashing, JWT signing and verification, and `secrets.token_urlsafe` are symbolic or parameters. The symbolic check compares whole passwords, so it assumes a hash matches only the password it was made from. That is an injectivity property the real hashes are only believed to have; no other cryptographic property is modelled.
- UserStore.CheckPassword: bcrypt hashes and checks only the first 72 bytes of the UTF-8 password (backend-1/models/user.py:5, 8). Depending on the bcrypt version, a longer password either matches every password with the same first 72 bytes or makes hashing raise (a 500 at registration). The model compares whole passwords of any length.
- MongoAuth.RegisterThenLogin: "no other password logs in" holds only under the whole-password check above. For a registered password over 72 bytes, bcrypt also accepts any password that shares its first 72 bytes.
- The file I/O and `print` calls of real-time-datasets/process.py are left out, including its script tail. So are the POST, print and sleep of backend/simulate_stream.py.
- In `SessionCsv`, float parsing, `pd.to_numeric` and the two `strptime` calls are parameters. The data frame is modelled by its shape: narrower lines are padded with None, and it raises when the widest line is not as wide as the headers; its column dtypes are not modelled.
- The stream payload is a map, so the key order of the posted JSON is not modelled.
- The React handlers run asynchronously. Each handler is modelled as one state transition given the outcome of its request, and rendering is not modelled.
- frontend-1's Dashboard and History components: the first repeats the label switch modelled here, the second only renders raw values.
- frontend/app.js, the tailwind configurations, the layout components and the ML training, evaluation and plotting scripts are not part of this model.

## Findings

| source | as written | input that shows it | evidently intended | confidence | as-written member | corrected member |
|---|---|---|---|---|---|---|
| real-time-datasets/process.py:30 | a "Session start time" row with a time clears `data_lines` before the flush check at line 49, so the pending session is discarded and never emitted | a start row, a "Markdown" header row, an "IAPF" data row, then a second start row: the result has no rows | emit the pending session first, then start the new one: one row | not executed | SessionCsv.CompleteSessionLostAsWritten | SessionCsv.InterruptedKeptAsIntended |
| real-time-datasets/process.py:19-20 | a blank last row `continue`s before the end-of-file flush, so the last session is lost | the same session followed by a blank row: the result has no rows | flush after the loop whatever the last row holds: one row | not executed | SessionCsv.LastBlankRowNeverFlushes | SessionCsv.TrailingBlankKeptAsIntended |
