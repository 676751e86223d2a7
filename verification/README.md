# Speecher, modelled and proved in Dafny

Speecher is a dictation application: a shortcut key starts a session, a small IPC server
lets other processes drive it, an updater keeps it current, and a log of what was dictated
feeds a page of insights. This project models the parts of it whose correctness spans many
steps and proves what those parts are relied on for.

Each component is a pure specification (functions, and a step function where it is a state
machine) with its laws proved as lemmas, and beside it the classes and methods that update
fields, rows and tables as the source does. Each such method is proved to take exactly the
step of the specification. Timers, replies, workers and questions to the system are explicit
pending events that may come in any order.

| file | what it models |
|---|---|
| `EditScripts.dfy`, `Subsequences.dfy`, `EditDistance.dfy`, `LearnedCorrection.dfy` | telling a correction from an edit: edit scripts and the two-row table, subsequences, windows, the symmetric verdict |
| `BookComparison.dfy`, `Streaks.dfy`, `AppShares.dfy` | book comparisons and the search for the next one, streaks, shares by application |
| `IpcFraming.dfy`, `IpcMessages.dfy`, `IpcConnections.dfy`, `IpcClients.dfy` | the IPC server: framing, the request codec, the tables of connections, and what one client among others is given |
| `UpdateSchedule.dfy`, `UpdateOffers.dfy`, `ManifestUpdater.dfy` | the updater: when it checks, what it offers, downloads and restarts, and what comes of each check and click |
| `DictationControl.dfy` | the shortcut gesture and the controller in one loop, and what comes of each press and toggle |
| `SavedSecrets.dfy`, `SignInChecks.dfy`, `SpeedTestQueue.dfy` | asynchronous bookkeeping |
| `InsightsLog.dfy`, `BaseVersions.dfy`, `WhatsNew.dfy` | the durable log, the order of versions, and the history of updates seen |
| `Runs.dfy`, `TextBasics.dfy` | runs of a machine and what its every step keeps; bytes, white space and options |

`dafny verify dfyconfig.toml` checks everything.

## Reading the model

- What the model cannot see is a parameter: `TextRules`, `Rules`, `Syntax`, `Codec` and
  `Format` carry Qt's case folding, character classes, word splitting, secret patterns and
  JSON as arbitrary functions. Laws used of them are named predicates: `IsCodec` and
  `IsLineFormat` say that a printed object has no newline, reads back, and has no proper
  prefix that is an object (section 4 of RFC 8259); `IsLogarithm` says that `ln` rises and
  turns products into sums.
- The updater's `World` and the dictation loop's events carry what the platform, the settings
  and the session answer, so that every answer is possible at every step. A session is
  assumed to leave Idle and Error for another state only when started, and to be neither
  starting, listening nor paused once told to stop.
- The storage of secrets is what src/core/SecretStore.h promises: one request of a secret is
  written at a time, a newer one waits and answers for it, a clear hides its key at once, and
  a refused one leaves it hidden.
- Workers answer once. A socket's own reads do not nest.
- An event that cannot come, such as an answer nobody waits for, changes nothing in a model,
  so the results hold over all sequences of events.
- Model ids are taken to be non-empty, as the Speed Test is asked for models of the catalogue. The queue
  takes the empty id for "nothing runs"; `SpeedTestQueue.StaysAwakeIff` says for which sets of
  ids that is harmless.

## Where a plain claim is false

- Framing depends on how a stream is cut once the stream exceeds 64 KiB, because the limit is
  on what one read leaves in the buffer before any frame is taken:
  `IpcFraming.ChunkingIsIgnoredIffStreamFits` gives the condition both ways.
- A request whose override is an empty string, or whose language is unknown, does not decode
  to itself: `IpcMessages.RequestRoundTripsIff` and, for one, `IpcMessages.EmptyProfileIsLost`.
- What is known of a secret can be wrong at rest after a refusal: after a refused clear of the
  field's own, and after a refused save that answers for an earlier request storage had
  taken. `SavedSecrets.AgreesAtRestIff` says when it is right, `SavedSecrets.AgreesUnlessMisled`
  that nothing else does harm, and `SavedSecrets.RefusedClearMisleads`,
  `SavedSecrets.RefusedSaveMisleads` and `SavedSecrets.RefusedSaveAfterClearMisleads` are runs
  where it is wrong.
- The release of a Nightly Build's own base is never listed as news by the update straight to
  it; the newest note stands in. `WhatsNew.EveryCrossedReleaseIsShownOnce` counts both.
- Shares by application lose words when the tail adds up below zero, as a log with a negative
  count can make it: `AppShares.ShownConservesWordsIff` and `AppShares.SomeRecordsLoseWords`.
- After the release of a push-to-talk hold that found no session, a session can be active:
  one another client started inside the misfire window, or one begun after a cancel disowned
  the hold. `DictationControl.ActiveAfterReleaseIff` is the exact condition, and
  `DictationControl.NothingOutlivesTheHold` is what holds without it.

## Model

| member | source | states |
|---|---|---|
| `EditDistance.ComputeEditDistance` | src/core/LearnedCorrection.cpp:67-90 | the two rows swapped in place yield the least cost of any script of insertions, deletions and substitutions between the case-folded strings |
| `EditDistance.FillRow` | src/core/LearnedCorrection.cpp:74-86 | one turn of the outer loop turns the row of one prefix into the row of the next, in place |
| `EditDistance.DistanceIsLeastCost` | src/core/LearnedCorrection.cpp:67-90 | the table's last cell is reached by some script and beaten by none |
| `EditDistance.NoScriptBeatsCell` | src/core/LearnedCorrection.cpp:74-86 | every script between two prefixes costs at least what their cell holds |
| `EditDistance.DistanceIsSymmetric` | src/core/LearnedCorrection.cpp:67-90 | the distance is the same both ways |
| `EditDistance.TriangleInequality` | src/core/LearnedCorrection.cpp:67-90 | going through a third string is never shorter |
| `EditDistance.ZeroDistanceIffEqual` | src/core/LearnedCorrection.cpp:67-90 | only equal strings are at distance 0 |
| `EditDistance.OneChangeCostsOne` | src/core/LearnedCorrection.cpp:67-90 | one character changed, wherever it stands, is a distance of one |
| `EditDistance.OneInsertionCostsOne` | src/core/LearnedCorrection.cpp:67-90 | one put in or left out is, too |
| `EditDistance.DistanceIsLengthDifferenceIffSubsequence` | src/core/LearnedCorrection.cpp:58-90 | the distance is at least the difference in length, and equals it exactly when the shorter is a subsequence of the longer |
| `EditDistance.SubsequencesDifferByLength` | src/core/LearnedCorrection.cpp:58-90 | whenever the scan finds a subsequence, the case-folded distance is the difference in length, whatever the fold |
| `Subsequences.IsSubsequence` | src/core/LearnedCorrection.cpp:58-65 | the greedy scan says yes exactly when some increasing embedding exists |
| `Subsequences.MatchedAllIffSubsequence` | src/core/LearnedCorrection.cpp:58-65 | matching each character as early as possible matches all of them iff any embedding does |
| `Subsequences.GreedyIsBest` | src/core/LearnedCorrection.cpp:58-65 | no embedding covers more of the shorter string than the greedy match |
| `EditScripts.Compose` | src/core/LearnedCorrection.cpp:67-90 | two scripts compose into one that costs no more than both |
| `EditScripts.Inverse` | src/core/LearnedCorrection.cpp:67-90 | a script runs backwards at the same cost |
| `LearnedCorrection.AnalysisIsSymmetric` | src/core/LearnedCorrection.cpp:94-182 | the analysis of (x, y) is that of (y, x) with original and corrected exchanged and the confidence the same, refusals included |
| `LearnedCorrection.LearnedIff` | src/core/LearnedCorrection.cpp:94-182 | exactly what is learned, told on the two windows: at 0.98 a change of case, spacing or hyphens alone; at 0.75 windows of which neither merely adds to the other, of at most three words a side, no long word shared and one changed at most, alike in length and few edits apart; nothing else |
| `LearnedCorrection.AddedTextIsNotLearned` | src/core/LearnedCorrection.cpp:147-152 | windows of which one's letters are a subsequence of the other's teach nothing |
| `LearnedCorrection.ComparedCharacters` | src/core/LearnedCorrection.cpp:11-31 | compared are the folded letters and digits, in order and none left out, or everything but white space and hyphens |
| `TextBasics.TrimmedCuts` | src/core/LearnedCorrection.cpp:127-128 | trimming takes white space off both ends, all of it and nothing else |
| `LearnedCorrection.WindowIsSymmetric` | src/core/LearnedCorrection.cpp:102-125 | the two texts exchanged exchange the two windows and move nothing else |
| `LearnedCorrection.ConfidenceIsSymmetric` | src/core/LearnedCorrection.cpp:135-181 | the verdict on a pair of windows does not depend on their order |
| `LearnedCorrection.WindowRebuildsBothTexts` | src/core/LearnedCorrection.cpp:102-125 | inserted = P + O + S and edited = P + C + S with the same P and S |
| `LearnedCorrection.WindowHeadIsLongest` | src/core/LearnedCorrection.cpp:102-117 | P does not end in a letter or digit, and every longer shared start does |
| `LearnedCorrection.WindowTailStartsAtBoundary` | src/core/LearnedCorrection.cpp:118-125 | S is empty or starts outside a word |
| `LearnedCorrection.WindowTailIsLongest` | src/core/LearnedCorrection.cpp:107-125 | every longer shared end would start inside a word |
| `LearnedCorrection.AnalyzeCorrection` | src/core/LearnedCorrection.cpp:94-182 | the loops compute the analysis, every early refusal included |
| `LearnedCorrection.FindWindow` | src/core/LearnedCorrection.cpp:102-125 | the prefix, suffix, boundary and word-tail loops find the window |
| `LearnedCorrection.Judge` | src/core/LearnedCorrection.cpp:135-181 | 0.98 for a change of spacing or case alone, 0.75 for close words and letters, nothing otherwise |
| `LearnedCorrection.WordsClose` | src/core/LearnedCorrection.cpp:154-172 | at most three words a side, no long word shared, and one word changed at most when the counts agree |
| `BookComparison.NextChange` | src/core/InsightsSummary.cpp:126-143 | the galloping and binary search returns the smallest larger count that compares differently, or 0 when none up to INT64_MAX does, and no step of it overflows or runs forever |
| `BookComparison.ComparisonCoversOneRun` | src/core/InsightsSummary.cpp:98-124 | counts that compare the same have nothing between them that compares differently |
| `BookComparison.WinsBetween` | src/core/InsightsSummary.cpp:103-123 | a share of a book that wins at two counts, ties going to the first, wins at every count between |
| `BookComparison.LeadIsMonotonic` | src/core/InsightsSummary.cpp:103-123 | the lead of one distance-plus-cost over another is greatest at an end of any interval |
| `BookComparison.CompareToBook` | src/core/InsightsSummary.cpp:98-124 | the answer is the one the three regimes define, with the first of tied scores |
| `BookComparison.ClosestShare` | src/core/InsightsSummary.cpp:106-123 | the nested loops find the first pair of book and share with the least score |
| `BookComparison.AnswerIsNearest` | src/core/InsightsSummary.cpp:106-120 | within the tables the answer is the share of a book whose |ln(words / (book words x share))| plus cost none falls below, the first of those that tie |
| `BookComparison.ExactSharesAreTold` | src/core/InsightsSummary.cpp:106-120 | a count that is exactly a share of a book that costs nothing is answered as one, so 61114 words are twice Hamlet |
| `BookComparison.AnswersOutsideTables` | src/core/InsightsSummary.cpp:98-106 | below the tables there is no answer, above them it is the nearest multiple of the longest book |
| `BookComparison.RoundsToNearest` | src/core/InsightsSummary.cpp:62-65 | rounding goes to the nearest whole number, halves up |
| `BookComparison.ComparisonIsUnique` | src/core/InsightsSummary.cpp:98-124 | a count has one comparison only |
| `BookComparison.MultiplesAreNotShares` | src/core/InsightsSummary.cpp:98-124 | the multiples shown past five times the longest book are never mistaken for one of its shares |
| `Streaks.StreakSummary.SummarizeStreaks` | src/core/InsightsSummary.cpp:153-176 | the scan of the sorted days sets the current streak, the best streak with the first day to reach it, and the broken streak as defined over the set of days |
| `Streaks.RunLengthIsMaximal` | src/core/InsightsSummary.cpp:153-176 | a run covers its days without a gap and cannot start a day earlier |
| `Streaks.CurrentStreakIsStretch` | src/core/InsightsSummary.cpp:153-176 | the current streak is the stretch of active days up to today, or to yesterday while today is idle, that no earlier day lengthens |
| `Streaks.BestStreakIsLongestStretch` | src/core/InsightsSummary.cpp:153-176 | the best streak is a stretch of active days, no stretch by today is longer, and none as long ended earlier |
| `Streaks.BrokenStreakIsLastStretch` | src/core/InsightsSummary.cpp:153-176 | a broken streak is shown when today and yesterday are idle and a day before was not: the stretch up to the last active day |
| `Streaks.CurrentNeverExceedsBest` | src/core/InsightsSummary.cpp:153-176 | the current streak is at most the best one, and equals it when the best ends today |
| `Streaks.BrokenStreakEndedEarlier` | src/core/InsightsSummary.cpp:153-176 | a broken streak ended before the day that broke it and lasted at least a day |
| `Streaks.BestAmongIsBest` | src/core/InsightsSummary.cpp:153-176 | the best run among the days seen is the best run at all once the next day is after today |
| `AppShares.SummarizeApps` | src/core/InsightsSummary.cpp:224-249 | the shares are the groups ranked with the tail added up under one name and counted, and they hold all words exactly when the tail does not owe any |
| `AppShares.ShownConservesWordsIff` | src/core/InsightsSummary.cpp:224-249 | for any records, every word is shown exactly when the apps past the fifth add up to 0 or more, which counts that are not negative always do |
| `AppShares.NegativeTailLosesWords` | src/core/InsightsSummary.cpp:242-249 | six apps of one record each, the last below zero, lose words |
| `AppShares.SomeRecordsLoseWords` | src/core/InsightsSummary.cpp:242-249 | some records do |
| `AppShares.FoldTail` | src/core/InsightsSummary.cpp:241-249 | the loop adds up the tail, counts its apps and shows it only when it holds words |
| `AppShares.GroupByApp` | src/core/InsightsSummary.cpp:228-238 | each app appears once, where it first appeared, with exactly its words and the profile of its latest dictation |
| `AppShares.GroupingKeepsWords` | src/core/InsightsSummary.cpp:228-238 | grouping loses no word |
| `AppShares.AppsKeepFirstOrder` | src/core/InsightsSummary.cpp:228-238 | what earlier records grouped, later ones never reorder |
| `AppShares.RankedKeepsContents` | src/core/InsightsSummary.cpp:239-241 | sorting permutes the shares |
| `AppShares.RankedFalls` | src/core/InsightsSummary.cpp:239-241 | sorting leaves no share before a larger one |
| `AppShares.RankedIsTheStableSort` | src/core/InsightsSummary.cpp:239-241 | the ranking is the stable sort and the only one: a list is it exactly when it falls and keeps the shares of each count in their order |
| `AppShares.TopSharesConserveWords` | src/core/InsightsSummary.cpp:241-249 | the shown shares hold all words exactly when the tail's sum is not negative, since a tail of 0 or less is not shown |
| `AppShares.TopSharesAre` | src/core/InsightsSummary.cpp:241-249 | at most five apps are named, as ranked, and the others shown by their number and words when those are more than nothing |
| `AppShares.ProfileIsLatest` | src/core/InsightsSummary.cpp:229-238 | an app's profile is that of its last record |
| `SpeedTestQueue.StepKeepsValid` | src/app/LocalSetup.cpp:223-242 | in every step: no duplicates wait, the running model does not, and an idle queue with waiters has a timer whose model is not among them |
| `SpeedTestQueue.QueueNeverLoses` | src/app/LocalSetup.cpp:404-426 | after any run every model asked for and not finished or removed since is running, queued or in a timer, the queue is without duplicates and can wake |
| `SpeedTestQueue.WaitingQueueWakes` | src/app/LocalSetup.cpp:223-232 | when models wait and nothing runs, some pending timer starts a test when it fires |
| `SpeedTestQueue.NobodyIsOvertaken` | src/app/LocalSetup.cpp:223-232 | who waits before another leaves the queue before it, unless removed |
| `SpeedTestQueue.RequestsAreMet` | src/app/LocalSetup.cpp:404-426 | a request starts at once, waits at the end of the line, or is one already there; a removed model leaves the line and nothing else does |
| `SpeedTestQueue.FinishHandsOn` | src/app/LocalSetup.cpp:225-230 | an answer makes room and hands the first that waits to a timer |
| `SpeedTestQueue.QueueDrains` | src/app/LocalSetup.cpp:223-242 | left to itself the queue takes a bounded number of steps and comes to rest empty with nothing owed |
| `SpeedTestQueue.StaysAwakeIff` | src/app/LocalSetup.cpp:404-426 | every run over a set of ids keeps the queue awake exactly when the empty id is not among them or at most one other is |
| `SpeedTestQueue.EmptyIdStalls` | src/app/LocalSetup.cpp:404-426 | with the empty id and any two others there is a run that stalls: one waits and nothing will wake it |
| `SpeedTestQueue.LocalSetup.RunSpeedTest` | src/app/LocalSetup.cpp:404-426 | the object's step for a request |
| `SpeedTestQueue.LocalSetup.SpeedTestFinished` | src/app/LocalSetup.cpp:223-232 | the object's step when a test answers: the next in line leaves the queue for a timer |
| `SpeedTestQueue.LocalSetup.TimerFired` | src/app/LocalSetup.cpp:227-229 | the object's step when that timer fires |
| `SpeedTestQueue.LocalSetup.RemoveModel` | src/app/LocalSetup.cpp:363-368 | a removed model leaves the queue, and only the queue |
| `SavedSecrets.AgreesAtRestIff` | src/app/Accounts.cpp:190-322 | in every run of overlapping reads, saves and clears, superseded and refused ones included: with nothing outstanding each entry known equals what storage holds exactly unless a refusal misled it, so all agree iff none did |
| `SavedSecrets.AgreesUnlessMisled` | src/app/Accounts.cpp:260-322 | nothing misleads but a refused answer of two kinds: the field's own clear of a key believed saved, and a save that answers for an earlier request storage took and the field does not believe |
| `SavedSecrets.AgreesAtRest` | src/app/Accounts.cpp:190-322 | when storage takes every request it answers, whenever nothing is outstanding every entry known equals what storage holds |
| `SavedSecrets.RefusedSaveMisleads` | src/core/SecretStore.cpp:395-410 | a run that ends in disagreement: a key known missing is saved, taken, and before the answer saved again, which storage refuses: the first is kept and not believed |
| `SavedSecrets.RefusedSaveAfterClearMisleads` | src/core/SecretStore.cpp:395-410 | another: a clear of a key known saved gives way to a save that is refused, and the key reads as gone and is believed saved |
| `SavedSecrets.RefusalAgreesIff` | src/app/Accounts.cpp:260-322 | of a state that agrees but for what was just written, a refusal of either kind keeps the agreement exactly when it does not mislead |
| `SavedSecrets.RefusedClearMisleads` | src/app/Accounts.cpp:307-322 | a run that ends in disagreement: a key found saved is cleared by its field and storage refuses |
| `SavedSecrets.StepKeepsValid` | src/app/Accounts.cpp:190-322 | every step keeps each entry current, misled, or its secret written with the answer under way |
| `SavedSecrets.ReadSparesWrittenSecrets` | src/app/Accounts.cpp:211-222 | a read's answer never touches a secret written since it began |
| `SavedSecrets.ReadLearns` | src/app/Accounts.cpp:190-222 | an undisturbed read makes a secret known for what storage holds |
| `SavedSecrets.AnswerTells` | src/app/Accounts.cpp:211-222 | the newest read tells of every secret it saw but those written since, an older one of none |
| `SavedSecrets.RequestsTell` | src/app/Accounts.cpp:260-322 | what each answer of storage makes known, whether the field asked or another, taken or refused |
| `SavedSecrets.RefusedClearAgreesIff` | src/app/Accounts.cpp:282-322 | a clear storage refuses keeps the agreement exactly unless it was the field's own and the secret was shown as saved |
| `SavedSecrets.Accounts.ReadSavedSecrets` | src/app/Accounts.cpp:190-194 | a read takes the next number and forgets the writes before it |
| `SavedSecrets.Accounts.SecretsRead` | src/app/Accounts.cpp:211-222 | the answer of the newest read is merged secret by secret, an older one ignored |
| `SavedSecrets.Accounts.SecretSaveFinished` | src/app/Accounts.cpp:260-280 | an answer is the field's own or another's, and each is recorded as such |
| `SavedSecrets.Accounts.FinishWrite` | src/app/Accounts.cpp:307-322 | an own write is remembered only once storage took it |
| `SavedSecrets.Accounts.NoteOtherWrite` | src/app/Accounts.cpp:282-305 | another's write is remembered, a refused clear as cleared |
| `SignInChecks.ChecksAreNeverStale` | src/app/Accounts.cpp:135-181 | once all checks answered, each service shows the answer of its last-issued check, which saw the credentials as they are and came after the last renewal or is it |
| `SignInChecks.StepKeepsValid` | src/app/Accounts.cpp:135-181 | every step keeps that true of the checks still out, however renewals overlap or are superseded |
| `SignInChecks.RenewalOwesChecks` | src/app/Accounts.cpp:166-178 | after a renewal's answer only the services checked again next can be out of date |
| `SignInChecks.StartAllPaysOff` | src/app/Accounts.cpp:174-188 | issuing those checks makes everything accounted for again |
| `SignInChecks.RenewalsCascadeFinitely` | src/app/Accounts.cpp:166-181 | without new requests the workers answer in a number of steps bounded at the start |
| `SignInChecks.RenewalRenews` | src/app/Accounts.cpp:130-181 | a renewal asked for, once it rewrote the credentials and answered, has every other service checked again under a later number and shows what it saw |
| `SignInChecks.RenewalChecksOthers` | src/app/Accounts.cpp:166-178 | so does any renewal's answer, its own service included when something superseded it |
| `SignInChecks.CheckIsShown` | src/app/Accounts.cpp:154-168 | a plain check's answer is shown unless superseded, and starts nothing |
| `SignInChecks.IssueStartsWorker` | src/app/Accounts.cpp:135-142 | a request starts a worker of its kind under the next number |
| `SignInChecks.AccountChecks.WorkerAnswered` | src/app/Accounts.cpp:154-180 | the object's step for an answer, the checks it starts included |
| `SignInChecks.AccountChecks.RecheckAll` | src/app/Accounts.cpp:183-188 | every service is checked, in order |
| `InsightsLog.ReloadFindsLandedRecords` | src/core/InsightsLog.cpp:69-119 | after any appends, each cut off anywhere, reloading returns what was there before and then exactly the records whose object text was written whole and whose time can be read, in order |
| `InsightsLog.FieldsReadBack` | src/core/InsightsLog.cpp:33-65 | the fields written, empty ones left out, are read back as the record was, but for what ISO text drops of its time and what its profile's name now stands for |
| `InsightsLog.FieldsAreNamed` | src/core/InsightsLog.cpp:33-45 | each field stands under its own name, an empty profile name or list under none |
| `InsightsLog.ForeignLinesRead` | src/core/InsightsLog.cpp:47-65 | how lines with other fields are read: no record without a time, else empty or 0 for what is missing |
| `InsightsLog.FieldsMakeObject` | src/core/InsightsLog.cpp:33-45 | the line in its order holds exactly these fields |
| `InsightsLog.WriteAddsLandedRecord` | src/core/InsightsLog.cpp:99-119 | one append, torn or not, adds its record exactly when its text landed, and disturbs no other |
| `InsightsLog.LoadSplitsAtNewline` | src/core/InsightsLog.cpp:74-91 | the records on both sides of a newline are loaded independently |
| `InsightsLog.LoadOfPiece` | src/core/InsightsLog.cpp:33-65 | a torn line loads as nothing, a whole one as its record, newline or not |
| `InsightsLog.InsightsLog.constructor` | src/core/InsightsLog.cpp:69-92 | the load loop reads the records of the file's lines, skipping what does not decode |
| `InsightsLog.InsightsLog.AppendRecord` | src/core/InsightsLog.cpp:99-119 | an append starts on a line of its own, ending a torn one first, and never writes without write access |
| `InsightsLog.InsightsLog.Clear` | src/core/InsightsLog.cpp:121-130 | clearing empties the records only when the file could be removed |
| `BaseVersions.CompareDecidesOrder` | src/core/ReleaseNotes.cpp:242-261 | -1, 0 and 1 are exactly lower, level and higher in the zero-padded lexicographic order |
| `BaseVersions.VersionsCompareByNumber` | src/core/ReleaseNotes.cpp:242-261 | versions written as numbers and dots, with any suffix after a dash, compare as their lists of numbers do, zeros standing in past the shorter's end |
| `BaseVersions.VersionsReadBack` | src/core/ReleaseNotes.cpp:242-252 | each number written reads back in its place |
| `BaseVersions.HugeNumbersReadAsZero` | src/core/ReleaseNotes.cpp:245-251 | a number no int holds reads as 0 |
| `BaseVersions.CompareIsTransitive` | src/core/ReleaseNotes.cpp:242-261 | the order is transitive across versions of different lengths, strictly when either step is strict |
| `BaseVersions.CompareIsAntisymmetric` | src/core/ReleaseNotes.cpp:242-261 | exchanging the two negates the answer, so any two versions compare |
| `BaseVersions.CompareBaseVersions` | src/core/ReleaseNotes.cpp:242-261 | the index scan computes that order |
| `WhatsNew.EveryCrossedReleaseIsShownOnce` | src/core/ReleaseNotes.cpp:185-223 | over any run of rising launches, Nightly and stable in any mix, with page views between: a release crossed by the last view is listed on exactly one view, or passed on exactly one as the own release of the Nightly Build before, and no other is listed at all |
| `WhatsNew.StableRunsShowEachOnce` | src/core/ReleaseNotes.cpp:185-223 | without Nightly Builds, each release between the first place and the last is listed exactly once |
| `WhatsNew.ViewListsWhatItPasses` | src/core/ReleaseNotes.cpp:195-208 | a view lists exactly the releases carried that it passes, the Nightly base's own included when the base itself is passed |
| `WhatsNew.OwnReleaseStandsIn` | src/core/ReleaseNotes.cpp:209-218 | from a Nightly Build to its own release nothing is listed and the newest note stands in, which is that release's |
| `WhatsNew.PlaceNeverFalls` | src/app/WhatsNewTracker.cpp:8-48 | the place seen up to never falls |
| `WhatsNew.ViewSplitsRun` | src/core/ReleaseNotes.cpp:185-223 | what a view passes and what the rest of the run passes are disjoint and together what the whole passes |
| `WhatsNew.ListReleases` | src/core/ReleaseNotes.cpp:185-223 | the page lists the news, or the newest note standing in when there is none |
| `WhatsNew.PageHolds` | src/core/ReleaseNotes.cpp:195-222 | the page holds exactly the news, and only without any, and without a comparison, the newest note |
| `WhatsNew.NewestIsFirst` | src/core/ReleaseNotes.cpp:213-218 | which is the first not past the current version |
| `WhatsNew.LaunchOpensRangeIff` | src/app/WhatsNewTracker.cpp:8-33 | a launch opens a range exactly when a higher build follows, or, where no build was saved, a higher base or another Nightly Build |
| `WhatsNew.ListNews` | src/core/ReleaseNotes.cpp:185-223 | the filter loop keeps exactly the notes in (last seen, current], in order |
| `WhatsNew.WhatsNewTracker.constructor` | src/app/WhatsNewTracker.cpp:8-33 | a launch saves its version and opens a pending range on an upgrade only, keeping one already open |
| `WhatsNew.WhatsNewTracker.ClearPending` | src/app/WhatsNewTracker.cpp:40-48 | viewing the page closes the range |
| `IpcClients.ClientIsHeard` | src/app/SingleInstanceIpc.cpp:130-239 | in every run of the server, among any other clients: the frames a client's commands are given are the first of the requests it is sending, in order, and all of them once it sent them all and its command loop is over, unless it watches or was let go |
| `IpcClients.RunKeepsSound` | src/app/SingleInstanceIpc.cpp:146-239 | the server follows every client it accepted as a reader of that client's stream alone would |
| `IpcFraming.FramingIgnoresChunking` | src/app/SingleInstanceIpc.cpp:157-212 | a stream of request texts of at most 64 KiB is delivered the same, in order and once each, however it is cut into reads, even where a text is taken whole before its newline arrives |
| `IpcFraming.ChunkingIsIgnoredIffStreamFits` | src/app/SingleInstanceIpc.cpp:157-212 | for requests under 64 KiB each: every cutting delivers them all iff the whole stream is at most 64 KiB |
| `IpcFraming.CutDeliversTexts` | src/app/SingleInstanceIpc.cpp:159-179 | one read of any part of the stream delivers whole texts and keeps what the rest needs |
| `IpcFraming.RequestBuffer.Take` | src/app/SingleInstanceIpc.cpp:156-176 | the framing loop takes the frames off the buffer, or none once it is too large |
| `IpcFraming.RequestBuffer.NonBlank` | src/app/SingleInstanceIpc.cpp:204-212 | blank frames are skipped and no other |
| `IpcFraming.BlankFrameIsNoRequest` | src/app/SingleInstanceIpc.cpp:204-212 | a frame of white space alone is no request and any other is |
| `IpcMessages.RequestsArriveHoweverCut` | src/app/SingleInstanceIpc.cpp:157-217 | encoded requests, concatenated up to 64 KiB and cut anywhere, decode to the same requests in order |
| `IpcMessages.RequestRoundTripsIff` | src/app/IpcMessages.cpp:106-178 | a request decodes to itself exactly when its overrides are non-empty and its language is known |
| `IpcMessages.EmptyProfileIsLost` | src/app/IpcMessages.cpp:106-178 | one that does not: a start with an empty profile arrives without one |
| `IpcMessages.ObjectsAreRead` | src/app/IpcMessages.cpp:131-178 | of any object: what is refused and why, in the source's order, and how the rest is read field by field |
| `IpcMessages.FieldsAreNamed` | src/app/IpcMessages.cpp:106-129 | each field of a request stands under its own name |
| `IpcMessages.ListFieldsRead` | src/app/IpcMessages.cpp:49-65 | a list is read from nothing or from an array of texts alone |
| `IpcMessages.FormatsAreNamed` | src/app/IpcMessages.cpp:131-178 | a format is named in any case, white space around it, and by nothing else |
| `IpcMessages.CommandNamesRoundTrip` | src/app/IpcMessages.cpp:16-41 | every command's name names that command |
| `IpcMessages.FormatNamesRoundTrip` | src/app/IpcMessages.cpp:106-178 | every output format's name names that format, whatever the fold, letters not being white space |
| `IpcMessages.RequestFrame` | src/app/IpcMessages.cpp:106-129 | the object is filled field by field |
| `IpcMessages.RequestFromFrame` | src/app/IpcMessages.cpp:131-178 | the request is read field by field, with each refusal where the source refuses |
| `IpcMessages.ReadStringList` | src/app/IpcMessages.cpp:49-65 | a list is read only when every item is text |
| `IpcConnections.TablesAreSound` | src/app/SingleInstanceIpc.cpp:117-239 | after any events: at most 8 accepted sockets and 32 watchers; a watcher holds no slot, buffer or deadline; a non-empty buffer has a deadline; deadlines are being swept; no socket is released while its command runs; a disconnected socket whose command is over holds no slot, buffer, deadline or mark, and is a watcher at most until it is deleted |
| `IpcConnections.SlotsAreThisUsers` | src/app/SingleInstanceIpc.cpp:130-145 | in every run whoever holds a slot was let in as this user's and has held it since |
| `IpcConnections.ConnectionsAreLetIn` | src/app/SingleInstanceIpc.cpp:130-145 | a connection of this user is accepted exactly while fewer than eight are, with two seconds from then, and every other let go at once |
| `IpcConnections.ReadsAreAnswered` | src/app/SingleInstanceIpc.cpp:146-218 | what a read leaves, answers and gives time for, and that one too large is answered nothing |
| `IpcConnections.WatchersAreLetIn` | src/app/SingleInstanceIpc.cpp:430-448 | a command's client watches from then on exactly when it is there and fewer than 32 watch |
| `IpcConnections.GoneIsReleased` | src/app/SingleInstanceIpc.cpp:220-239 | a client that is gone is released at once or when its command is over, and deleted with its watch |
| `IpcConnections.StepKeepsValid` | src/app/SingleInstanceIpc.cpp:117-239 | every accept, read, command step, watch, disconnect, deletion and sweep keeps the tables sound |
| `IpcConnections.SilentClientIsSwept` | src/app/SingleInstanceIpc.cpp:117-145 | in every run the next sweep takes the slot of a client that held it for two seconds without a request, unless its command runs or bytes still wait to be written to it |
| `IpcConnections.SweepFreesSlots` | src/app/SingleInstanceIpc.cpp:117-128 | after a sweep nobody past a deadline is left but such sockets, nobody in time lost a slot, and the sweeping goes on while anyone has a deadline |
| `IpcConnections.HangUpFreesSlots` | src/app/SingleInstanceIpc.cpp:117-125 | hanging up on the expired one by one keeps the tables sound and touches nothing of the others |
| `IpcConnections.DeadlinesAreNotExtended` | src/app/SingleInstanceIpc.cpp:180-193 | nothing a client sends moves a deadline that runs |
| `IpcConnections.AddWatcherKeepsValid` | src/app/SingleInstanceIpc.cpp:430-448 | moving a socket from the accept tables to the watchers keeps the tables sound |
| `IpcConnections.EndCommandKeepsValid` | src/app/SingleInstanceIpc.cpp:220-227 | the clean-up a disconnect left to a running command is done when it unwinds |
| `IpcConnections.SingleInstanceIpc.NewConnection` | src/app/SingleInstanceIpc.cpp:130-145 | a connection is accepted with a deadline, or refused over the limit or for another user |
| `IpcConnections.SingleInstanceIpc.ReadRequests` | src/app/SingleInstanceIpc.cpp:146-203 | a read updates buffer, deadline and sweep and begins the command loop |
| `IpcConnections.SingleInstanceIpc.NextFrame` | src/app/SingleInstanceIpc.cpp:203-227 | the command loop hands out the next frame or, when its frames are done or the socket watches, unwinds |
| `IpcConnections.SingleInstanceIpc.Disconnected` | src/app/SingleInstanceIpc.cpp:228-239 | a disconnect releases the socket, or leaves that to its command |
| `IpcConnections.SingleInstanceIpc.AddStatusWatcher` | src/app/SingleInstanceIpc.cpp:430-448 | watchers whose sockets are gone are dropped first, then the socket moves over unless 32 are left |
| `IpcConnections.SingleInstanceIpc.SweepExpired` | src/app/SingleInstanceIpc.cpp:117-128 | the sweep hangs up on the sockets past their deadline, in any order, and stops when no deadline is left |
| `Updates.NoSurpriseRestart` | src/app/ManifestUpdater.cpp:300-384 | in every run a restart is tried only with no blocker, into an installed file with the checksum the manifest held gives, and after an update was asked for since that manifest was offered |
| `UpdateFlows.TimerOffersOnlyNewer` | src/app/ManifestUpdater.cpp:81-99 | in every run, what is held after a check the timer began is strictly newer than what runs; an older build is only ever a Stable Release held by a Nightly Build |
| `UpdateFlows.StableCheckEnds` | src/app/ManifestUpdater.cpp:295-508 | a Stable check, event by event: begun by a person on a Nightly Build it offers a Stable Release of any build, by the timer only a newer one; what is up to date, failed, downloaded by itself and counted |
| `UpdateFlows.NightlyCheckEnds` | src/app/ManifestUpdater.cpp:295-508 | a Nightly check, both legs event by event: the newest release worth offering, the Stable one when they tie |
| `UpdateFlows.ChecksBegin` | src/app/ManifestUpdater.cpp:295-324 | a check begins exactly where nothing is under way or installed, from a clean slate |
| `UpdateFlows.OneClickRestarts` | src/app/ManifestUpdater.cpp:350-384 | one click downloads an offer, installs it and restarts into it, after a wait where something is in the way |
| `UpdateFlows.OfferIsDownloaded` | src/app/ManifestUpdater.cpp:326-348 | the button downloads an offer, or opens the release page where that cannot be done here |
| `UpdateFlows.FailureIsRetried` | src/app/ManifestUpdater.cpp:332-339 | after a failure it checks again as a person asked, on the channel now chosen, or opens the release page |
| `UpdateFlows.BadDownloadFails` | src/app/ManifestUpdater.cpp:612-646 | a download that fails anywhere installs nothing and ends in Error |
| `UpdateFlows.WriteFailureIsRemembered` | src/app/ManifestUpdater.cpp:599-610 | bytes that could not be written are held against a download to the end |
| `UpdateFlows.GoodDownloadWaits` | src/app/ManifestUpdater.cpp:631-649 | a good one is installed and waits to be asked for |
| `UpdateFlows.InstalledUpdateRestarts` | src/app/ManifestUpdater.cpp:362-384 | an installed update restarts on either click, or waits |
| `UpdateFlows.PendingRestartResumes` | src/app/UpdateController.h:117-122 | and resumes as soon as nothing is in its way |
| `UpdateFlows.SwitchForgets` | src/app/ManifestUpdater.cpp:524-559 | another channel drops whatever is under way unless an update is installed |
| `UpdateFlows.DismissIsRemembered` | src/app/ManifestUpdater.cpp:386-400 | a failure dismissed is gone, an offer dismissed remembered |
| `UpdateFlows.NothingToDo` | src/app/ManifestUpdater.cpp:326-348 | where there is nothing to do, clicks do nothing |
| `Updates.ReachedStatesAreHonest` | src/app/ManifestUpdater.cpp:412-508 | in every reached state: a reply is live exactly while checking or downloading; up to date means the channel's own feed was read; an automatic check holds only a strictly newer build; a Nightly Build is being replaced by a Stable Release only when asked |
| `Updates.StepKeepsValid` | src/app/ManifestUpdater.cpp:300-677 | every check, click, reply, failure, channel switch and restart attempt keeps those |
| `Updates.StaleRepliesStayStale` | src/app/ManifestUpdater.cpp:412-416 | a reply answered or abandoned is never live again |
| `Updates.StaleReplyChangesNothing` | src/app/ManifestUpdater.cpp:612-616 | and changes nothing when it still arrives |
| `Updates.AnsweredRepliesAreStale` | src/app/ManifestUpdater.cpp:412-442 | the reply just handled is stale, even where its handler asked for the next leg |
| `Updates.NightlyVerdict` | src/app/ManifestUpdater.cpp:412-508 | a two-leg check offers when either leg has something to offer, a build no older than any it read, and is otherwise up to date exactly when the Nightly feed was read |
| `Updates.DecideKeepsValid` | src/app/ManifestUpdater.cpp:471-508 | a verdict starts a download by itself only when no one's consent is needed |
| `UpdateOffers.BestCandidateLosesNothing` | src/app/ManifestUpdater.cpp:261-293 | keeping only the newest manifest before deciding keeps an offer iff either leg had one, and never keeps an older build than it drops |
| `UpdateOffers.StableChannelReadsItsOwnFeedOnly` | src/app/ManifestUpdater.cpp:412-469 | why a Stable check reads one feed: a choice it never makes, between both feeds as a Nightly check does, would lose an offer exactly when a manual switch from a Nightly Build met a newer Nightly manifest no newer than that build |
| `Updates.ManifestUpdater.StartCheck` | src/app/ManifestUpdater.cpp:300-324 | a check begins unless one runs, a download runs or an update is installed, and forgets the manifest and the restart flag |
| `Updates.ManifestUpdater.Update` | src/app/ManifestUpdater.cpp:326-348 | what the update button does in each state |
| `Updates.ManifestUpdater.UpdateAndRestart` | src/app/ManifestUpdater.cpp:350-360 | the restart is armed only with an update in hand |
| `Updates.ManifestUpdater.Restart` | src/app/ManifestUpdater.cpp:362-384 | a restart waits while something is in the way |
| `Updates.ManifestUpdater.ResumePendingRestart` | src/app/UpdateController.h:117-122 | a waiting restart goes ahead once nothing is |
| `Updates.ManifestUpdater.FinishCheck` | src/app/ManifestUpdater.cpp:412-469 | one or two legs, each ignored unless live |
| `Updates.ManifestUpdater.DecideCheck` | src/app/ManifestUpdater.cpp:471-508 | the offer, the failure or up to date, the time of the check and the automatic download |
| `Updates.VerdictCountsAsCheck` | src/app/ManifestUpdater.cpp:471-517 | a check counts as one, and ends the backoff, exactly when its verdict is no failure |
| `Updates.ManifestUpdater.UpdateSettingsChanged` | src/app/ManifestUpdater.cpp:524-559 | a channel switch abandons the reply, the file and the manifest, except once an update is installed |
| `Updates.ManifestUpdater.FinishDownload` | src/app/ManifestUpdater.cpp:612-654 | the file is checked against the manifest before it is installed, and an armed restart follows once |
| `Updates.ManifestUpdater.DismissAvailableVersion` | src/app/ManifestUpdater.cpp:386-400 | a failure is acknowledged, an offer remembered as dismissed |
| `UpdateSchedule.AutomaticRetryInterval` | src/app/ManifestUpdater.cpp:38-47 | the loop computes min(5 min x 2^(n-1), 60 min) |
| `UpdateSchedule.ScheduleAutomaticCheck` | src/app/ManifestUpdater.cpp:108-125 | every wait is at least a minute and at most an hour, and backoff never exceeds the interval |
| `UpdateSchedule.DueCheckIsReached` | src/app/UpdateController.h:36-52 | on a forward clock a check falls due within as many wakes as hours are left, and is less than a minute past due at the first that finds it due, the timer's own lateness apart |
| `UpdateSchedule.EveryWakeComesNearer` | src/app/UpdateController.h:45-52 | the wakes left fall with every wake |
| `UpdateSchedule.DueFromOneIntervalOn` | src/app/UpdateController.h:36-39 | a check is due from one interval after the last on, and at once when the clock was set back |
| `UpdateSchedule.WaitsUntilDue` | src/app/UpdateController.h:45-52 | any wait is until the check is due, a minute at the soonest, an hour at the latest, and a minute when it is due already |
| `UpdateSchedule.RetriesSettle` | src/app/ManifestUpdater.cpp:83-125 | over a run of failures the retries come 5, 10, 20 and 40 minutes apart and then every hour, or every interval where that is shorter |
| `UpdateSchedule.RetriesKeepComing` | src/app/ManifestUpdater.cpp:108-125 | however many fail, retries are at least five minutes and at most an hour, or an interval, apart |
| `UpdateSchedule.TimelyWakesAreExact` | src/app/UpdateController.h:36-52 | with a timer on time the check falls due at exactly the wake counted in advance |
| `DictationControl.DictationExcludesFiles` | src/app/ApplicationController.cpp:358-366 | in every reached state dictation and file transcription exclude each other, a start is pending exactly while its question is out and not dropped, a deferred start has its key down and found no session, and nothing is left after quitting |
| `DictationFlows.ToggleStarts` | src/app/ApplicationController.cpp:810-839 | wherever a session can start, a toggle or start with setup complete asks for the microphone, and with the grant the session is live |
| `DictationFlows.PressStarts` | src/app/ShortcutGesture.cpp:36-73 | so does a press, but at push-to-talk on a desktop that may report releases |
| `DictationFlows.HeldPressStarts` | src/app/ShortcutGesture.cpp:36-73 | where it asks once the misfire window is over |
| `DictationFlows.UnreadyAsksNothing` | src/app/ApplicationController.cpp:815-839 | with setup not complete nothing asks |
| `DictationFlows.GrantStarts` | src/app/ApplicationController.cpp:788-800 | a grant has the session do as it was asked, a refusal leaves it alone |
| `DictationFlows.LateGrantDoesNothing` | src/app/ApplicationController.cpp:790-793 | a late answer does nothing to the session |
| `DictationFlows.ActiveIsStopped` | src/app/ApplicationController.cpp:815-863 | a stop, cancel, toggle or press ends an active session and every start that waits, set up or not |
| `DictationFlows.QuitEndsAll` | src/app/ApplicationController.cpp:886-910 | quitting ends all, once |
| `DictationFlows.RefusedStartsAskNothing` | src/app/ApplicationController.cpp:764-787 | while files are transcribed, after quitting or with a question out nothing more is asked |
| `DictationFlows.FilesAreTranscribedIff` | src/app/ApplicationController.cpp:358-366 | files are transcribed exactly where no session is under way or asked for |
| `DictationFlows.RepeatIsIgnored` | src/app/ShortcutGesture.cpp:38-51 | auto-repeat of a key whose releases are reported is no press |
| `DictationFlows.ReleaseIsRemembered` | src/app/ShortcutGesture.cpp:104-113 | a release is remembered until the binding changes |
| `DictationControl.NoSessionFromBeforeAStop` | src/app/ApplicationController.cpp:764-863 | however late the grant arrives, a session begins only by the grant of the very question that a request asked, outright or through its deferred start, and nothing stopped, cancelled or quit since that request, be it by a toggle, a press or a release |
| `DictationControl.StepCountsStops` | src/app/ApplicationController.cpp:843-863 | exactly which events have the session stopped: stop, cancel and quit, a toggle or press that finds one active, and a release that ends one |
| `DictationControl.SessionsBeginByGrants` | src/app/ApplicationController.cpp:764-801 | a session begins only by a granted answer to the request that still stands, never while files are transcribed or after quitting |
| `DictationControl.RequestsAreDated` | src/app/ApplicationController.cpp:764-801 | every question out goes back to the one request that asked it or whose deferred start did, made as many stops ago as it says |
| `DictationControl.DeferredStartsArePressed` | src/app/ShortcutGesture.cpp:36-92 | a deferred start goes back to the press that began it, and nothing was stopped since |
| `DictationControl.NothingOutlivesTheHold` | src/app/ShortcutGesture.cpp:104-144 | at push-to-talk with releases reported, once the key of a hold is up no start of that hold is deferred or pending and no session it began is live, then or later |
| `DictationControl.ActiveAfterReleaseIff` | src/app/ShortcutGesture.cpp:104-144 | after the release of a hold that found no session one is active exactly when one was before and the hold's own start was still deferred or a cancel had come |
| `DictationControl.ReleaseInOtherModes` | src/app/ShortcutGesture.cpp:104-144 | what a release leaves active in toggle and hybrid mode, and that it always drops the hold's deferred start |
| `DictationControl.AnotherClientsSessionOutlivesTheHold` | src/app/ShortcutGesture.cpp:104-144 | a run in which another client's session, started inside the misfire window, outlives the hold |
| `DictationControl.StepKeepsValid` | src/app/ApplicationController.cpp:764-910 | every press, release, timer, request, grant, stop, cancel, quit and file transcription keeps all of it |
| `DictationControl.PressKeepsValid` | src/app/ShortcutGesture.cpp:36-73 | a press that finds a session drops the deferred start of an earlier one by stopping |
| `DictationControl.HoldStepKeepsHolds` | src/app/ShortcutGesture.cpp:36-144 | every start of a hold belongs to the key that is down |
| `DictationControl.ShortcutGesture.Press` | src/app/ShortcutGesture.cpp:36-73 | ignored as auto-repeat, deferred, or a toggle |
| `DictationControl.ShortcutGesture.Release` | src/app/ShortcutGesture.cpp:104-144 | whether the release ends the session, by mode, and what it forgets |
| `DictationControl.ShortcutGesture.Forget` | src/app/ShortcutGesture.cpp:80-87 | a rebinding returns the gesture to what it was at launch |
| `DictationControl.ApplicationController.StartWithMicrophone` | src/app/ApplicationController.cpp:764-801 | a start is refused when quitting, transcribing or already pending, and else asked for under a new generation |
| `DictationControl.ApplicationController.MicrophoneAccess` | src/app/ApplicationController.cpp:790-799 | an answer acts for its own generation only |
| `DictationControl.ApplicationController.ToggleDictation` | src/app/ApplicationController.cpp:815-826 | an active session is stopped before setup is even looked at |
| `DictationControl.ApplicationController.StopDictation` | src/app/ApplicationController.cpp:843-854 | stopping drops the deferred and the pending start first |
| `DictationControl.ApplicationController.CancelDictation` | src/app/ApplicationController.cpp:856-863 | cancelling also disowns the session the held key started |
| `DictationControl.ApplicationController.QuitAll` | src/app/ApplicationController.cpp:886-910 | quitting happens once and drops everything |
| `DictationControl.ApplicationController.ShortcutPressed` | src/app/ApplicationController.cpp:113-117 | the gesture's signals reach the controller within the press |
| `DictationControl.ApplicationController.FileTranscriptionRefused` | src/app/ApplicationController.cpp:358-366 | files are refused while others are transcribed, a session is under way or a start pending |

## Left out

- Sockets, replies, files, timers' real time, threads and signals themselves; only the events they deliver are modelled.
- Rounding of doubles: scores and logarithms are exact reals with `ln` a parameter.
- Word splitting, secret patterns, case folding, JSON and SHA-256: arbitrary functions, or a checksum that an event carries.
- Percentages, month labels, the heat map, shares by writing profile, and commits in the page of release notes: easy sums and filters.
- `AppShares.SummarizeApps`: does not state the percents shown beside the shares, which are roundings of them.
- `WhatsNew.ListReleases`: takes as input whether the notes compare to an earlier version, and leaves out the commits listed for a Nightly Build.
- `Updates.ManifestUpdater.DecideCheck`: does not rearm the timer; `UpdateSchedule.ScheduleAutomaticCheck` says for how long the source does.
- `InsightsLog.FieldsReadBack`: values other than text, whole numbers and lists of text, which only a line written by something else could hold, are not part of this model.
- Status responses, their backlog limit and publishing to watchers: a watcher that is dropped is a disconnect event.
- Pending clears and write failures shown beside each secret, CLI Proxy accounts, and the providers' availability.
- `WhatsNew.EveryCrossedReleaseIsShownOnce`: builds rise with their places, as updates do, and carry the notes of the releases made before them; the newest note that stands in on any other empty page is not counted.
- `SavedSecrets.AgreesAtRestIff`: removing every secret at once, settings deleted meanwhile, and a keyring that takes a request after refusing it by its time limit are not part of this model.
- `UpdateSchedule.RetriesSettle`: every failed check fails at once and every retry comes on time.
- `Updates.NoSurpriseRestart`: `restartApplication` is one step that starts, fails back to ReadyToRestart or has nothing to start; the AppImage handshake, the Windows installer and Sparkle are not part of this model.
- Download progress, the reopened main window and the words of errors in the updater.
- `UpdateSchedule.ScheduleAutomaticCheck`: times are unbounded integers, so the 64-bit range of the clock is not modelled.
- `EditDistance.ComputeEditDistance`: cells are unbounded integers, since the analysis passes at most 64 characters a side.
- `DictationControl.ApplicationController.ToggleDictation`: session overrides are not carried, nor the setup window that an unfinished setup opens.
- The inside of `DictationSession`, `SecretStore` and `TranscribeQueue`: only what they promise their callers is used.
- Signals that re-enter the updater from its own change signal, and the hooks of end-to-end builds.
- `SpeedTestQueue.LocalSetup.RunSpeedTest`: results, errors and the settings they are saved in are not part of this model.
