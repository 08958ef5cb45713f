# NeuroLift core, modelled in Dafny

NeuroLift is a workout-tracking web app. Its domain logic is spread over a few
utilities and the event handlers of some screens. This project models that logic
and proves properties of the model:

- the workout session on the Tracker screen: selecting muscles and exercises,
  logging sets, the 90-second rest countdown, finishing a workout, `formatTime`;
- the greedy plate calculator;
- the exercise history store: personal records and the progressive-overload
  suggestion;
- the offline-first merge of local and cloud documents by id;
- the body-measurement journal: delete, edit, add, custom fields, and the volume
  chart window;
- the daily calorie rollover on the Nutrition screen;
- the security event log, with its threshold alerts and per-type counts;
- the exercise database: localisation, the substitution ranking and the planner
  search;
- the Cloud Functions write checks: the validator, the rate limit and the
  suspension alert;
- the Profile statistics.

Each source file is one module. `Common.dfy` holds the shared pieces: `Option`,
the `parseFloat(x) || 0` rule, maxima, sums, decimal digits, ASCII lower-casing
and substring search.

- **Pure code** becomes functions and lemmas.
- **A screen whose `useState` variables change** becomes a class. Its fields are
  those variables, plus `localStorage` as a map or as typed slots. Each handler is
  one method that states its whole new state.
- **Loops** become methods with loop invariants. Each is proved equal to a
  specification function, and the properties are proved about that function. This
  covers the plate calculator loop, the merge, the substitution scan, the database
  localisation, the planner search and the required-field check.

Numbers are exact:

- weights, reps and volumes are `real`;
- calorie counts and timestamps are `int`;
- JavaScript's `NaN` from `parseFloat`/`parseInt` is `None`.

Ids, dates, `Date.now`, `crypto.randomUUID` and the user agent are parameters.

## Model

| member | source | states |
|---|---|---|
| Common.OrZero | components/features/Tracker.tsx:97 | `parseFloat(v) \|\| 0`: a failed parse gives 0, otherwise the parsed number |
| Common.PadStart2 | components/features/Tracker.tsx:53 | `padStart(2, '0')`: strings of length 2 or more are unchanged; shorter ones are left-filled with '0' to length 2, ending in the original |
| Common.Lower | components/features/ProgramPlanner.tsx:21 | `toLowerCase` keeps the length and lower-cases each character |
| Common.NatToString | components/features/Tracker.tsx:53 | `toString` of a natural is a non-empty digit string, of one digit exactly for values below 10 |
| Common.DigitsRoundTrip | components/features/Tracker.tsx:53 | reading back the decimal text of `n` gives `n` |
| Common.Take | utils/exerciseSubstitutions.ts:61 | `slice(0, n)`: the prefix of length min(n, length); used for the five best substitutions, the seven-day nutrition history and the 1000-event security log |
| Tracker.Toggle | components/features/Tracker.tsx:56-71 | after a toggle, `x` is selected iff it was not before; every other name keeps its membership |
| Tracker.ToggleKeepsNoDups | components/features/Tracker.tsx:56-71 | toggling keeps a duplicate-free selection duplicate-free |
| Tracker.ToggleTwiceAbsent | components/features/Tracker.tsx:56-71 | toggling an absent name appends it, and toggling it again restores the list |
| Tracker.ToggleTwicePresent | components/features/Tracker.tsx:56-71 | toggling a present name twice moves it to the end |
| Tracker.SetsVolumeIsSum | components/features/Tracker.tsx:119 | an exercise's volume is the sum of weight×reps over its completed sets |
| Tracker.VolumeIsSumOfCompleted | components/features/Tracker.tsx:118-120 | the workout volume is the sum of weight×reps over all completed sets of all exercises |
| Tracker.SetsVolumeUpdate | components/features/Tracker.tsx:98 | replacing one set changes the exercise volume by that set's difference only |
| Tracker.VolumeUpdate | components/features/Tracker.tsx:95-100 | replacing one exercise changes the workout volume by that exercise's difference only |
| Tracker.ToggleChangesVolume | components/features/Tracker.tsx:102-106 | completing a set adds its weight×reps to the volume; un-completing it removes that amount |
| Tracker.RestCountsDown | components/features/Tracker.tsx:40-48 | from `n`, `k <= n` ticks leave `n - k` seconds of rest |
| Tracker.RestClears | components/features/Tracker.tsx:44-45 | after `n + 1` ticks or more, the rest is cleared |
| Tracker.RestStaysCleared | components/features/Tracker.tsx:42-46 | a cleared rest stays cleared |
| Tracker.RestAfterSplit | components/features/Tracker.tsx:40-48 | `a` ticks and then `b` ticks equal `a + b` ticks |
| Tracker.RestTickInRange | components/features/Tracker.tsx:40-48 | a rest within 0..90 stays within 0..90 on every tick |
| Tracker.PadKeepsValue | components/features/Tracker.tsx:53 | zero-padding keeps the digits' value |
| Tracker.TwoDigitsBelowHundred | components/features/Tracker.tsx:52-53 | a value below 100 prints in at most two digits |
| Tracker.FormatTimeRoundTrip | components/features/Tracker.tsx:50-54 | `formatTime(secs)` is minutes and seconds, each at least two digits, joined by ':'; reading back minutes×60 + seconds gives `secs` |
| Tracker.FormatTimeFiveChars | components/features/Tracker.tsx:50-54 | below 100 minutes the text is exactly `mm:ss` |
| Tracker.CountdownStart | components/features/Tracker.tsx:152-157 | the countdown starts iff the input parses to a number above 0, and with that number |
| Tracker.PlateModalTotal | components/features/Tracker.tsx:602-609 | the modal's total is the bar alone when no per-side weight is entered, and otherwise exceeds the bar by the per-side weight on each of the two sides |
| Tracker.Session.constructor | components/features/Tracker.tsx:11-34 | phase setup, empty selections and exercises, no completed workout, no rest; the clock fields and storage as given |
| Tracker.Session.ToggleMuscle | components/features/Tracker.tsx:56-63 | removes a selected muscle or appends an unselected one; the selection stays duplicate-free |
| Tracker.Session.ToggleExercise | components/features/Tracker.tsx:65-71 | the same for exercises |
| Tracker.Session.ChooseExercises | components/features/Tracker.tsx:247 | enters the 'selection' phase |
| Tracker.Session.BackToSetup | components/features/Tracker.tsx:272 | returns to the 'setup' phase |
| Tracker.Session.StartWorkout | components/features/Tracker.tsx:73-82 | one active exercise per selected name, in order, each with one blank set; duration 0, stopwatch mode, timer running, phase active |
| Tracker.Session.AddSet | components/features/Tracker.tsx:84-93 | appends one blank set to the chosen exercise; other exercises and existing sets are unchanged; an index out of range changes nothing |
| Tracker.Session.UpdateSet | components/features/Tracker.tsx:95-100 | only the named field of the named set changes, to the parsed value or 0 |
| Tracker.Session.ToggleSetComplete | components/features/Tracker.tsx:102-113 | flips only that set's flag; the rest becomes 90 when the set becomes completed, otherwise none |
| Tracker.Session.Tick | components/features/Tracker.tsx:40-48 | one countdown step: a positive rest drops by 1, and 0 becomes none |
| Tracker.Session.SavePlateWeight | components/features/Tracker.tsx:608-612 | writes the plate-modal total into the chosen set's weight and changes nothing else |
| Tracker.Session.FinishWorkout | components/features/Tracker.tsx:115-135 | the record's volume is the sum over completed sets and its duration is the session's; it is prepended to stored history with older records in order; no other storage key changes; the timer stops, the rest is cleared, the phase becomes summary |
| Tracker.Session.Reset | components/features/Tracker.tsx:137-144 | phase setup, empty selections, no completed workout, no rest, timer stopped; active exercises untouched |
| PlateCalculator.DefaultConfigsWellFormed | utils/plateCalculator.ts:7-18 | both default configurations list positive plates, largest first, under their own unit |
| PlateCalculator.GreedyAccounts | utils/plateCalculator.ts:55-60 | the chosen plates plus the leftover add up to the per-side amount |
| PlateCalculator.GreedyUsesAvailable | utils/plateCalculator.ts:55-60 | every chosen plate is an available plate |
| PlateCalculator.GreedyLeftoverSmall | utils/plateCalculator.ts:55-60 | the leftover is between 0 and the per-side amount, and smaller than every available plate |
| PlateCalculator.GreedyNonIncreasing | utils/plateCalculator.ts:55-60 | for plates listed largest first, the per-side list never increases and starts no higher than the largest plate |
| PlateCalculator.GreedyLeftoverMultiple | utils/plateCalculator.ts:55-60 | if the amount and every plate are multiples of `q`, so is the leftover |
| PlateCalculator.GreedyExact | utils/plateCalculator.ts:55-60 | if a plate `q` is available and everything is a multiple of `q`, nothing is left over |
| PlateCalculator.KgLoadsExact | utils/plateCalculator.ts:7-60 | every per-side multiple of 1.25 kg is loaded exactly |
| PlateCalculator.LbsLoadsExact | utils/plateCalculator.ts:13-60 | every per-side multiple of 2.5 lb is loaded exactly |
| PlateCalculator.CalculatePlates | utils/plateCalculator.ts:26-77 | below the bar: no plates, the bar's weight, 'Target weight is less than bar weight'; at the bar: 'Empty bar'; otherwise the greedy plates, whose sum never exceeds (target − bar)/2, whose leftover is below every plate, with total = bar + 2 × sum, and a 'Closest match' message iff the leftover exceeds 0.1 |
| ExerciseHistoryService.HistoryKeyInjective | utils/exerciseHistory.ts:12 | different exercise names get different `history_` keys |
| ExerciseHistoryService.NewRecord | utils/exerciseHistory.ts:28-39 | max weight, max reps and max volume are each the maximum of this workout's best and the previous record, with a missing record counted as 0 |
| ExerciseHistoryService.NewRecordBounds | utils/exerciseHistory.ts:28-41 | the new record dominates the previous one and covers every set of the workout, so records never decrease when the previous record was read |
| ExerciseHistoryService.Lookup | utils/exerciseHistory.ts:8-18 | the history is found iff its key is in the store, and is the stored value |
| ExerciseHistoryService.StoreAfterFrame | utils/exerciseHistory.ts:23-45 | every exercise of the workout gets an entry; keys of other exercises are unchanged |
| ExerciseHistoryService.StoreAfterLatest | utils/exerciseHistory.ts:40-43 | an exercise's entry holds its last occurrence's sets as `lastSets` and the workout date as `lastPerformed` |
| ExerciseHistoryService.StoreAfterMonotone | utils/exerciseHistory.ts:28-41 | no stored personal record decreases, given that every read succeeds |
| ExerciseHistoryService.StoreAfterCovers | utils/exerciseHistory.ts:28-41 | each stored record covers every set the workout logged for that exercise |
| ExerciseHistoryService.Ceil | utils/exerciseHistory.ts:69-89 | `Math.ceil`: the least integer not below `y` |
| ExerciseHistoryService.RoundUpStep | utils/exerciseHistory.ts:69-89 | the suggested weight is a multiple of 2.5 in [avg + 2.5, avg + 5) |
| ExerciseHistoryService.SuggestedIdsDistinct | utils/exerciseHistory.ts:72-92 | suggested set ids differ by position |
| ExerciseHistoryService.Suggest | utils/exerciseHistory.ts:50-100 | none iff there is no history or no last sets; otherwise as many sets as last time, all not completed; avg reps ≥ 12: rounded-up weight and 8 reps; avg reps < 6: same weights, reps + 1; in between: rounded-up weight, reps kept |
| ExerciseHistoryService.SuggestedWeightStep | utils/exerciseHistory.ts:67-96 | in the weight-raising branches each weight is a multiple of 2.5 and at least the average weight + 2.5 |
| ExerciseHistoryService.HistoryStore.GetExerciseHistory | utils/exerciseHistory.ts:8-18 | returns the lookup of the name's key |
| ExerciseHistoryService.HistoryStore.UpdateHistory | utils/exerciseHistory.ts:23-45 | the store becomes the result of writing one entry per exercise, in order |
| ExerciseHistoryService.HistoryStore.GetProgressiveOverloadSuggestion | utils/exerciseHistory.ts:50-100 | returns the suggestion for the stored history |
| FirestoreMerge.Ids | utils/firestoreService.ts:243-246 | the ids of a document list, position by position |
| FirestoreMerge.Values | utils/firestoreService.ts:250 | `Array.from(map.values())` lists the values in key-insertion order |
| FirestoreMerge.MergeArraysById | utils/firestoreService.ts:241-251 | the loop over local and then cloud gives the map-based merge |
| FirestoreMerge.LastWith | utils/firestoreService.ts:244-247 | an id has a last document in a list iff it occurs there |
| FirestoreMerge.LastWithIsLast | utils/firestoreService.ts:244-247 | the last document with an id is the one with no later duplicate |
| FirestoreMerge.PutAllValid | utils/firestoreService.ts:242-248 | `Map.set` keeps keys distinct and each with a value |
| FirestoreMerge.PutAllKeys | utils/firestoreService.ts:242-248 | key order is the old keys followed by new ids in first-seen order |
| FirestoreMerge.PutAllValues | utils/firestoreService.ts:242-248 | each key holds the last document set for it |
| FirestoreMerge.PutAllRebuilds | utils/firestoreService.ts:242-250 | inserting a map's values into an empty map rebuilds that map |
| FirestoreMerge.MergeKeys | utils/firestoreService.ts:241-251 | the merged ids are the map's keys |
| FirestoreMerge.MergeIdsDedup | utils/firestoreService.ts:241-251 | every id in local or cloud appears exactly once in the result |
| FirestoreMerge.MergeOrder | utils/firestoreService.ts:242-250 | ids first seen locally keep local first-occurrence order and are followed by cloud-only ids in cloud order |
| FirestoreMerge.MergePrecedence | utils/firestoreService.ts:244-248 | an id in cloud gets the last cloud document; an id only in local gets the last local document |
| FirestoreMerge.PutAllTwice | utils/firestoreService.ts:246-248 | setting the same documents twice is setting them once |
| FirestoreMerge.MergeIdempotent | utils/firestoreService.ts:241-251 | merging the result with the same cloud list again changes nothing |
| FirestoreMerge.AppendNewMembers | utils/firestoreService.ts:242-248 | the key list holds exactly the old keys and the new ids |
| FirestoreMerge.AppendNewNoDups | utils/firestoreService.ts:242-248 | the key list has no duplicates |
| FirestoreMerge.AppendNewConcat | utils/firestoreService.ts:242-248 | setting from two lists in turn equals setting from their concatenation |
| FirestoreMerge.AppendNewSplit | utils/firestoreService.ts:242-248 | new keys are the unseen ids, deduplicated, appended after the old ones |
| Journal.RemoveById | components/features/Journal.tsx:40 | exactly the entries with another id remain |
| Journal.RemoveByIdSplit | components/features/Journal.tsx:40 | filtering works segment by segment, so order is kept |
| Journal.RemoveByIdAbsent | components/features/Journal.tsx:40 | deleting an id that is not present changes nothing |
| Journal.EditEntries | components/features/Journal.tsx:47-59 | same length; only the entry with the edited id changes, with the form fields overlaid and the custom measurements replaced |
| Journal.Reverse | components/features/Journal.tsx:93 | `reverse` puts element `i` at position `n − 1 − i` |
| Journal.ChartShowsNewest | components/features/Journal.tsx:92-96 | the chart shows the 10 newest workouts (or all, if fewer), oldest first |
| Journal.VolumeChart | components/features/Journal.tsx:92-96 | no chart with fewer than 2 points; otherwise the points are the window, and the max volume is at least 1 and at least each point's volume |
| Journal.JournalScreen.constructor | components/features/Journal.tsx:9-15 | the initial state values |
| Journal.JournalScreen.Load | components/features/Journal.tsx:17-23 | saved entries and history are loaded when present, else left as they were |
| Journal.JournalScreen.ResetFormContent | components/features/Journal.tsx:25-29 | clears the form, the custom fields and the edited id |
| Journal.JournalScreen.SelectEntry | components/features/Journal.tsx:31-36 | loads the entry into the form and records its id as being edited |
| Journal.JournalScreen.DeleteEntry | components/features/Journal.tsx:38-44 | removes exactly the entries with that id and saves them; resets the form iff that entry was being edited |
| Journal.JournalScreen.Save | components/features/Journal.tsx:46-73 | edit mode edits in place (same length); otherwise a new entry with the current custom fields is prepended (length + 1); saved to storage; form, custom fields and edited id cleared |
| Journal.JournalScreen.HandleChange | components/features/Journal.tsx:75-77 | the field becomes the parsed number, or 0 when it does not parse |
| Journal.JournalScreen.EditDraft | components/features/Journal.tsx:13 | replaces the custom-field draft |
| Journal.JournalScreen.AddCustomField | components/features/Journal.tsx:79-90 | adds a field only when name and value are non-empty, then resets the draft to empty name and value with unit 'cm'; otherwise nothing changes |
| Nutrition.RolledHistory | components/features/Nutrition.tsx:28-29 | the previous day's log first, then the old history, at most 7 entries |
| Nutrition.LoadStorage | components/features/Nutrition.tsx:19-37 | same day: storage unchanged; new day: history rolled, date today, daily total 0; no saved date: only today's date stored |
| Nutrition.LoadStorageIdempotent | components/features/Nutrition.tsx:19-40 | loading twice on the same day equals loading once |
| Nutrition.RolloverKeepsLastDay | components/features/Nutrition.tsx:26-34 | on a new day the newest history entry is the previous day's total, and the daily total is 0 |
| Nutrition.LoadDaysCapped | components/features/Nutrition.tsx:29 | over any sequence of days the stored history never exceeds 7 entries, and the date is the last day |
| Nutrition.NutritionScreen.constructor | components/features/Nutrition.tsx:13-15 | the initial state values |
| Nutrition.NutritionScreen.Load | components/features/Nutrition.tsx:19-40 | storage as `LoadStorage`; the total restored on the same day and 0 after a rollover; the in-memory history ends as the previously saved list whenever one existed, even after a rollover |
| Nutrition.NutritionScreen.SetInput | components/features/Nutrition.tsx:15 | replaces the input text |
| Nutrition.NutritionScreen.AddCalories | components/features/Nutrition.tsx:42-50 | adds the parsed integer, persists it and clears the input; unparseable input changes nothing |
| Nutrition.NutritionScreen.ResetDay | components/features/Nutrition.tsx:52-55 | the total becomes 0 in state and in storage |
| SecurityMonitor.SliceEnd | utils/securityMonitor.ts:55 | `slice(0, limit)` end index, including negative limits |
| SecurityMonitor.RecentEvents | utils/securityMonitor.ts:54-56 | a prefix of the log; min(limit, n) events, and 50 by default |
| SecurityMonitor.Detect | utils/securityMonitor.ts:59-85 | the failure alert iff ≥ 5 failures in the last hour; the login alert iff > 3 successes in the last hour; failure alert listed first |
| SecurityMonitor.NewerThan | utils/securityMonitor.ts:88-97 | keeps exactly the events newer than the cutoff |
| SecurityMonitor.NewerThanSplit | utils/securityMonitor.ts:88-97 | filtering works segment by segment, so order is kept |
| SecurityMonitor.ClearKeepsRecentCounts | utils/securityMonitor.ts:59-97 | clearing older events keeps every count over a later window |
| SecurityMonitor.ClearKeepsAlerts | utils/securityMonitor.ts:59-97 | clearing events older than an hour does not change the alerts |
| SecurityMonitor.GroupByTypeCounts | utils/securityMonitor.ts:112-117 | a type is listed iff it occurs, with its number of occurrences |
| SecurityMonitor.GroupCountsSum | utils/securityMonitor.ts:112-117 | the counts add up to the number of events |
| SecurityMonitor.Monitor.constructor | utils/securityMonitor.ts:17-20 | loads the stored log; a missing or corrupt store gives an empty log |
| SecurityMonitor.Monitor.LoadEvents | utils/securityMonitor.ts:119-129 | a parsed log replaces the events; a failed parse empties them; no item leaves them |
| SecurityMonitor.Monitor.LogEvent | utils/securityMonitor.ts:30-51 | the new event goes to index 0, the rest keep their order, the log never exceeds 1000 (oldest dropped), and it is saved |
| SecurityMonitor.Monitor.GetRecentEvents | utils/securityMonitor.ts:54-56 | returns the recent-events prefix |
| SecurityMonitor.Monitor.DetectSuspiciousActivity | utils/securityMonitor.ts:59-85 | returns the alerts for the current log |
| SecurityMonitor.Monitor.ClearOldEvents | utils/securityMonitor.ts:88-97 | keeps exactly the newer events in order, and saves them |
| SecurityMonitor.Monitor.GroupEventsByType | utils/securityMonitor.ts:112-117 | returns the per-type counts |
| ExerciseData.LocalizedMuscleName | utils/exerciseData.ts:3-33 | the table's name in the language when there is one and it is non-empty, else the key |
| ExerciseData.MuscleNameNonEmpty | utils/exerciseData.ts:32 | a non-empty key never shows an empty name |
| ExerciseData.AbsShownAsItself | utils/exerciseData.ts:4-30 | "Abs" is not in the table, so it is shown as "Abs" in every language |
| ExerciseData.Pick | utils/exerciseData.ts:277-279 | `ex[lang] \|\| ex['en']` |
| ExerciseData.PickIsAName | utils/exerciseData.ts:277-279 | the shown name is the language's or the English one, never empty when English is not, and English for English |
| ExerciseData.LocalizeList | utils/exerciseData.ts:277-279 | same length, each name localised in place |
| ExerciseData.LocalizeCategoriesShape | utils/exerciseData.ts:276-280 | each category keeps length and order |
| ExerciseData.GetExerciseDatabase | utils/exerciseData.ts:271-284 | the same muscles and sub-muscles in the same order, each category localised |
| ExerciseSubstitutions.FirstHitUnique | utils/exerciseSubstitutions.ts:25-38 | the first hit of the scan is unique |
| ExerciseSubstitutions.FindTarget | utils/exerciseSubstitutions.ts:25-38 | a found position holds the name; a found position under a non-empty muscle is the first such hit; one is found under a non-empty muscle iff one exists |
| ExerciseSubstitutions.CategoryOptionsMembers | utils/exerciseSubstitutions.ts:49-57 | every other name of the category becomes an option with that equipment and score, and nothing else does |
| ExerciseSubstitutions.SiblingOptions | utils/exerciseSubstitutions.ts:49-57 | the loop over one category's list yields exactly its options, in list order |
| ExerciseSubstitutions.OptionsSound | utils/exerciseSubstitutions.ts:47-58 | every option is a sibling, not the original, scored 90 for the same equipment and 70 otherwise |
| ExerciseSubstitutions.OptionsComplete | utils/exerciseSubstitutions.ts:47-58 | every sibling other than the original is an option |
| ExerciseSubstitutions.CollectOptions | utils/exerciseSubstitutions.ts:47-59 | the loops give the options of the three categories in order |
| ExerciseSubstitutions.WithScoreMembers | utils/exerciseSubstitutions.ts:61 | keeps exactly the options with that score |
| ExerciseSubstitutions.WithScoreMultiset | utils/exerciseSubstitutions.ts:61 | the 90s and the 70s together are all options |
| ExerciseSubstitutions.RankIsStableSort | utils/exerciseSubstitutions.ts:61 | the stable sort by descending score is a permutation, sorted, and keeps order within each score |
| ExerciseSubstitutions.SubstitutionsAtSound | utils/exerciseSubstitutions.ts:47-61 | at most 5 options, sorted by score, each a sibling of the original in a named category |
| ExerciseSubstitutions.GetSubstitutions | utils/exerciseSubstitutions.ts:14-62 | a name not found under a non-empty muscle yields []; an empty sub-muscle key yields []; otherwise the ranked top 5 of the sub-muscle's siblings |
| ProgramPlanner.LookupKey | components/features/ProgramPlanner.tsx:20 | property lookup finds nothing iff no key matches |
| ProgramPlanner.SearchAsWritten | components/features/ProgramPlanner.tsx:16-28 | the search as written never yields a result |
| ProgramPlanner.SearchAsWrittenThrows | components/features/ProgramPlanner.tsx:19-20 | a non-empty query over a non-empty database throws a TypeError |
| ProgramPlanner.PressMatches | components/features/ProgramPlanner.tsx:21 | "press" matches "Incline Dumbbell Press" ignoring case |
| ProgramPlanner.SearchAsWrittenCounterexample | components/features/ProgramPlanner.tsx:16-28 | on a one-exercise database the search as written throws, while the corrected search finds the exercise |
| ProgramPlanner.MuscleListAsWrittenEmpty | components/features/ProgramPlanner.tsx:124 | the selected-muscle view as written finds no category list |
| ProgramPlanner.CategoryViewMembers | components/features/ProgramPlanner.tsx:124 | corrected: a category of a muscle holds exactly the names of that category under its sub-muscles |
| ProgramPlanner.ListMatchesMembers | components/features/ProgramPlanner.tsx:20-24 | exactly the names containing the query ignoring case, tagged with muscle and category |
| ProgramPlanner.CategoryMatches | components/features/ProgramPlanner.tsx:20-24 | the inner loop over one exercise list collects exactly the list's matches, in list order |
| ProgramPlanner.MuscleMatches | components/features/ProgramPlanner.tsx:17-26 | the loop over one muscle's categories collects that muscle's matches category by category |
| ProgramPlanner.Search | components/features/ProgramPlanner.tsx:16-28 | an empty query gives no results |
| ProgramPlanner.SearchSplit | components/features/ProgramPlanner.tsx:17 | `flatMap` over muscles concatenates per-muscle results |
| ProgramPlanner.MuscleResultsSound | components/features/ProgramPlanner.tsx:19-25 | every result of a muscle is a matching name of one of its categories |
| ProgramPlanner.SearchSound | components/features/ProgramPlanner.tsx:16-28 | every result is a matching exercise under its muscle and category |
| ProgramPlanner.MuscleResultsComplete | components/features/ProgramPlanner.tsx:19-25 | every matching name of a muscle's category is a result |
| ProgramPlanner.SearchComplete | components/features/ProgramPlanner.tsx:16-28 | with a non-empty query, every matching exercise is found |
| ProgramPlanner.FilteredExercises | components/features/ProgramPlanner.tsx:16-28 | the loops give the corrected search |
| ProgramPlanner.Planner.constructor | components/features/ProgramPlanner.tsx:9-11 | nothing selected, empty query |
| ProgramPlanner.Planner.OnSearchChange | components/features/ProgramPlanner.tsx:45-48 | stores the query; a non-empty query clears the selected muscle |
| ProgramPlanner.Planner.SelectMuscle | components/features/ProgramPlanner.tsx:60-63 | selects the muscle and clears the query, so the search is empty |
| ProgramPlanner.Planner.SelectExercise | components/features/ProgramPlanner.tsx:151 | opens the chosen exercise |
| CloudFunctions.FirstMissing | functions/index.js:69-75 | none iff all required fields are present; otherwise the first missing one |
| CloudFunctions.Validate | functions/index.js:61-93 | deletion allowed; missing field, or a duration or volume that is not a number ≥ 0, rejected; otherwise the update with the server timestamp and `serverValidated: true` |
| CloudFunctions.ValidateAccepts | functions/index.js:64-92 | accepted iff every required field is present and both numbers pass |
| CloudFunctions.ValidateRejectsMissing | functions/index.js:69-75 | a document missing a required field is rejected naming a missing required field |
| CloudFunctions.ValidateWorkoutData | functions/index.js:61-93 | the loop with early returns gives the validation |
| CloudFunctions.ValidateRetriggers | functions/index.js:89-92 | as written, the validator's own update is validated and updated again |
| CloudFunctions.ValidateWrite | functions/index.js:61-93 | corrected: a write that changes no client field is the validator's own write; anything else is validated |
| CloudFunctions.ValidateWriteStops | functions/index.js:89-92 | corrected: the validator's own update does not trigger another update |
| CloudFunctions.CountSince | functions/index.js:112-117 | the audit records newer than the window start, at most all of them |
| CloudFunctions.CountSinceAppend | functions/index.js:127-137 | logging a record adds one to the count iff it is inside the window |
| CloudFunctions.AuditLog.constructor | functions/index.js:112-117 | starts from the given audit log |
| CloudFunctions.AuditLog.CheckRateLimit | functions/index.js:96-138 | decides as the rate check on the user's old records; skipped iff deletion or server-validated; exhausted iff more than 100 writes in the last 60 s; otherwise exactly one audit record is appended, with ip or 'unknown' |
| CloudFunctions.LoggedWindowBound | functions/index.js:119-137 | one logged run moves the window count by at most one |
| CloudFunctions.RateCheckFixed | functions/index.js:96-105 | corrected: a write to the audit collection is skipped; any other write is decided as written |
| CloudFunctions.AuditWriteNotSkipped | functions/index.js:96-105 | as written, the audit document (no `serverValidated`) is not skipped when it fires the trigger |
| CloudFunctions.CascadeAsWrittenGrows | functions/index.js:96-137 | as written, each audit record triggers another logged run: n runs add n records inside the window while it has room |
| CloudFunctions.CascadeFixedStops | functions/index.js:96-137 | corrected: a client write adds at most one audit record, however long the chain is followed, and keeps the earlier ones |
| CloudFunctions.ValidatedUpdateSkipsRateLimit | functions/index.js:89-103 | the validator's own update is skipped by the rate limit |
| CloudFunctions.SecurityAlert | functions/index.js:157-169 | the alert fires iff the account changes from not suspended to suspended |
| CloudFunctions.NoRepeatedAlert | functions/index.js:162 | two alerts never fire on consecutive updates |
| CloudFunctions.AlertsBounded | functions/index.js:162 | over any series of updates there are no more alerts than suspended states |
| Profile.LoadWorkouts | components/features/Profile.tsx:21-24 | the stored workouts when present, else [] |
| Profile.Round | components/features/Profile.tsx:51 | `Math.round`: the nearest integer, halves up |
| Profile.AvgVolume | components/features/Profile.tsx:49-51 | 0 with no workouts, else within 0.5 of total / count |
| Profile.TotalVolumeAppend | components/features/Profile.tsx:50 | the total of a split history is the sum of the parts' totals |
| Profile.FinishAddsToTotals | components/features/Profile.tsx:49-50 | a finished workout adds one workout and its volume to the totals |
| Profile.TotalVolumeBounds | components/features/Profile.tsx:50 | n workouts between lo and hi total between n·lo and n·hi |
| Profile.AvgVolumeBounds | components/features/Profile.tsx:49-51 | the average of such workouts lies within half a unit of [lo, hi] |

## Left out

- Rendering, JSX, animations and the muscle-map SVG are not modelled.
- `localStorage` and `JSON.parse` are modelled as typed values or as "missing / corrupt / parsed". Exceptions from a full store are left out.
- IEEE-754 floating point is replaced by exact `real`. The `toFixed(1)` text in the suggestion's reason is left out. So is the 0.1 tolerance's rounding behaviour; the comparison itself is kept.
- `crypto.randomUUID`, `Date.now`, `toLocaleDateString` and `toISOString` are parameters. One `Date.now` stamp is used per suggestion, and set ids are tagged with their position.
- Tracker's stopwatch/countdown machine (ClockContext) is not part of this model. `mode`, `timerActive` and `duration` are plain fields, and `startTimer` is shown only by the value it would receive.
- Tracker.Session.AddSet: the source pushes into a set array shared with the previous state. The model builds a new value, so aliasing is not captured. The same applies to UpdateSet and ToggleSetComplete.
- Tracker.Session.StartWorkout: the new set ids are a parameter, not random.
- SecurityMonitor.Detect: timestamps are integers in milliseconds. Parsing ISO strings is left out.
- SecurityMonitor.Monitor.LogEvent: `reportToMonitoring` and `console` output are left out. The user id and user agent are parameters.
- SecurityMonitor: `saveEvents` is folded into each mutating method as the storage field. `exportSecurityReport` and `getInstance` are left out.
- Common.Lower: only ASCII letters are lower-cased. Unicode case mapping is left out.
- Nutrition.NutritionScreen.Load: `parseInt` of the stored total is an already parsed `Option<int>`. Text parsing is left out.
- Nutrition.NutritionScreen.AddCalories: `parsed` stands for `parseInt(caloriesInput)`; nothing ties it to the input text, since text parsing is left out.
- Journal.JournalScreen.HandleChange: `parsed` stands for `parseFloat` of the event value; nothing ties it to that text.
- Journal.JournalScreen.AddCustomField: `parsed` stands for `parseFloat` of the draft's value; nothing ties it to that text.
- Tracker.CountdownStart: `parsed` stands for `parseInt` of the countdown input; nothing ties it to that text.
- PlateCalculator.CalculatePlates: requires every available plate to be positive. With a zero or negative plate the source's `while (remaining >= plate)` (utils/plateCalculator.ts:56) never ends. No caller in the source passes such a plate, and both default configurations are positive (PlateCalculator.DefaultConfigsWellFormed).
- CloudFunctions.AuditLog.CheckRateLimit: the count comes from the modelled audit log, not a Firestore query. `now` is the function's clock (`Date.now()`) and sets the window; `serverTime` is the value the record's server timestamp resolves to.
- CloudFunctions.CountSince: the query at functions/index.js:116 compares the `timestamp` field, which holds a server timestamp (functions/index.js:135), with the number `windowStart`. Firestore range filters only match values of the same type, so as written the count is very likely always 0 and the limit never applies. The model compares integer times instead and does not capture this.
- CloudFunctions.Cascade: the runs of a chain are sequential and share one clock reading; concurrent runs and the time a chain takes are left out.
- CloudFunctions: `onUserCreate`, `onUserDelete` and `dailyBackup` are left out; they are Firestore I/O only.
- CloudFunctions.Validate: `Infinity` is not modelled.
- ExerciseHistoryService.HistoryStore.GetExerciseHistory: a failed `dbStorage.getItem` (utils/exerciseHistory.ts:14-17) returns null in the source; the model leaves that failure out, and a read yields the stored entry whenever one exists. With a failed read, `updateHistory` rebuilds the record from this workout alone and can lower a stored personal record, so NewRecordBounds and StoreAfterMonotone hold only when every read succeeds.
- ExerciseData: the table contents (exercise names and translations) are parameters. Only the display-name keys are fixed.
- Async code and promises are left out. Each handler is one atomic step, and React batching is not modelled.

The source comment at utils/firestoreService.ts:240 speaks of keeping the most recent copy. The code instead always lets the cloud copy win (utils/firestoreService.ts:247), and the model follows the code.

Nutrition.tsx:39 overwrites the freshly rolled-over history in memory. The model keeps that behaviour (Nutrition.NutritionScreen.Load).

## Findings

| source | as written | input that shows it | evidently intended | confidence | as-written member | corrected member |
|---|---|---|---|---|---|---|
| components/features/ProgramPlanner.tsx:20 | reads `categories[cat]` directly under a muscle, but the database is muscle → sub-muscle → category, so `categories['weightlifting']` is undefined and `.forEach` throws | the query "press" over a database with muscle "Chest", sub-muscle "Upper Chest", weightlifting ["Incline Dumbbell Press"] | search every sub-muscle's categories | high; not executed | ProgramPlanner.SearchAsWrittenCounterexample | ProgramPlanner.SearchComplete |
| components/features/ProgramPlanner.tsx:124 | `exerciseDB[selectedMuscle]?.[category]` looks up a category name among sub-muscle keys, so the muscle view finds no list | any muscle whose sub-muscles are not named like a category, e.g. "Chest" with "Upper Chest" | list each category across the muscle's sub-muscles | high; not executed | ProgramPlanner.MuscleListAsWrittenEmpty | ProgramPlanner.CategoryViewMembers |
| components/features/Tracker.tsx:288 | the exercise-selection step reads `exercisesByMuscle[muscle]?.[category]`, the same lookup as the planner's muscle view, so each category list is empty and no exercise can be selected | any muscle whose sub-muscles are not named like a category, e.g. "Chest" with "Upper Chest" | list each category across the muscle's sub-muscles | high; not executed | ProgramPlanner.MuscleListAsWrittenEmpty | ProgramPlanner.CategoryViewMembers |
| functions/index.js:89-92 | the validator updates the document it was triggered by; that update triggers `onWrite` again, passes validation again and is written again | any valid workout document, e.g. all five required fields with durationSeconds 0 and totalVolume 0 | stop when the write only added the validator's own fields | likely; not executed | CloudFunctions.ValidateRetriggers | CloudFunctions.ValidateWriteStops |
| functions/index.js:127-137 | the audit record is added under `users/{userId}/audit`, which matches the trigger's own path `users/{userId}/{collection}/{documentId}` (functions/index.js:97), and it has no `serverValidated`, so every logged write fires `checkRateLimit` again and logs another record | any write by a user with fewer than 100 audit records in the last minute, e.g. a workout written to `users/u1/workouts/w1` with an empty audit log | skip writes to the audit collection, so one client write logs one record | likely; not executed | CloudFunctions.CascadeAsWrittenGrows | CloudFunctions.CascadeFixedStops |
