# FitQuest training engine in Dafny

This project models the adaptive training-plan engine of FitQuest and proves
properties of the model. FitQuest is a gamified fitness app. Its engine is a
set of small rule-based functions over plan records and workout logs:

- **Progression** (`lib/progression/recommendWeight.ts`) reduces an exercise's
  log stream to its last performance (the best set of the latest session and
  two trend flags). It then turns goal, rep range and last performance into the
  next load on a 0.5 kg grid and a `"min-max"` rep target.
- **Training cycle** (`lib/cycle/cycle.ts`) maps dates onto a Monday-aligned
  four-week cycle whose fourth week is a deload week. It also cuts sets and
  load for that week.
- **Plateau detection** (`lib/coach/plateau.ts`) looks at the three latest
  counted logs and applies two stall rules.
- **Substitution** (`lib/coach/substitute.ts`) replaces a banned, unavailable
  or injury-touching exercise with the best-ranked eligible variant of its
  family, and falls back to the original when there is none.
- **Running zones** (`lib/coach/running.ts`) derive easy, tempo and interval
  paces from a runner's baseline, tightened week by week.
- **Two session builders.** `lib/coach/generateBlueprint.ts` runs
  substitution, plateau swap, then a pace or a load recommendation and the
  deload. `lib/session/nextSession.ts` adds a cold start from the
  self-reported baseline for exercises without logs.
- **Weekly scheduler** (`lib/schedule/scheduler.ts`) keeps the current week's
  calendar filled. It is modelled as a class `Scheduler.ScheduleStore` holding
  the table's rows; its method `EnsureWeek` upserts the missing planned days
  and reads the week again.
- **Template plan generator** (`lib/plan/generatePlan.ts`) covers exercise
  keys, equipment inference, rep-range parsing, the exercise library, rep
  schemes, day builders, the split and the plan.
- **Program route checks** (`app/api/program/generate/route.ts`) are
  `validateInput`, `validatePlan`, `extractJsonObject` and `getModelText`.
  They run over a JSON datatype. `validatePlan` and `getModelText` are methods
  with loops, proved equal to specification functions.

Each source file is one module (`Progression`, `Cycle`, `Plateau`,
`Substitute`, `Running`, `Blueprint`, `NextSession`, `Scheduler`, `PlanGen`,
`ProgramRoute`). Shared modules hold the rest:
- `Types` holds the record shapes;
- `Text` holds digits, `\d+` matches, number printing, `includes`, ASCII
  lower-casing, `trim`, `indexOf` and `join`;
- `Seqs` holds `filter` and `slice`;
- `Sorting` holds a stable sort by an integer-pair key;
- `Wrappers` holds `Option` and `Result`.

Representation choices:
- Weights, RPE and intermediate paces are `real`. Reps, priorities, paces in
  seconds per kilometre and baseline counts are `int`.
- Calendar dates are day numbers, day 0 being Thursday 1970-01-01.
  Timestamps (`created_at`) are integers.
- An absent optional text (`notes`, `progressionNote`) is `""`, which
  `filter(Boolean)` treats the same way.

The model follows the code where it may surprise a reader, and fills the type gaps it leaves:
- `detectPlateau` filters the logs first and then keeps the first twelve
  counted logs (`lib/coach/plateau.ts:8-11`). It is not the counted logs
  among the first twelve inputs.
- `validatePlan` accepts an exercise whose `restSec` is missing, or is a
  value JavaScript compares as NaN (an object, non-blank text, a non-empty
  array), because `<` and `>` are false for NaN. A `restSec` of `null`,
  `false`, `true` or `""` compares as 0 or 1 and is rejected
  (`app/api/program/generate/route.ts:109`).
- `recommendWeight`'s no-load branch tests only `'bodyweight'`
  (`lib/progression/recommendWeight.ts:138`).
- `EquipmentType` (`lib/plan/generatePlan.ts:14`) lacks the `'running'` that
  `lib/coach/substitute.ts:7` tests, so `Types.EquipmentType` adds `Running`.
- `Archetype` and `Baseline` are imported from `lib/plan/generatePlan.ts`,
  which does not define them. `Types` defines `Archetype` as calisthenics,
  hypertrophy, weightlifting or running. It defines `Baseline` with the
  optional fields `lib/session/nextSession.ts:47-131` and
  `lib/coach/running.ts:3-10` read.
- `formatPaceRange` is imported from `lib/coach/running.ts`, which does not
  define it. `Blueprint.GenerateSessionBlueprint` takes it as a parameter.

## Model

| member | source | states |
|---|---|---|
| Progression.RoundToHalf | lib/progression/recommendWeight.ts:39 | the result is a multiple of 0.5 within (v − 0.25, v + 0.25], i.e. the nearest one with ties rounded up |
| Progression.RoundToHalfUnique | lib/progression/recommendWeight.ts:39 | any multiple of 0.5 in (v − 0.25, v + 0.25] is the rounding of v, so the contract fixes the result |
| Progression.RoundToHalfKeepsHalfMultiples | lib/progression/recommendWeight.ts:39 | rounding leaves a load already on the 0.5 grid unchanged |
| Progression.XpToLevel | lib/progression/recommendWeight.ts:41 | level L satisfies (L − 1)·250 ≤ xp < L·250, and is at least 1 for non-negative xp |
| Progression.XpToLevelMonotone | lib/progression/recommendWeight.ts:41 | more xp never gives a lower level |
| Progression.SortLogs | lib/progression/recommendWeight.ts:58-65 | the sorted copy is a permutation of the stream, latest first, and among entries of one timestamp more reps first |
| Progression.BestSet | lib/progression/recommendWeight.ts:70-83 | the reduction returns a set of the session that no set of the session beats (heavier, missing weight as −∞, or as heavy with more reps) |
| Progression.SessionIds | lib/progression/recommendWeight.ts:85 | the session ids of the stream, position by position |
| Progression.Distinct | lib/progression/recommendWeight.ts:85 | `Array.from(new Set(ids))` holds exactly the ids of the stream and starts with the first |
| Progression.DistinctHasNoDuplicates | lib/progression/recommendWeight.ts:85 | the distinct ids hold no id twice |
| Progression.FilterKeepsNoDuplicates | lib/progression/recommendWeight.ts:85 | removing one id from a duplicate-free list leaves it duplicate-free |
| Progression.DistinctSecond | lib/progression/recommendWeight.ts:85-87 | the second distinct id is the first id that differs from the first |
| Progression.SessionBest | lib/progression/recommendWeight.ts:87-103 | the per-session reduction returns a set of that session that no other set of it beats |
| Progression.GetLastPerformance | lib/progression/recommendWeight.ts:43-118 | empty logs give no weight, reps or RPE and both flags false; otherwise reps are present; a raised failure flag implies last reps below the minimum; a raised top flag implies last reps at or above the maximum |
| Progression.SortedHeadIsLatest | lib/progression/recommendWeight.ts:58-67 | the head of the sorted copy is a latest entry: none is later, none equally late has more reps |
| Progression.SortLogsSameEntries | lib/progression/recommendWeight.ts:58 | the sorted copy holds exactly the stream's entries |
| Progression.SessionBestIsBest | lib/progression/recommendWeight.ts:87-103 | the best set found in the sorted copy is a best set of that session in the original stream |
| Progression.LastPerformanceIsBestOfLatestSession | lib/progression/recommendWeight.ts:58-117 | last weight, reps and RPE are those of a best set of the session of the latest entry |
| Progression.BestSetsAgree | lib/progression/recommendWeight.ts:70-83 | all best sets of one session share weight and reps, so the last performance does not depend on which one the reduction meets |
| Progression.OneSessionRaisesNoFlag | lib/progression/recommendWeight.ts:105-109 | with all entries in one session, neither trend flag is raised |
| Progression.SecondSessionIsLatestOfOthers | lib/progression/recommendWeight.ts:58-87 | the first entry of another session in the sorted copy is a latest entry among all entries outside the latest session |
| Progression.FlagsOfTwoSessions | lib/progression/recommendWeight.ts:85-109 | with two sessions, the failure flag holds iff both session bests have reps below the minimum, and the top flag iff both reach the maximum |
| Progression.TwoLatestSessionsDriveFlags | lib/progression/recommendWeight.ts:85-109 | the same two if-and-only-ifs, stated for any best sets of the two latest sessions of the stream |
| Progression.GetIncrement | lib/progression/recommendWeight.ts:120-124 | the step is 1 kg exactly for dumbbells, and 2.5 kg otherwise |
| Progression.RecommendWeight | lib/progression/recommendWeight.ts:126-189 | reps are always `"min-max"`; a load is given iff the equipment is not bodyweight and last weight and reps are known; every load is on the 0.5 grid; a note is given iff bodyweight reached the top of the range |
| Progression.RecommendFromLogs | lib/coach/generateBlueprint.ts:57-67 | reps are the planned `"min-max"`; no logs give no load and no note; with logs and loaded equipment a load is given iff the last performance has a weight; every load is on the 0.5 grid |
| Progression.ProgressAddsOneIncrement | lib/progression/recommendWeight.ts:154-158 | progressing moves the load up by one step, up to 0.25 of rounding, and exactly from a load on the grid |
| Progression.HoldKeepsLoad | lib/progression/recommendWeight.ts:165-188 | holding keeps the load within 0.25, exactly from a load on the grid |
| Progression.MuscleGoalRule | lib/progression/recommendWeight.ts:156-166 | muscle goal: top of range at RPE ≤ 8.5 or unknown adds one step (a heavier load); else below range drops 2.5 kg, floored at 0 (a lighter load when positive); else holds |
| Progression.StrengthGoalRule | lib/progression/recommendWeight.ts:168-178 | strength goal: two failed sessions take 5 % off, floored at 0, before anything else; else the top of range adds one step; else hold |
| Progression.TrendGoalRule | lib/progression/recommendWeight.ts:180-186 | fat loss and general: one step up only when the top was hit twice recently, else hold |
| Progression.MuscleExample | lib/progression/recommendWeight.ts:156-158 | 100 kg for 12 reps in an 8–10 range on a barbell gives 102.5 kg, `"8-10"`, no note |
| Cycle.Weekday | lib/cycle/cycle.ts:17 | the weekday of a day number is in 0..6 |
| Cycle.WeekStart | lib/cycle/cycle.ts:14-21 | the week start is a Monday, at most six days before the date and never after it |
| Cycle.WeekStartOfSameWeek | lib/cycle/cycle.ts:14-21 | every day from a Monday to the next Sunday has that Monday as its week start |
| Cycle.WeekStartIdempotent | lib/cycle/cycle.ts:14-21 | the week start of a week start is itself |
| Cycle.WeekStartShift | lib/cycle/cycle.ts:14-21 | a date one week later has its week start one week later |
| Cycle.JsRem | lib/cycle/cycle.ts:27 | JavaScript's `%` by a positive divisor: strictly within (−b, b), equal to the floor remainder for a non-negative dividend, never positive for a negative one |
| Cycle.GetCycleWeek | lib/cycle/cycle.ts:23-29 | the cycle week is always in 1..4, and is the whole-week distance between the two Mondays taken modulo 4 with a non-negative remainder, plus 1, also before the cycle start |
| Cycle.StartWeekIsOne | lib/cycle/cycle.ts:23-29 | any day of the cycle's first week is week 1 |
| Cycle.NextWeekAdvances | lib/cycle/cycle.ts:23-29 | seven days later the cycle week advances by one, wrapping from 4 to 1 |
| Cycle.CycleRepeatsEveryFourWeeks | lib/cycle/cycle.ts:23-29 | twenty-eight days later the cycle week is the same |
| Cycle.IsDeloadWeek | lib/cycle/cycle.ts:31 | a deload week is one whose successor in the cycle is week 1; weeks 1 to 3 are not deload weeks |
| Cycle.DeloadEveryFourthWeek | lib/cycle/cycle.ts:23-31 | the cycle week is the deload week iff the whole-week distance from the cycle start is 3 modulo 4 |
| Cycle.NormalizeSets | lib/cycle/cycle.ts:33-36 | the set count is positive; it is the first number of the text when that is positive, and 3 when the text has no number or its first number is 0 |
| Cycle.NormalizeSetsOfCount | lib/cycle/cycle.ts:33-36 | a positive count printed in decimal reads back as itself |
| Cycle.ApplyDeload | lib/cycle/cycle.ts:38-64 | sets become the decimal text of max(2, n − 1); a load stays present iff it was; a present load w becomes max(0, round-to-half(0.9·w)), a non-negative multiple of 0.5 within 0.25 of 0.9·w and below w when w > 2.5, with the reduced-load note and the same progression note; a missing load gets the constant-load note and the RPE 6–7 suffix appended to the note, or the RPE 6–7 note when it was empty |
| Cycle.DeloadExample | lib/cycle/cycle.ts:38-54 | 4 sets at 100 kg deload to 3 sets at 90 kg with the reduced-load note |
| Plateau.Relevant | lib/coach/plateau.ts:8-11 | the window holds min(12, count) counted logs, the first twelve counted ones, sorted latest first |
| Plateau.Stalled | lib/coach/plateau.ts:22-27 | the two stall rules: either one means the loads do not rise from older to latest |
| Plateau.DetectPlateau | lib/coach/plateau.ts:3-35 | "Not enough sessions." iff fewer than three logs count; a plateau iff the reason is the plateau message; the reason is always one of the three messages (which rule decides is Plateau.PlateauExactlyByRules) |
| Plateau.WindowIsLatest | lib/coach/plateau.ts:8-18 | the three window entries are in time order, and every other of the first twelve counted logs is no later than the third |
| Plateau.LaterLogsIgnored | lib/coach/plateau.ts:8-13 | once twelve logs count, appending more logs does not change the verdict |
| Plateau.HeavierLatestIsProgress | lib/coach/plateau.ts:19-34 | a latest load above the previous one means progress is still detected |
| Plateau.SameLoadNoRepGainIsPlateau | lib/coach/plateau.ts:19-32 | three window entries at one load with reps latest ≤ previous ≤ older are a plateau, whatever the range |
| Plateau.InRangeNoLoadGainIsPlateau | lib/coach/plateau.ts:22-31 | three window entries all within the rep range whose loads do not rise from older to latest are a plateau |
| Plateau.PlateauExactlyByRules | lib/coach/plateau.ts:18-34 | once three logs count, a plateau holds iff rule (a) same load with no rep gain or rule (b) in range with no load gain holds on the window; otherwise the reason is the progressing message |
| Plateau.RepeatedSessionsArePlateau | lib/coach/plateau.ts:19-32 | at least three counted logs that all repeat one load and one rep count are a plateau |
| Plateau.StagnantSessionsExample | tests/coach.test.mjs:7-14 | three 60 kg × 8 sessions with range 6–10 are a plateau |
| Substitute.InferBaseKey | lib/coach/substitute.ts:12-19 | the first keyword hit, in the order bench, squat, row, pullup, interval, picks its family; with none the key is kept |
| Substitute.Normalize | lib/coach/substitute.ts:4 | the normalized text is a slice of the lower-cased text with no white space at either end |
| Substitute.EquipmentAllowed | lib/coach/substitute.ts:6-10 | bodyweight and running are always allowed; outdoors nothing else is; elsewhere equipment is allowed iff some listed equipment normalizes to its name |
| Substitute.NeedsSubstitute | lib/coach/substitute.ts:26-30 | a banned or injury-touching exercise needs a substitute, as does loaded equipment outdoors; bodyweight and running exercises need one iff banned or injury-touching |
| Substitute.Candidates | lib/coach/substitute.ts:33-36 | the three filters keep exactly the catalog variants of the family that are not banned and whose equipment is allowed |
| Substitute.NormalizeUnpadded | lib/coach/substitute.ts:4 | text whose lower-cased ends are not white space normalizes to its lower-case form |
| Substitute.AppendNonEmptyChanges | lib/coach/substitute.ts:46 | appending a non-empty note always changes the notes |
| Substitute.PickSubstitute | lib/coach/substitute.ts:21-48 | an exercise that needs no substitute is returned unchanged; otherwise the result is the base or the base moved to a catalog variant; sets, reps, pattern and targets are always kept |
| Substitute.SubstituteIsBestEligible | lib/coach/substitute.ts:30-47 | when a substitute is needed, the exercise changes iff an eligible variant exists, and then it moves to an eligible variant of least priority (fail-open otherwise) |
| Substitute.BenchPressNeedsSubstitute | tests/coach.test.mjs:16-35 | the banned barbell bench press needs a substitute and belongs to the bench press family |
| Substitute.ChestPressEligible | tests/coach.test.mjs:26-35 | the machine chest press is an eligible variant of that family in a machine gym |
| Substitute.BannedBenchExample | tests/coach.test.mjs:16-37 | the banned bench press becomes `machine_chest_press` |
| Running.JsRound | lib/coach/running.ts:6-8 | `Math.round`: the integer r with r ≤ x + 0.5 < r + 1 |
| Running.JsRoundMonotone | lib/coach/running.ts:6-8 | rounding is monotone |
| Running.JsRoundOfInt | lib/coach/running.ts:6-8 | rounding keeps an integer |
| Running.ZonesFromPace | lib/coach/running.ts:5-8 | the baseline easy pace wins when present; each zone is present iff its source (5 km pace, then the previous zone) is present and non-zero; with a 5 km pace p the zones are round(1.2·p), round(1.06·p) and round(0.95·p); without one tempo is round(0.9·easy) and interval round(0.95·tempo) |
| Running.ZonesOrdered | lib/coach/running.ts:6-8 | for non-negative inputs, interval ≤ tempo, and tempo ≤ easy when both derive from one source |
| Running.BaselineToZones | lib/coach/running.ts:3-10 | the baseline easy pace is kept; a 5 km time gives p = time / 5, easy round(1.2·p) when none is given, tempo round(1.06·p) and interval round(0.95·p); without it tempo is round(0.9·easy) and interval round(0.95·tempo), each absent when its source is absent or zero |
| Running.FiveKExample | lib/coach/running.ts:3-10 | a 25-minute 5 km gives zones 360, 318 and 285 s/km |
| Running.WeekBoost | lib/coach/running.ts:17 | the boost is 0 up to week 1 and (week − 1)/100 after |
| Running.WeekBoostMonotone | lib/coach/running.ts:17 | a later week never has a smaller boost |
| Running.RecommendPaceForWorkout | lib/coach/running.ts:12-21 | an interval workout has a pace iff the interval zone is non-zero, and it is round(interval·(1 − boost)); otherwise a tempo workout likewise from the tempo zone; any other workout gets the easy zone as is |
| Running.ScaledPaceMonotone | lib/coach/running.ts:18-19 | a larger boost never gives a slower scaled pace |
| Running.FirstWeekUsesZonePace | lib/coach/running.ts:17-19 | in week 1 interval and tempo workouts run at their zone's pace |
| Running.PaceTightensOverWeeks | lib/coach/running.ts:17-20 | a later week has a pace exactly when an earlier one does, and it is never slower |
| Blueprint.PlateauSwap | lib/coach/generateBlueprint.ts:31-33 | a swap exists iff some variant of the raw family differs from the current key, and it is such a variant of least priority |
| Blueprint.ChosenExercise | lib/coach/generateBlueprint.ts:22-43 | sets, reps, pattern and targets are kept; without a plateau the exercise is the substitute; a plateau change moves it to a least-priority variant of the raw family other than the substitute, taking that variant's key, name and equipment and appending the plateau note |
| Blueprint.BlueprintEntry | lib/coach/generateBlueprint.ts:21-89 | the exercise is the one chosen after substitution and the plateau swap of the raw key's logs; reps are the planned range; running entries have no load and the week's pace for the chosen key; other entries have no pace and take the load of `recommendWeight` over `getLastPerformance` of the raw key's logs: outside the deload week as is, with the plateau reason appended to its note on a plateau; in the deload week through `applyDeload` for sets, load and note; a running entry keeps the chosen exercise, its target pace is the formatted pace and its note "Allure cible …" or the easy-run note; outside deload the exercise is the chosen one, in deload it gets the reduced sets and the deload note appended to its notes |
| Blueprint.GenerateSessionBlueprint | lib/coach/generateBlueprint.ts:8-98 | cycle week, deload flag, day and focus are copied; one entry per planned exercise, in plan order |
| Blueprint.PlateauReasonIsReported | lib/coach/generateBlueprint.ts:23-77 | outside running and deload, a plateau of the raw key ends the progression note with the plateau reason |
| Blueprint.PlannedExerciseKept | lib/coach/generateBlueprint.ts:22-77 | with nothing to substitute, no plateau and no deload, the planned exercise is prescribed as planned |
| Blueprint.PlateauSwapChangesExercise | lib/coach/generateBlueprint.ts:29-43 | on a plateau with a candidate, the session moves off the current key to a variant of the raw family, with the plateau note |
| NextSession.GetRunningPaces | lib/session/nextSession.ts:47-58 | with a 5 km time or without a Cooper distance the paces are the coach's zones of the same baseline; otherwise the zones of the Cooper pace p = 720 / (distance / 1000): easy round(1.2·p) unless given, tempo round(1.06·p), interval round(0.95·p) |
| NextSession.CooperExample | lib/session/nextSession.ts:52-53 | 2400 m in the Cooper test gives an easy pace of 360 s/km |
| NextSession.RepTarget | lib/session/nextSession.ts:80 | `max(min, min(max, best − 2))`: best − 2 when it lies in [min, max], min when it is below, max when it is above, and min when the range is inverted |
| NextSession.TargetReps | lib/session/nextSession.ts:79-92 | for a well-ordered range the printed target reads back as the target and min(target + spread, max) |
| NextSession.StartLoad | lib/session/nextSession.ts:45 | a starting load is on the 0.5 grid within 0.25 of the fraction of the reference |
| NextSession.GenericStart | lib/session/nextSession.ts:115-131 | no pace and the planned `"min-max"` reps; a bench key with a bench 5RM starts at round-to-half(0.92·5RM) with the 5RM note, else a squat key at 0.92 of the squat 5RM with that note, else a row key at 0.95 of the row 8RM without a note; anything else has no load and no note |
| NextSession.BaselineStartingPoint | lib/session/nextSession.ts:60-132 | only running carries a pace: interval, tempo or easy of its zones by key; running and calisthenics carry no load; hypertrophy is the generic start; weightlifting starts a front squat at 0.8 of the 3RM, a clean or snatch at 0.6, a press at 0.9, each with its note, else the generic start; calisthenics prints the pull-up, dip or push-up target with a spread of 1, 1 or 2 and the stop-before-failure note, else the planned range; running notes say whether the pace comes from the baseline or is the easy default |
| NextSession.CalisthenicsRepsInRange | lib/session/nextSession.ts:79-92 | the printed range reads back as the target and min(target + spread, max), both within [min, max] |
| NextSession.FrontSquatExample | lib/session/nextSession.ts:102-104 | a 100 kg front squat 3RM starts at 80 kg |
| NextSession.NextEntry | lib/session/nextSession.ts:153-201 | key, name, equipment and reps are kept; without logs the cold start's load, reps, note and pace are used and sets are kept; with logs there is no pace, reps are the planned range and the load and note are `recommendWeight` over `getLastPerformance` with the equipment override, as is outside the deload week and the exercise unchanged, through `applyDeload` for sets, load and note in it; without logs the "Pace cible" note is appended when there is a pace; in the deload week the deload note is appended to the exercise notes |
| NextSession.BuildNextSessionBlueprint | lib/session/nextSession.ts:134-210 | cycle week, deload flag, day and focus are copied; one entry per exercise of the day, in order |
| NextSession.BodyweightOverrideHasNoLoad | lib/session/nextSession.ts:175 | with logs, a bodyweight equipment override gives no load |
| Scheduler.Pad2 | lib/schedule/scheduler.ts:15-16 | the padded text is all digits, reads back as n, and has two characters below 100 |
| Scheduler.FormatDate | lib/schedule/scheduler.ts:13-18 | the text is the year, a dash, the two-digit padded month, a dash and the two-digit padded day: `YYYY-MM-DD`, whose numbers read back as year, month and day |
| Scheduler.FormatDateInjective | lib/schedule/scheduler.ts:13-18 | two dates with the same text are the same date |
| Scheduler.Slot | lib/schedule/scheduler.ts:29 | the slot is `Math.round(index * 6 / (count - 1))` (the integer within half a day of the exact fraction, ties up); it lies in 0..6, the first is 0 and the last is 6 |
| Scheduler.SlotRounding | lib/schedule/scheduler.ts:29 | the same three facts for `Math.round(index * 6 / (count - 1))` |
| Scheduler.FallbackOffsets | lib/schedule/scheduler.ts:26-30 | [0] up to one day; otherwise one slot per day, entry i being Slot(i, n), from 0 to 6; all within the week |
| Scheduler.SlotMonotone | lib/schedule/scheduler.ts:29 | a later day never gets an earlier slot |
| Scheduler.SlotStep | lib/schedule/scheduler.ts:29 | with at most seven days, consecutive slots are at least one day apart |
| Scheduler.FallbackSpread | lib/schedule/scheduler.ts:26-30 | the even spread is non-decreasing, and strictly increasing (distinct dates) for two to seven days |
| Scheduler.OffsetsTable | lib/schedule/scheduler.ts:32-38 | an entry exists iff 2 ≤ n ≤ 6, with n strictly increasing offsets from 0, all within 0..5 |
| Scheduler.GetOffsetsForWeek | lib/schedule/scheduler.ts:40 | at least one offset, all within the week; for 2..6 days one strictly increasing offset per day |
| Scheduler.TargetDays | lib/schedule/scheduler.ts:59 | the target is in 3..6, and is days_per_week, else the plan's day count, whenever that is in range |
| Scheduler.TargetHasTableEntry | lib/schedule/scheduler.ts:40-62 | the clamped target always has a table entry, so the even spread is never used from `ensureWeekSchedule` |
| Scheduler.KeyIndex | lib/schedule/scheduler.ts:75 | the conflict lookup finds a row with the user and date, or −1 iff there is none |
| Scheduler.UpsertOne | lib/schedule/scheduler.ts:75 | after upserting a row, its user and date have a row |
| Scheduler.UpsertOneKeysUnique | lib/schedule/scheduler.ts:75 | one upsert keeps at most one row per user and date |
| Scheduler.UpsertOneIdsFresh | lib/schedule/scheduler.ts:75 | one upsert keeps ids distinct and below the advanced counter |
| Scheduler.UpsertOneLeavesOthers | lib/schedule/scheduler.ts:75 | one upsert drops no row and leaves the rows of other keys as they were |
| Scheduler.UpsertOneKeepsKeys | lib/schedule/scheduler.ts:75 | every user and date with a row before still has one after |
| Scheduler.KeepsKeysTrans | lib/schedule/scheduler.ts:75 | keeping keys composes over successive upserts |
| Scheduler.UpsertedValid | lib/schedule/scheduler.ts:75 | a batch upsert keeps the unique key and fresh ids |
| Scheduler.UpsertedKeysUnique | lib/schedule/scheduler.ts:75 | a batch upsert keeps at most one row per user and date |
| Scheduler.UpsertedIdsFresh | lib/schedule/scheduler.ts:75 | a batch upsert keeps ids distinct and below the counter advanced by the batch size |
| Scheduler.UpsertedKeepsKeys | lib/schedule/scheduler.ts:75 | a batch upsert drops no user's date |
| Scheduler.Inserted | lib/schedule/scheduler.ts:75 | the fresh planned rows of a batch, one per new row, ids counted from the first |
| Scheduler.UpsertedAppends | lib/schedule/scheduler.ts:75 | a batch of distinct new keys is appended as fresh planned rows in batch order |
| Scheduler.WeekOf | lib/schedule/scheduler.ts:46-87 | the select holds exactly the user's rows dated Monday to Sunday, in date order |
| Scheduler.OffsetRows | lib/schedule/scheduler.ts:64-69 | one row per offset, dated start + offset, with day_index the offset's position |
| Scheduler.MissingRowsAreNew | lib/schedule/scheduler.ts:63-72 | the rows to insert have no existing key and distinct dates, are slots of the week, and with the existing rows cover every slot |
| Scheduler.MissingAreSlots | lib/schedule/scheduler.ts:64-72 | every row to insert is one of the week's slots with its position as day_index |
| Scheduler.MissingKeyFree | lib/schedule/scheduler.ts:63-72 | no row to insert duplicates an existing date of the user |
| Scheduler.MissingDistinct | lib/schedule/scheduler.ts:64-72 | the rows to insert have distinct dates for strictly increasing offsets |
| Scheduler.MissingCover | lib/schedule/scheduler.ts:63-72 | every slot either has a row of the user or is among the rows to insert |
| Scheduler.InsertedFillsSlots | lib/schedule/scheduler.ts:63-77 | after appending the rows to insert every slot has a row, the new rows are slots, and a filled week gets no rows |
| Scheduler.ScheduleStore.Upsert | lib/schedule/scheduler.ts:74-77 | the store's rows become the batch upsert of the old rows, the counter advances by the batch size, the table invariant holds and no user's date is dropped |
| Scheduler.ScheduleStore.InsertMissingSlots | lib/schedule/scheduler.ts:62-78 | only rows are appended; afterwards every slot has a row; a filled week is left unchanged; every new row is a slot of the week |
| Scheduler.ScheduleStore.EnsureWeek | lib/schedule/scheduler.ts:42-92 | returns the week's rows after the fill; rows are only appended; nothing changes when the week already had the target count or every slot; below target every slot of the target's offsets is filled; every new row is a planned slot of the week |
| Scheduler.ScheduleStore.EnsureWeekTwice | lib/schedule/scheduler.ts:42-92 | two calls on the same day return the same rows: the fill is idempotent |
| PlanGen.NonSlugRun | lib/plan/generatePlan.ts:59 | the length of the leading run of characters outside `[a-z0-9]` |
| PlanGen.CollapseRuns | lib/plan/generatePlan.ts:59 | the result has only slug characters and single underscores, is empty iff the input is, and starts with the input's first character or `_` for a run of others |
| PlanGen.CollapseKeepsSlugChars | lib/plan/generatePlan.ts:59 | replacing the runs keeps every `[a-z0-9]` character of the input, in order |
| PlanGen.StripUnderscores | lib/plan/generatePlan.ts:60 | the result is a slice of the input with only underscores cut at either end, and neither starts nor ends with one |
| PlanGen.StripKeepsSlugChars | lib/plan/generatePlan.ts:60 | stripping keeps every `[a-z0-9]` character, in order |
| PlanGen.Slugify | lib/plan/generatePlan.ts:56-60 | the key holds exactly the `[a-z0-9]` characters of the lower-cased name, in order |
| PlanGen.SlugifyIsSlug | lib/plan/generatePlan.ts:56-60 | every key has only `[a-z0-9_]`, no `__`, and no underscore at either end |
| PlanGen.CollapseSlugBody | lib/plan/generatePlan.ts:59 | a text already in slug form is left as it is |
| PlanGen.SlugifyIdempotent | lib/plan/generatePlan.ts:56-60 | slugifying a key yields the key |
| PlanGen.CollapseWordThen | lib/plan/generatePlan.ts:59 | a leading `[a-z0-9]` word passes the collapse unchanged |
| PlanGen.CollapseSepThenWord | lib/plan/generatePlan.ts:59 | a separator run before a word becomes one underscore |
| PlanGen.StripUnpadded | lib/plan/generatePlan.ts:60 | text without an underscore at either end is not stripped |
| PlanGen.SlugifyJoinsWords | lib/plan/generatePlan.ts:56-60 | two words with any separator run between them become the two lower-cased words joined by one underscore |
| PlanGen.FirstRule | lib/plan/generatePlan.ts:65-79 | the first keyword list that the name hits, with no earlier list hit |
| PlanGen.InferEquipmentType | lib/plan/generatePlan.ts:62-82 | unknown iff no keyword list is hit; otherwise the type of the first list hit, in the order barbell, dumbbell, machine, band, bodyweight; never running |
| PlanGen.BarbellRowIsBarbell | lib/plan/generatePlan.ts:65 | "Barbell Row" is barbell equipment |
| PlanGen.ParseRepRange | lib/plan/generatePlan.ts:84-96 | no number gives 8–12; otherwise min is the first number and max the second, or the first when there is only one (consequences: PlanGen.RepRangeRoundTrip, PlanGen.SingleRepCount, PlanGen.NoDigitsDefault) |
| PlanGen.RepRangeRoundTrip | lib/plan/generatePlan.ts:84-96 | a printed `"min-max"` parses back to min and max |
| PlanGen.SingleRepCount | lib/plan/generatePlan.ts:90-93 | a single number is both bounds |
| PlanGen.NoDigitsDefault | lib/plan/generatePlan.ts:86-88 | text without digits gives 8–12 |
| PlanGen.HoldRange | lib/plan/generatePlan.ts:226 | `"30-45 sec"` parses to 30–45 |
| PlanGen.PairThenText | lib/plan/generatePlan.ts:95 | two dashed numbers followed by digit-free text parse as that range |
| PlanGen.HoldOrdered | lib/plan/generatePlan.ts:226 | the core hold prescribes its lower bound first |
| PlanGen.MakeExercise | lib/plan/generatePlan.ts:98-110 | name, sets, reps and notes as given; the key is the slug of the name and a slug; equipment is inferred from the name; the targets are the parsed range; an ordered range gives a well-formed exercise |
| PlanGen.NormalizeGoal | lib/plan/generatePlan.ts:112-118 | a chosen goal is kept; without one, muscle iff the hero class is Warrior, else general |
| PlanGen.GetExerciseLibrary | lib/plan/generatePlan.ts:120-175 | the gym gets the gym names; elsewhere core and lunge are fixed, without a bar or bands the vertical pull repeats the horizontal pull, and dumbbells give the dumbbell row and goblet squat |
| PlanGen.OrderedRange | lib/plan/generatePlan.ts:98-110 | a printed range with its lower bound first parses in order |
| PlanGen.RepTextOrdered | lib/plan/generatePlan.ts:177-226 | every rep text the builders prescribe parses with its lower bound first |
| PlanGen.GetRepScheme | lib/plan/generatePlan.ts:177-211 | all three rep ranges have the lower bound first, and four compound sets iff the goal is strength |
| PlanGen.Prescribe | lib/plan/generatePlan.ts:98-110 | a prescription with a known rep text gives a well-formed exercise with its name and note |
| PlanGen.MakeExercises | lib/plan/generatePlan.ts:219-227 | one well-formed exercise per prescription, in order, with its name and note |
| PlanGen.FullBodyList | lib/plan/generatePlan.ts:219-227 | seven prescriptions, starting with the squat at RPE 7–8 |
| PlanGen.UpperList | lib/plan/generatePlan.ts:237-245 | seven prescriptions, starting with the horizontal push at RPE 7–8 |
| PlanGen.LowerList | lib/plan/generatePlan.ts:255-261 | five prescriptions, starting with the squat at RPE 7–8 |
| PlanGen.FullBodyDay | lib/plan/generatePlan.ts:213-229 | seven well-formed exercises, day and focus as given, squat first with the RPE note |
| PlanGen.UpperDay | lib/plan/generatePlan.ts:231-247 | seven well-formed exercises, day and focus as given, horizontal push first with the RPE note |
| PlanGen.LowerDay | lib/plan/generatePlan.ts:249-263 | five well-formed exercises, day and focus as given, squat first with the RPE note |
| PlanGen.ClampDays | lib/plan/generatePlan.ts:282 | the day count is in 3..6 and equals days_per_week when that is in range |
| PlanGen.GetSplit | lib/plan/generatePlan.ts:265-279 | Full Body up to 3 days, Upper / Lower for 4, the PPL + upper + accessory split for 5, PPL x2 from 6 |
| PlanGen.BuildDay | lib/plan/generatePlan.ts:213-263 | a well-formed day of 5 exercises for a lower day and 7 otherwise |
| PlanGen.WeekLayout | lib/plan/generatePlan.ts:281-319 | 3 to 6 days, as many as days_per_week when in range |
| PlanGen.MakeDays | lib/plan/generatePlan.ts:281-319 | exactly clamp(days_per_week, 3, 6) well-formed days of 5 or 7 exercises, labelled `Jour 1`, `Jour 2`, … |
| PlanGen.SplitMatchesDays | lib/plan/generatePlan.ts:265-282 | the split named from the unclamped count matches the number of days built |
| PlanGen.GeneratePlan | lib/plan/generatePlan.ts:321-338 | meta is the preferences with the normalized goal; the split is from days_per_week; the title is `Plan {split} - {level}`; the day count is clamped to 3..6 and every day is well formed |
| ProgramRoute.InputErrors | app/api/program/generate/route.ts:66-77 | no error message iff every request condition holds |
| ProgramRoute.FilterTruthy | app/api/program/generate/route.ts:86-88 | `list?.filter(Boolean)` throws iff the value is present and neither null nor an array; absent or null gives absent; an array gives an array |
| ProgramRoute.CleanConstraints | app/api/program/generate/route.ts:83-90 | fails iff one of the three lists cannot be filtered; otherwise a constraints object keeping injuries and holding the three filtered lists |
| ProgramRoute.ValidateInput | app/api/program/generate/route.ts:61-93 | accepted iff all request conditions hold and the constraints can be rebuilt; otherwise the first failed condition's message (or a TypeError); an accepted request keeps weeks and profile |
| ProgramRoute.AcceptedInputKeepsProfile | app/api/program/generate/route.ts:79-92 | an accepted profile keeps every field other than constraints as given |
| ProgramRoute.AcceptedInputCleansConstraints | app/api/program/generate/route.ts:83-90 | injuries are kept and the three lists are the given lists without their falsy entries |
| ProgramRoute.FilteredListsDropOnlyFalsy | app/api/program/generate/route.ts:86-88 | after the filter every entry is truthy, and every truthy entry survives |
| ProgramRoute.ExtractJsonObject | app/api/program/generate/route.ts:117-123 | succeeds iff the trimmed text has a `{` no later than a `}`, else the no-JSON error; the result starts with `{`, ends with `}` and spans from the first `{` to the last `}` |
| ProgramRoute.ExtractOfBraced | app/api/program/generate/route.ts:117-123 | text that already runs from `{` to `}` extracts to itself |
| ProgramRoute.ExtractJsonObjectIdempotent | app/api/program/generate/route.ts:117-123 | the extracted object extracts to itself |
| ProgramRoute.FirstFailureMeaning | app/api/program/generate/route.ts:104-112 | `forEach` with throw: nothing thrown iff every element passes; otherwise the error of an element after which all passed |
| ProgramRoute.ExerciseCheckMeaning | app/api/program/generate/route.ts:108-110 | an exercise passes iff it is not null and its rest is not outside 30–240 |
| ProgramRoute.SessionCheckMeaning | app/api/program/generate/route.ts:106-111 | a session passes iff it has an array of 4–8 exercises that all pass |
| ProgramRoute.WeekCheckMeaning | app/api/program/generate/route.ts:104-112 | a week passes iff it has exactly sessionsPerWeek sessions that all pass |
| ProgramRoute.LooseNumber | app/api/program/generate/route.ts:99-109 | the number JavaScript's `<` and `>` compare: absent and objects give NaN, a number itself, `null` 0, a boolean 0 or 1, text 0 iff it is blank and NaN otherwise, an array 0 iff it is empty and NaN otherwise |
| ProgramRoute.PlanVerdict | app/api/program/generate/route.ts:95-115 | an accepted plan is returned as given; a non-object gives the invalid-plan error; a failed header gives one of the header messages |
| ProgramRoute.PlanVerdictMeaning | app/api/program/generate/route.ts:95-115 | accepted iff header and every week pass, returning the plan as given; a failed header gives one of its messages; otherwise the first week failure |
| ProgramRoute.CheckSession | app/api/program/generate/route.ts:106-111 | the session loop returns the session's first failure, as specified |
| ProgramRoute.CheckWeek | app/api/program/generate/route.ts:104-112 | the nested week loop returns the week's first failure, as specified |
| ProgramRoute.ValidatePlan | app/api/program/generate/route.ts:95-115 | the nested loops return exactly the plan verdict |
| ProgramRoute.AcceptedPlanShape | app/api/program/generate/route.ts:99-105 | an accepted plan has 4–12 weeks, 2–6 sessions a week, one week plan per week and sessionsPerWeek sessions in each |
| ProgramRoute.AcceptedRestInRange | app/api/program/generate/route.ts:107-110 | in an accepted plan every session has 4–8 exercises and every numeric rest lies in 30–240 |
| ProgramRoute.Iterated | app/api/program/generate/route.ts:131-133 | `for … of v ?? []`: absent or null iterates nothing, an array its items, a non-iterable throws a TypeError |
| ProgramRoute.Collect | app/api/program/generate/route.ts:130-136 | an error of the collection is the error of one of the elements |
| ProgramRoute.CollectAppend | app/api/program/generate/route.ts:130-136 | collecting over a concatenation collects each part in turn |
| ProgramRoute.ContentChunk | app/api/program/generate/route.ts:134 | a content part throws iff it is null; otherwise at most one truthy chunk |
| ProgramRoute.ItemChunks | app/api/program/generate/route.ts:132-135 | an item's only possible error is a TypeError |
| ProgramRoute.ModelText | app/api/program/generate/route.ts:125-139 | a non-object gives `''`; a truthy `output_text` is returned as is; any error is a TypeError |
| ProgramRoute.PushContentChunks | app/api/program/generate/route.ts:133-135 | the content loop appends the content's chunks after those already pushed, or returns its error |
| ProgramRoute.GetModelText | app/api/program/generate/route.ts:125-139 | the loops pushing chunks return exactly the model text |
| ProgramRoute.MessageItemChunks | app/api/program/generate/route.ts:132-135 | a message item's chunks are its non-empty output texts, in order |
| ProgramRoute.ReplyChunks | app/api/program/generate/route.ts:130-136 | a reply of message items yields their non-empty output texts, in order |
| ProgramRoute.ReplyText | app/api/program/generate/route.ts:125-139 | without `output_text`, the reply's text is the non-empty output texts of its message items joined by newlines |
| Text.ToLower | lib/coach/substitute.ts:4 | the lower-cased text has the same length, character by character |
| Text.Trim | app/api/program/generate/route.ts:118 | the trimmed text is a slice of the input with no white space at either end |
| Text.TrimOfUnpadded | app/api/program/generate/route.ts:118 | text without white space at either end trims to itself |
| Text.IndexOf | app/api/program/generate/route.ts:119 | the first position of the character, or −1 iff it does not occur |
| Text.LastIndexOf | app/api/program/generate/route.ts:120 | the last position of the character, or −1 iff it does not occur |
| Text.JoinNonEmptyPair | lib/coach/substitute.ts:46 | `[a, b].filter(Boolean).join(sep)` is the non-empty one, or both joined by the separator |
| Sorting.SortBy | lib/coach/substitute.ts:37 | the sort yields a sorted permutation of its input |
| Sorting.SortByHeadIsLeast | lib/coach/substitute.ts:37 | `[0]` of a non-empty sort has a least key |

## Left out

- Supabase reads and writes, the `POST` handler, its environment checks and the OpenAI request are I/O. The scheduler's table is a store object. `ensureWeekSchedule`'s `new Date()` is the parameter `today`.
- Time zones and daylight saving: dates are whole day numbers. `getCycleWeek`'s millisecond difference can be off by a week across a DST change, and the model does not capture that.
- Cycle.WeekStart: a `Date` passed as a string is parsed as local midnight; the model takes the day number directly.
- Scheduler.FormatDate: formats a year, month and day; it is not tied to day numbers, because the civil calendar is not modelled.
- IEEE-754 doubles: loads and paces use exact reals. A product such as 0.95·w that lands just below a .5 tie in floating point may round differently.
- Integer width: JavaScript numbers are doubles; the model's integers do not overflow.
- Progression.GetLastPerformance: `created_at` is an integer timestamp; parse failures (NaN dates) are not modelled. Plateau's `localeCompare` on ISO text is modelled as the same integer order.
- Sorting.SortBy: the engine's sort is taken as stable. Variants of equal priority keep catalog order.
- Text.ToLower: lower-cases the ASCII letters only, not the rest of Unicode.
- Strings are sequences of characters, not UTF-16 code units, so `for … of` over a string and `length` count characters.
- ProgramRoute.LooseNumber: numeric strings and one-element arrays, which JavaScript coerces to numbers, are treated as NaN. Payloads are JSON, so `undefined` only appears as an absent field.
- ProgramRoute.ModelText: JavaScript's `String(x)` of a non-string chunk is the parameter `stringOf`.
- Blueprint.GenerateSessionBlueprint: `formatPaceRange` is the parameter `formatPaceRange`, because its source is not part of this model.
- Default parameters: `buildNextSessionBlueprint`'s `archetype = 'hypertrophy'` and `baseline = {}` are passed explicitly. `recommendWeight`'s optional equipment and flags are passed as values.
- Scheduler.ScheduleStore.Upsert: table ids are uuids; the model uses a counter. The batch is applied as one atomic update, row after row, so a failed upsert cannot leave it half applied.
- Scheduler.UpsertedAppends: is stated for batches whose dates are distinct, as `ensureWeekSchedule` builds them.
- Scheduler.FallbackOffsets: is never reached from `ensureWeekSchedule`, as Scheduler.TargetHasTableEntry shows.
- The UI pages, components, auth routes, middleware and `lib/coach/types.ts` carry no engine logic. Their record shapes are in `Types`.
