# Gamified workout RPG: progression engine in Dafny

This project is a Dafny model of the progression engine of a gamified workout tracker. A player logs resistance-training sets. Each set earns experience (xp). A finished workout adds its xp to the player's profile. Crossing the next level's threshold grants one level and one skill point. The statistics row counts the sessions. Skill points unlock skills from a fixed catalogue of six, each with its own eligibility rule. The screens around the engine are modelled as well:

- the dashboard's progress bar and role badge;
- the character sheet's bars and achievements;
- the six-step onboarding wizard;
- the settings screen's CSV export and spreadsheet-sync preparation.

## Modules

| file | module | models |
|---|---|---|
| `records.dfy` | `Records` | the `users`, `user_stats` and `workout_logs` rows, and the rows a new account starts with (level 1, 0 xp, 0 skill points, role Assassin, every counter 0) |
| `leveling.dfy` | `Leveling` | the curve `ceil(100 * L^1.5)`, computed exactly as the ceiling square root of `10000 * L^3` |
| `text.dfy` | `Text` | the JavaScript string operations the screens use: `trim`, `split`, `join`, and `String(n)` |
| `workout.dfy` | `Workout` | set and session xp, the default plan, the level-up step, the statistics update, the rest timer, and the `WorkoutRunner` screen as a class |
| `skilltree.dfy` | `SkillTree` | the catalogue, the eligibility rules, the unlock records and their upsert, the cards' display, the unlock, and the screen as a class |
| `dashboard.dfy` | `Dashboard` | the level progress bar and the role badge |
| `charactersheet.dfy` | `CharacterSheet` | role icon and description, the four stat bars, the four achievements |
| `onboarding.dfy` | `Onboarding` | the form, the list toggle, parsing of the comma-separated text areas, the wizard's steps as a class |
| `settings.dfy` | `Settings` | the CSV rows and file, the export method with its loops, the sync record list and its message |

Numbers in the app are JavaScript doubles. Reps, weight and RPE arrive through `parseInt`, so they are integers. The model reads every formula in exact arithmetic: `int` for xp and counters, and `real` for display percentages. `Math.floor(weight * reps * 0.02)` is modelled as `(weight * reps) / 50`, and `FloorFiftieth` proves the two agree when `0.02` is read exactly. Exact arithmetic is an assumption the model makes. Doubles can leave a rounding error in the intensity bonus; see "## Left out".

## Behaviour worth knowing

Each point below is what the code does. A reader might expect otherwise.

- **Level-up.** The code (`src/components/WorkoutRunner.tsx:127-129`) grants at most one level and one skill point per workout, even when the xp passes several thresholds. `Workout.ApplyWorkoutXp` models the code. `Workout.OneLevelUpEvenAcrossSeveralThresholds` shows the consequence: a new account that earns 10000 xp is left at level 2, below what its xp has reached.
- **Streaks.** No code computes a streak from consecutive workout dates. Finishing a workout never touches `current_streak`, `longest_streak` or `weekly_volume_kg` when a workout finishes (`src/components/WorkoutRunner.tsx:149-159`). `Workout.UpdateStats` leaves them unchanged.
- **Unlocking.** The unlock handler neither refuses an ineligible skill nor treats a repeat unlock as a no-op. It checks only the signed-in user and the skill-point balance (`src/components/SkillTree.tsx:119`). It upserts the record and spends a point on every call. `SkillTree.RepeatUnlockChargesTwice` states this. Only the screen, by hiding the button, keeps a player from unlocking twice, so `SkillTreeScreen.UnlockSkill` carries those conditions as preconditions.
- **Negative xp.** Nothing in the code rejects a negative xp amount. `ApplyWorkoutXp` takes any integer; the lemmas that need non-negative xp require it.

## Model

| member | source | states |
|---|---|---|
| `Records.NewUserProfile` | src/contexts/AuthContext.tsx:39-47 | a new profile keeps the identity it is given and starts with role Assassin, level 1, 0 xp and 0 skill points |
| `Records.NewUserStats` | src/contexts/AuthContext.tsx:56-64 | a new statistics row has every counter at 0 and no workout date |
| `Leveling.CeilSqrtFromCorrect` | src/components/WorkoutRunner.tsx:121-122 | counting up from a t with `(t-1)^2 < n` stops at the t with `(t-1)^2 < n <= t^2` |
| `Leveling.CeilSqrtCorrect` | src/components/WorkoutRunner.tsx:121-122 | `CeilSqrt(n)` is the least natural number whose square reaches n |
| `Leveling.ThresholdIsCeilSqrt` | src/components/WorkoutRunner.tsx:121-122 | the threshold of level L is the ceiling square root of 10000·L³, which is `ceil(100 * L^1.5)` |
| `Leveling.FirstThresholds` | src/components/Dashboard.tsx:50-51 | levels 1, 2 and 3 start at 100, 283 and 520 xp |
| `Leveling.ThresholdStep` | src/components/WorkoutRunner.tsx:121-122 | each level's threshold is strictly below the next one's |
| `Leveling.ThresholdStrictlyIncreasing` | src/components/WorkoutRunner.tsx:121-122 | a < b implies Threshold(a) < Threshold(b) |
| `Leveling.ThresholdIsLeast` | src/components/WorkoutRunner.tsx:121-122 | any t with t² ≥ 10000·L³ is at least Threshold(L), so the threshold is the ceiling |
| `Text.TrimSlice` | src/components/Onboarding.tsx:227 | `trim` returns a slice of its input, and every character it cuts off at either end is white space |
| `Text.TrimIsTrimmed` | src/components/Onboarding.tsx:227 | the result of `trim` has no white space at either end |
| `Text.TrimOfTrimmed` | src/components/Onboarding.tsx:227 | trimming a string already trimmed changes nothing |
| `Text.Split` | src/components/Onboarding.tsx:227 | `split` yields at least one piece, and no piece contains the separator |
| `Text.SplitJoinRoundTrip` | src/components/Settings.tsx:76 | splitting a join on its one-character separator gives back the pieces, if none contains it |
| `Text.JoinCount` | src/components/Settings.tsx:76 | joining n separator-free pieces inserts exactly n-1 separators |
| `Text.NatToStringValue` | src/components/Settings.tsx:70 | the decimal rendering of a natural number reads back as that number |
| `Text.IntToString` | src/components/Settings.tsx:70 | the rendering of an integer is non-empty and holds only digits and the minus sign |
| `Workout.SetXpNonNegative` | src/components/WorkoutRunner.tsx:75 | a set with non-negative reps and weight never earns negative xp |
| `Workout.SetXpMonotone` | src/components/WorkoutRunner.tsx:75 | more reps or more weight at the same RPE never earns less |
| `Workout.SetXpExample` | src/components/WorkoutRunner.tsx:75 | 10 reps at 20 kg and RPE 8 show +14 xp |
| `Workout.SessionXpAtLeastBonus` | src/components/WorkoutRunner.tsx:91-108 | with non-negative sets a workout earns at least the session bonus of 25 |
| `Workout.NoSetsEarnsBonusOnly` | src/components/WorkoutRunner.tsx:91-108 | a workout in which no exercise has a set earns exactly 25 |
| `Workout.SessionXpExample` | src/components/WorkoutRunner.tsx:91-108 | three sets of 10 × 20 kg at RPE 8 give 42 xp for the exercise and 67 for the session |
| `Workout.PopupsNeverExceedExercise` | src/components/WorkoutRunner.tsx:75-96 | if every set carries an RPE of at least 6, the popups shown while logging sum to no more than the exercise's final xp |
| `Workout.ExerciseXpAsWritten` | src/components/WorkoutRunner.tsx:93-97 | the exercise xp as written, with the mean RPE as a rational: NaN exactly when the exercise has no sets |
| `Workout.ExerciseXpMatchesAsWritten` | src/components/WorkoutRunner.tsx:93-97 | for an exercise with sets, the integer formula equals the written formula read in exact arithmetic |
| `Workout.SessionXpMatchesAsWritten` | src/components/WorkoutRunner.tsx:91-108 | if every exercise has a set, the integer session total equals the written total read in exact arithmetic |
| `Workout.EmptyExerciseMakesSessionNaN` | src/components/WorkoutRunner.tsx:95-98 | one exercise without sets turns the whole session's xp into NaN |
| `Workout.FreshPlanFinishesWithNaN` | src/components/WorkoutRunner.tsx:59-108 | finishing the freshly loaded plan gives NaN as written, and 25 with the corrected formula |
| `Workout.DefaultPlan` | src/components/WorkoutRunner.tsx:59-64 | the plan is the first min(4, n) exercises, each with no sets, 3 target sets and "8-12" reps |
| `Workout.LoggedSets` | src/components/WorkoutRunner.tsx:103 | the stored sets keep each set's reps, weight and RPE, in order, and drop `completed` |
| `Workout.ApplyWorkoutXp` | src/components/WorkoutRunner.tsx:121-132 | xp grows by the session's xp. Reaching the next threshold adds exactly one level and one skill point, else neither changes. The identity and role are kept |
| `Workout.NewUserConsistent` | src/contexts/AuthContext.tsx:43-46 | a new account's level matches its xp |
| `Workout.ApplyKeepsLevelReached` | src/components/WorkoutRunner.tsx:121-132 | earning non-negative xp never leaves the level above what the xp has reached |
| `Workout.ApplyKeepsConsistent` | src/components/WorkoutRunner.tsx:121-132 | a session that stays below the threshold after next keeps level and xp consistent |
| `Workout.OneLevelUpEvenAcrossSeveralThresholds` | src/components/WorkoutRunner.tsx:127-129 | a new account earning 10000 xp reaches only level 2 with 1 skill point, although its xp is past level 3's threshold |
| `Workout.UpdateStats` | src/components/WorkoutRunner.tsx:149-159 | with a statistics row: one more session this week and in total, xp added, the given date stored, streaks and volume unchanged. Without a row: nothing |
| `Workout.UpdateKeepsStatsValid` | src/components/WorkoutRunner.tsx:149-159 | the update keeps the counters non-negative and the current streak at most the longest |
| `Workout.Tick` | src/components/WorkoutRunner.tsx:39-45 | one second takes the timer to max(0, s-1), and it stays resting only while s was above 1 |
| `Workout.RestLastsItsSeconds` | src/components/WorkoutRunner.tsx:35-49 | a rest of n seconds runs for exactly n ticks, counting down, and then stops at 0, not resting |
| `Workout.WorkoutRunner.constructor` | src/components/WorkoutRunner.tsx:57-65 | the screen starts with the default plan and a stopped timer |
| `Workout.WorkoutRunner.AddSet` | src/components/WorkoutRunner.tsx:70-85 | the set is appended to the chosen exercise only, the popup shows its set xp, and a 90-second rest starts |
| `Workout.WorkoutRunner.TimerTick` | src/components/WorkoutRunner.tsx:35-49 | the interval ticks the timer only while it runs, and the plan is unchanged |
| `Workout.WorkoutRunner.TotalExercises` | src/components/WorkoutRunner.tsx:91-105 | the loop over the plan adds up each exercise's xp and builds one stored record per exercise, in order |
| `Workout.WorkoutRunner.FinishWorkout` | src/components/WorkoutRunner.tsx:87-159 | no user gives nothing. Otherwise the log has the date of the first clock reading, one record per exercise in order, and the session's xp; the profile is the level-up step applied to that xp; the statistics are the update applied to that xp and to the date of the second clock reading; the level-up flag reports crossing the next threshold |
| `Workout.NewAccountLedgerAgrees` | src/contexts/AuthContext.tsx:43-63 | a new account's profile xp equals its statistics' lifetime xp |
| `Workout.FinishKeepsLedger` | src/components/WorkoutRunner.tsx:123-155 | finishing a workout adds the same xp to the profile and to the statistics row, so they keep agreeing |
| `SkillTree.CriteriaMatchesRules` | src/components/SkillTree.tsx:93-106 | the eligibility chain is exactly the rule table: a listed skill is met iff its rule holds, and any other id never is |
| `SkillTree.RulesCoverCatalog` | src/components/SkillTree.tsx:17-64 | every catalogue skill has a rule, and every rule belongs to a catalogue skill |
| `SkillTree.CriteriaMonotone` | src/components/SkillTree.tsx:94-106 | once met, a skill's criteria stay met while sessions, level and xp do not go down |
| `SkillTree.NothingEligibleWithoutRecords` | src/components/SkillTree.tsx:94-106 | without a profile and a statistics row (read as 0) no skill is eligible |
| `SkillTree.FindRecord` | src/components/SkillTree.tsx:90 | `find` returns the first record for the skill, and returns none exactly when no record is for the skill |
| `SkillTree.UnlockedIffRecord` | src/components/SkillTree.tsx:90-91 | with one record per skill, a skill is unlocked iff some record for it says unlocked |
| `SkillTree.UpsertFinds` | src/components/SkillTree.tsx:121-126 | after the upsert the skill's record is the one written, and every other skill's record is unchanged |
| `SkillTree.UpsertKeepsUnique` | src/components/SkillTree.tsx:121-126 | the upsert keeps one record per skill and adds nothing but the written record |
| `SkillTree.EvaluateSkills` | src/components/SkillTree.tsx:89-113 | one card per catalogue skill, in order, with its unlocked flag from the records and its criteria flag from the rules |
| `SkillTree.ExactlyOneDisplay` | src/components/SkillTree.tsx:160-211 | each card shows exactly one of the unlock button, "Unlocked" and "Locked", matching its styling state |
| `SkillTree.Unlock` | src/components/SkillTree.tsx:118-131 | no user or no skill point changes nothing. Otherwise one point is spent and the skill's record becomes unlocked at the given time, with every other record kept |
| `SkillTree.UnlockChangesOnlyThatCard` | src/components/SkillTree.tsx:118-134 | after a successful unlock and reload, that skill's card shows "Unlocked" and every other card is as before |
| `SkillTree.RepeatUnlockChargesTwice` | src/components/SkillTree.tsx:118-131 | unlocking the same skill twice spends two points |
| `SkillTree.SkillTreeScreen.constructor` | src/components/SkillTree.tsx:71-84 | after loading, the screen holds the player's stored unlock records (one per skill), the signed-in profile and the statistics row |
| `SkillTree.SkillTreeScreen.Skills` | src/components/SkillTree.tsx:89-115 | the screen shows the six catalogue skills in order, each with its unlocked flag from the records and its criteria flag from the rules, which is `EvaluateSkills` of the screen's state |
| `SkillTree.SkillTreeScreen.UnlockSkill` | src/components/SkillTree.tsx:118-134 | the screen's profile and records become `Unlock` of the old ones, the statistics stay, and one record per skill is kept |
| `Dashboard.Clamp100` | src/components/Dashboard.tsx:55 | the clamp lies in [0, 100] |
| `Dashboard.BandPercent` | src/components/Dashboard.tsx:50-55 | the bar's value for any xp lies in [0, 100] |
| `Dashboard.LevelProgress` | src/components/Dashboard.tsx:48-56 | the progress of any level and xp lies in [0, 100] |
| `Dashboard.ProgressFor` | src/components/Dashboard.tsx:19-49 | without a user the bar keeps its initial 0 |
| `Dashboard.BandWidth` | src/components/Dashboard.tsx:50-53 | the xp needed for the next level is positive, so the bar's division is always defined |
| `Dashboard.ProgressInBand` | src/components/Dashboard.tsx:48-56 | between the two thresholds the bar is the exact percentage of the band covered |
| `Dashboard.ProgressEmptyBelow` | src/components/Dashboard.tsx:48-56 | at or below the current threshold the bar is empty |
| `Dashboard.ProgressFullAbove` | src/components/Dashboard.tsx:48-56 | at or above the next threshold the bar is full |
| `Dashboard.ProgressMonotone` | src/components/Dashboard.tsx:48-56 | at a fixed level, more xp never shows less progress |
| `Dashboard.NewUserShowsNoProgress` | src/components/Dashboard.tsx:48-56 | a new account's bar is empty |
| `Dashboard.ProgressLabel` | src/components/Dashboard.tsx:129 | the label is the integer nearest the bar's value, in [0, 100] |
| `Dashboard.RoleBadgeAsWritten` | src/components/Dashboard.tsx:58-66 | the badge strings as the file spells them, one per role, and the fallback string for any other role |
| `Dashboard.RoleBadge` | src/components/Dashboard.tsx:58-66 | the intended badges: ⚡, 🛡️, ⚖️, 💪, and ⭐ for any other role |
| `Dashboard.BadgeAsWrittenIsNeverTheEmoji` | src/components/Dashboard.tsx:58-66 | for every role the badge as written differs from the intended emoji |
| `CharacterSheet.RoleIcon` | src/components/CharacterSheet.tsx:23-31 | the role's emoji, and a star for any other role |
| `CharacterSheet.IconMatchesBadge` | src/components/CharacterSheet.tsx:23-31 | the sheet's icon equals the dashboard's intended badge for every role |
| `CharacterSheet.RoleDescription` | src/components/CharacterSheet.tsx:33-41 | each role's description, the default line for any other role; never empty |
| `CharacterSheet.NoRoleShowsDefaults` | src/components/CharacterSheet.tsx:84-110 | a profile without a role shows the star and the default description |
| `CharacterSheet.Capped` | src/components/CharacterSheet.tsx:46-58 | `min(100, count × factor)`: at most 100, never negative for a non-negative count, 100 once the product reaches 100, else exactly the product |
| `CharacterSheet.CharacterStats` | src/components/CharacterSheet.tsx:43-68 | the four bars Strength, Endurance, Consistency and Growth, in order, with their values |
| `CharacterSheet.BarsWithinRange` | src/components/CharacterSheet.tsx:43-68 | with valid counters every bar lies in [0, 100] |
| `CharacterSheet.GrowthScale` | src/components/CharacterSheet.tsx:64 | Growth is a tenth of the xp up to 1000 xp, and 100 from then on |
| `CharacterSheet.StrengthSaturates` | src/components/CharacterSheet.tsx:46 | Strength is five points per session, and full from 20 sessions on |
| `CharacterSheet.MissingRowsShowEmptyBars` | src/components/CharacterSheet.tsx:43-68 | with no profile and no statistics row every bar is 0 |
| `CharacterSheet.NewAccountShowsEmptyBars` | src/components/CharacterSheet.tsx:43-68 | a new account shows every bar at 0 |
| `CharacterSheet.Achievements` | src/components/CharacterSheet.tsx:145-150 | First Workout iff ≥ 1 session, 7 Day Streak iff current streak ≥ 7, Level 5 iff level ≥ 5, 50 Sessions iff ≥ 50 sessions |
| `CharacterSheet.AchievementsMonotone` | src/components/CharacterSheet.tsx:146-149 | higher counters never lock an achievement that lower counters unlocked |
| `CharacterSheet.FiftySessionsImpliesFirst` | src/components/CharacterSheet.tsx:146-149 | 50 Sessions is never unlocked without First Workout |
| `CharacterSheet.NewAccountHasNoAchievements` | src/components/CharacterSheet.tsx:146-149 | a new account has no achievement unlocked |
| `Onboarding.InitialForm` | src/components/Onboarding.tsx:44-53 | the form starts with empty lists, "Beginner", 60 minutes, 6 months and no spreadsheet |
| `Onboarding.Remove` | src/components/Onboarding.tsx:62 | the filter keeps exactly the items other than v |
| `Onboarding.RemoveConcat` | src/components/Onboarding.tsx:62 | the filter distributes over concatenation, so the surviving items keep their order |
| `Onboarding.RemoveAbsent` | src/components/Onboarding.tsx:62 | filtering out an absent value changes nothing |
| `Onboarding.ToggleArrayItem` | src/components/Onboarding.tsx:57-65 | a present value is filtered out, and an absent one is appended; v's membership flips and no other value's changes |
| `Onboarding.ToggleTwiceRestoresMembership` | src/components/Onboarding.tsx:57-65 | toggling the same value twice restores every value's membership |
| `Onboarding.ToggleTwiceRestoresAbsent` | src/components/Onboarding.tsx:57-65 | toggling an absent value on and off gives back exactly the list |
| `Onboarding.ToggleField` | src/components/Onboarding.tsx:57-65 | toggling changes only the chosen list, and every other answer is kept |
| `Onboarding.TrimAll` | src/components/Onboarding.tsx:227 | the map keeps the number of pieces |
| `Onboarding.TrimAllPointwise` | src/components/Onboarding.tsx:227 | piece k of the result is piece k of the input trimmed, so the order is kept |
| `Onboarding.DropEmpty` | src/components/Onboarding.tsx:227 | `filter(Boolean)` leaves no empty item, and a string is in the result iff it is a non-empty item of the input |
| `Onboarding.DropEmptySingle` | src/components/Onboarding.tsx:227 | a one-item list keeps its item iff the item is non-empty |
| `Onboarding.DropEmptyConcat` | src/components/Onboarding.tsx:227 | the filter distributes over concatenation, so every non-empty item survives, in order |
| `Onboarding.DropEmptyFromInput` | src/components/Onboarding.tsx:227 | every item that survives the filter was in its input |
| `Onboarding.DropEmptyKeepsNonEmpty` | src/components/Onboarding.tsx:227 | a list with no empty item passes the filter unchanged |
| `Onboarding.ParsedItemsClean` | src/components/Onboarding.tsx:227 | every parsed item is non-empty, trimmed and free of commas |
| `Onboarding.SplitJoin` | src/components/Onboarding.tsx:226-227 | splitting `items.join(', ')` on commas gives the first item, then each further item with its leading space |
| `Onboarding.ParseJoinRoundTrip` | src/components/Onboarding.tsx:226-227 | displaying a list of clean items and parsing the text back gives the same list |
| `Onboarding.ProgressPercent` | src/components/Onboarding.tsx:298 | the label is the integer nearest step/6 · 100 |
| `Onboarding.ProgressLabels` | src/components/Onboarding.tsx:297-298 | the six steps read 17, 33, 50, 67, 83 and 100 percent |
| `Onboarding.OnboardingWizard.constructor` | src/components/Onboarding.tsx:43-54 | the wizard starts on step 1 with the initial form and the Assassin role |
| `Onboarding.OnboardingWizard.Back` | src/components/Onboarding.tsx:312-313 | Back goes one step back and keeps the answers |
| `Onboarding.OnboardingWizard.Next` | src/components/Onboarding.tsx:317-324 | an enabled Next goes one step forward, keeps the answers, and keeps the wizard's invariant (goals chosen after step 1, equipment after step 3) |
| `Onboarding.OnboardingWizard.Toggle` | src/components/Onboarding.tsx:100-152 | a goal button (step 1) or an equipment button (step 3) toggles that list only |
| `Onboarding.OnboardingWizard.SetExperience` | src/components/Onboarding.tsx:126 | only the experience level changes |
| `Onboarding.OnboardingWizard.SetSchedule` | src/components/Onboarding.tsx:184-204 | only the session length and the programme length change |
| `Onboarding.OnboardingWizard.EditInjuries` | src/components/Onboarding.tsx:227 | the injuries become the parsed text, and nothing else changes |
| `Onboarding.OnboardingWizard.EditFoodConstraints` | src/components/Onboarding.tsx:239 | the food constraints become the parsed text, and nothing else changes |
| `Onboarding.OnboardingWizard.Choose` | src/components/Onboarding.tsx:256-275 | the role card and the spreadsheet box set the role and the flag only |
| `Onboarding.LastStepHasGoalsAndEquipment` | src/components/Onboarding.tsx:317-324 | whoever reaches the last step has at least one goal and one piece of equipment |
| `Settings.RowSplitsIntoFields` | src/components/Settings.tsx:70 | with a comma-free date and label a row splits back into its seven values |
| `Settings.CommaInLabelAddsAColumn` | src/components/Settings.tsx:70 | an exercise name holding a comma makes its row split into eight values, because the row is not quoted |
| `Settings.RowShape` | src/components/Settings.tsx:70 | a row is non-empty and does not end in a line break; with a newline-free date and label it holds none |
| `Settings.SetRows` | src/components/Settings.tsx:68-72 | an exercise has one row per set |
| `Settings.SetRowsPointwise` | src/components/Settings.tsx:68-72 | row k is the k-th set with the Sets value k+1, so the rows follow the sets in order |
| `Settings.SetsColumnCountsFromOne` | src/components/Settings.tsx:68-70 | the Sets value of an exercise's k-th row reads back as k+1 |
| `Settings.CsvLines` | src/components/Settings.tsx:63-74 | the file's first line is the header |
| `Settings.PushSetRows` | src/components/Settings.tsx:68-73 | the inner loop appends exactly the rows of the exercise's sets |
| `Settings.PushLogRows` | src/components/Settings.tsx:66-74 | the middle loop appends exactly the rows of the log's exercises, exercise by exercise |
| `Settings.ExportCsv` | src/components/Settings.tsx:57-76 | no logs or an empty list gives no file, and otherwise the file is the header and every row joined by line breaks |
| `Settings.ExercisesRowsCount` | src/components/Settings.tsx:67-74 | a log contributes one row per logged set |
| `Settings.LineCount` | src/components/Settings.tsx:63-76 | the file has one line for the header plus one per logged set |
| `Settings.LogsRowsConcat` | src/components/Settings.tsx:65-74 | rows follow the order of the logs |
| `Settings.ExercisesRowsConcat` | src/components/Settings.tsx:67-74 | within a log, rows follow the order of the exercises |
| `Settings.SingleExerciseRows` | src/components/Settings.tsx:65-74 | a one-exercise log's rows are that exercise's sets, numbered from 1 |
| `Settings.SetRowsShape` | src/components/Settings.tsx:68-72 | no row of one exercise ends in a line break, and none holds one when the date and label hold none |
| `Settings.ExercisesRowsShape` | src/components/Settings.tsx:67-74 | no row ends in a line break, and none holds one when the date and labels hold none |
| `Settings.LogsRowsShape` | src/components/Settings.tsx:65-74 | the same over all logs |
| `Settings.ExportStartsWithHeader` | src/components/Settings.tsx:63-76 | the file's text starts with the header |
| `Settings.ExportHasNoTrailingNewline` | src/components/Settings.tsx:76 | the file does not end in a line break |
| `Settings.ExportLinesRoundTrip` | src/components/Settings.tsx:63-76 | with newline-free dates and labels, splitting the file on line breaks gives back exactly the header and the rows |
| `Settings.LogRecords` | src/components/Settings.tsx:28-36 | one sync record per exercise of a log, with the log's date and xp, the exercise's id and sets, and its name or else its id |
| `Settings.SyncRecordCount` | src/components/Settings.tsx:28-39 | the flattened list has one record per exercise of every log |
| `Settings.SyncRecordsCarryTheirLog` | src/components/Settings.tsx:28-36 | every record carries the date and xp of a log it came from |
| `Settings.SyncToDrive` | src/components/Settings.tsx:22-39 | no logs or an empty list gives nothing to sync. Otherwise the records number one per exercise and the message states that count |
| `Settings.SyncMessage` | src/components/Settings.tsx:22-39 | nothing to sync shows "No workout data to sync", and otherwise the count message |

## Left out

- Every Supabase call is left out: the queries, inserts, updates and upserts, their errors, and the `try`/`catch` messages. Each screen's database reads become parameters (`Option` for `maybeSingle`), and its writes become results.
- Concurrency is not modelled. The three separate writes of a finished workout (log, profile, statistics) and the lost updates they allow under concurrent sessions are outside a sequential model.
- `setTimeout` and `setInterval` scheduling, the xp popups' `Date.now()` ids and `Math.random()` positions, and the level-up banner timing are left out. The timer is modelled tick by tick.
- Floating point is not modelled bit by bit. `0.02`, the mean RPE and `Math.pow` are read as exact numbers. `FloorFiftieth` shows the floor agrees for integer volumes when `0.02` is exact.
- `Workout.ExerciseXpMatchesAsWritten`: equates the integer exercise xp with the written formula read in exact arithmetic. In doubles, `Math.max(0, avgRpe - 6) * 5 * n` can carry a rounding error, for example with the RPEs 8, 8, 7, so the app's value can be a non-integer slightly off the model's.
- `Workout.SessionXpMatchesAsWritten`: equates the integer session total with the written total read in exact arithmetic. Through the intensity bonus above, the `xp_gained` in the log and the profile's xp can be non-integers slightly off the model's.
- The streaks and the weekly volume are never computed by the code, and the weekly reset does not exist in it, so neither is in the model.
- `SkillTree.Upsert`: the `skill_unlocks` upsert is modelled as keyed by skill id for the signed-in user. The key is a property of the database schema, which is not part of this model.
- `Workout.WorkoutRunner.AddSet`: the source pushes the set into a set array that the old and new plan state share. The model writes a fresh plan, so the aliasing of that array is not captured.
- Choosing the current exercise and the exercise navigation of the workout screen are presentational. Only the index `AddSet` receives is modelled.
- `handleSubmit` of the onboarding wizard is left out, together with the profile and spreadsheet writes it performs.
- The sync records' `sets` are modelled as the sets themselves, not as their `JSON.stringify` text.
- The Blob download, its file name from today's date, and `revokeDriveAccess` are I/O.
- The role tables are looked up as maps. A role equal to an `Object.prototype` key such as `toString` would find an inherited member in the source, and that case is not modelled.
- `Settings.CsvLines`: the header is kept as a literal. Splitting it into its seven column names is not stated as a lemma.
- `Onboarding.OnboardingWizard.Toggle`: the buttons of each step are rendered only on that step, and the wizard's methods require it. This is the screen's condition, not a check in the handlers.
- `SkillTree.SkillTreeScreen.UnlockSkill`: requires what the screen does before offering the button (a catalogue skill, not unlocked, criteria met). `SkillTree.Unlock` models the handler itself, with no such checks.
- `refreshUser` and `loadSkills` after an unlock are modelled as the reload that `EvaluateSkills` describes, not as their asynchronous timing.

## Findings

| source | as written | input that shows it | evidently intended | confidence | as-written member | corrected member |
|---|---|---|---|---|---|---|
| src/components/WorkoutRunner.tsx:95 | the mean RPE divides the RPE sum by `we.sets.length`, and with no sets that is 0/0, which is NaN; NaN then propagates through `totalXp` into the log, the profile's xp and the lifetime xp | finishing right after the plan loads, with four planned exercises and no sets logged | an exercise without sets earns no intensity bonus, so that workout earns the session bonus of 25 | not executed | `Workout.FreshPlanFinishesWithNaN` | `Workout.NoSetsEarnsBonusOnly` |
| src/components/Dashboard.tsx:58-66 | the badge literals are the UTF-8 bytes of the emoji decoded as Mac Roman, so the badge shows accented characters such as `‚ö°` | any role, for example Assassin | the same emoji the character sheet shows (⚡ 🛡️ ⚖️ 💪 ⭐) | not executed | `Dashboard.BadgeAsWrittenIsNeverTheEmoji` | `CharacterSheet.IconMatchesBadge` |

In the model, `Workout.ExerciseXp` is the corrected exercise xp used by `FinishWorkout`, and `Workout.ExerciseXpAsWritten` keeps the written one. `Dashboard.RoleBadge` is the corrected badge, and `Dashboard.RoleBadgeAsWritten` keeps the file's strings.
