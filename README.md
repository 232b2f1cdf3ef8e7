# FitTrack, modelled in Dafny

FitTrack is a personal fitness tracker. Its Express server (`backend/server.js`)
holds one user profile with goals, a log of workouts and meals, and one
daily-totals record per calendar day (water intake and steps). The client is
a React app: an `AppProvider` keeps the user, workouts, diet and water intake
and mirrors each slice into the browser's key-value storage. The pages edit
that state: Daily Log, Steps, Water, Workout, Diet, Profile and the Onboarding
wizard. The Layout shows the avatar initials, name, e-mail and the active
navigation entry.

The model has one module per source file, plus four shared modules:

- `Wrappers` holds `Option` and `Result`.
- `CalendarDate` holds the calendar-day part of an ISO timestamp, `toISOString().split('T')[0]`.
- `DailyTable` holds the server's find-or-create table of daily records.
- `Collections` holds the sort by descending date and delete-by-id.

Code that changes state in place is modelled imperatively:

- The server's route handlers are methods of class `Server.Store`.
- The provider is class `AppProvider.Provider`. Its `storage` map stands for `localStorage`.
- Each page's local `useState` values are fields of a page class. The one exception is the Daily Log. Its only local state is the selected date, and the page only displays it, so the date is a parameter of the pure function `DailyLog.View`. `DailyLog.InitialSelection` gives its initial value.

Every method's new state is tied to a pure function of the old state. Lemmas
prove what the source promises about those functions:

- Water and step writes are absolute, and repeating one changes nothing.
- There is never a second record for the same day, and a new day starts at 0.
- Deleted ids are gone and nothing else is touched.
- Goal merges keep the fields the body does not name.
- A reload restores what was saved.
- The Daily Log shows exactly the entries of the selected day.
- The wizard's step stays in 1..3 and never passes step 1 without a name.
- Initials are the upper-cased first two word starts.

The application has no optimistic-update layer with temporary ids and rollback. It also computes no calorie totals, so there is no `duration × 5` fallback either.

Clocks are parameters. "Now" is passed as an ISO string `nowIso`. The default
timestamp of a new workout or meal is passed as `nowMillis`.

## Model

| member | source | states |
|---|---|---|
| CalendarDate.DatePart | src/pages/DailyLog.jsx:10 | the result is the prefix of the timestamp before its first 'T' (the whole string when it has none) and contains no 'T' |
| CalendarDate.Today | src/pages/DailyLog.jsx:7 | `new Date().toISOString().split('T')[0]`, the "today" of the server and every page: a 'T'-free prefix of the current timestamp, and the current timestamp falls on it |
| CalendarDate.IsSameDay | src/pages/DailyLog.jsx:9-12 | `isSameDay`: the date part of the timestamp equals the day; its independent characterisation is `CalendarDate.IsSameDayIff` |
| CalendarDate.IsSameDayIff | src/pages/DailyLog.jsx:9-12 | a timestamp is on day `d` exactly when `d` has no 'T' and the timestamp is `d` itself or `d` followed by 'T' and a time |
| CalendarDate.DateOnlyIsItsOwnDay | src/pages/DailyLog.jsx:9-12 | a date-only entry (as the date inputs produce it) falls on its own day and on no other |
| DailyTable.Fresh | backend/server.js:56-60 | a record created for a date carries that date and starts at 0 water and 0 steps |
| DailyTable.IndexOf | backend/server.js:159 | `findOne({ date })`: the index of the first record with that date, or -1 exactly when no record has it |
| DailyTable.RecordFor | backend/server.js:159-160 | the record a handler works on carries the date asked for; it is the stored record whenever one has that date, and otherwise a fresh 0/0 one |
| DailyTable.PutKeepsDatesUnique | backend/server.js:159-163 | saving a found or created record keeps at most one record per date, and adds a record exactly when the date was new |
| DailyTable.PutThenRecordFor | backend/server.js:162-164 | after the save, the record read back for that date is the one saved |
| DailyTable.PutKeepsOthers | backend/server.js:159-163 | the save leaves the record of every other date as it was |
| DailyTable.PutIdempotent | backend/server.js:159-163 | saving the same record twice leaves the table as saving it once |
| DailyTable.IndexOfIs | backend/server.js:159 | a record with the date at `i` and none before it means the lookup finds `i` |
| DailyTable.Put | backend/server.js:159-163 | `daily.save()` of a found or created record: replace the record stored for its date, or append it; specified by `DailyTable.PutKeepsDatesUnique`, `PutThenRecordFor`, `PutKeepsOthers` and `PutIdempotent` |
| DailyTable.SetWater | backend/server.js:159-163 | the water handler's table update; specified by `DailyTable.SetWaterEffect` and `SetWaterIdempotent` |
| DailyTable.SetSteps | backend/server.js:171-175 | the steps handler's table update; specified by `DailyTable.SetStepsEffect` and `SetStepsIdempotent` |
| DailyTable.AddSteps | backend/server.js:125-131 | the workout handler's table update, `daily.steps += n`; specified by `DailyTable.AddStepsEffect` |
| DailyTable.SetWaterEffect | backend/server.js:155-165 | writing water `a` for date `d` makes that day's water exactly `a`, keeps its steps (0 for a new day) and keeps every other day |
| DailyTable.SetWaterIdempotent | backend/server.js:155-165 | the water write is absolute: writing the same amount twice equals writing it once |
| DailyTable.SetStepsEffect | backend/server.js:167-177 | writing `s` steps for date `d` makes that day's steps exactly `s`, keeps its water and keeps every other day |
| DailyTable.SetStepsIdempotent | backend/server.js:167-177 | the step write is absolute: writing 8000 twice leaves 8000, not 16000 |
| DailyTable.AddStepsEffect | backend/server.js:124-131 | crediting `n` steps raises that day's steps by exactly `n` from its previous value (0 for a new day), keeps its water and every other day |
| DailyTable.MissingDateReadsZero | backend/server.js:75-83 | a day with no record reads as water 0 and steps 0 |
| Collections.InsertDesc | backend/server.js:70-71 | inserting into a list sorted by descending key keeps it sorted, adds exactly the new element (same multiset plus it) |
| Collections.SortDesc | backend/server.js:70-71 | `sort({ date: -1 })`: the result is sorted by descending date and is a permutation of the input |
| Collections.Without | backend/server.js:137 | after deleting by id no entry has that id, and every other entry is kept |
| Collections.WithoutAbsent | backend/server.js:136-139 | deleting an id nobody has changes nothing |
| Collections.WithoutAt | backend/server.js:136-139 | with unique ids, deleting the id found at `i` removes exactly position `i` and keeps the order of the rest |
| Collections.RemoveAtKeepsIds | backend/server.js:136-139 | removing one entry keeps the ids unique and below the next id to hand out |
| Collections.FindById | backend/server.js:137 | the search returns the position of the first entry with the id, or the length when none has it |
| Server.DefaultGoalsComplete | backend/server.js:31-36 | the schema defaults name every goal, so a newly created user has all four |
| Server.MergeGoals | backend/server.js:110 | `{ ...goals, ...body }`: every key of the body takes the body's value, every other key keeps its old value, and no key is lost |
| Server.MergeStepsIntoDefaults | backend/server.js:110 | merging `{steps: 12000}` into the defaults gives calories 2500, steps 12000, active minutes 60, water 2500 |
| Server.AssignIdempotent | backend/server.js:101 | `Object.assign` of the same body twice equals once |
| Server.AssignNothing | backend/server.js:101 | assigning a body without fields leaves the profile as it was |
| Server.Assign | backend/server.js:101 | `Object.assign(user, req.body)` on the typed profile; specified by `Server.AssignEffect`, `AssignFullBody`, `AssignIdempotent` and `AssignNothing` |
| Server.AssignEffect | backend/server.js:101 | each field the body supplies takes the body's value, and each field it leaves out keeps the stored value |
| Server.AssignFullBody | backend/server.js:96-102 | a body with all seven fields makes the same profile whatever was stored before, so a full update equals a fresh create |
| Server.TargetDate | backend/server.js:157 | `date ? date : today`: an absent or empty date means today; its use is stated by `Server.Store.PostWater` and `PostSteps` |
| Server.StepsEstimate | backend/server.js:130 | 100 steps per minute of duration, 0 for a missing one; its use is stated by `Server.Store.PostWorkout` through `DailyTable.AddStepsEffect` |
| Server.Store.constructor | backend/server.js:22-61 | the store starts without a user and with no workouts, meals or daily records |
| Server.Store.FindDaily | backend/server.js:159 | the loop returns the index the table lookup specifies, a record with the date when it is not -1, and -1 exactly when no record has the date |
| Server.Store.SaveDaily | backend/server.js:162-163 | saving a found (or newly created) record puts it in the table as `Put` says and keeps one record per date |
| Server.Store.GetData | backend/server.js:67-86 | the snapshot carries the user (or none), workouts and meals as descending-date permutations of the stored ones, the user's goals or an empty map without a user, today's water and steps (0 without a record for today), and the full daily history |
| Server.Store.PostUser | backend/server.js:94-105 | without a user a new one is created from the body with the default goals; with one, the body's fields overwrite the profile and the goals stay; nothing else changes |
| Server.Store.PostGoals | backend/server.js:107-116 | without a user the answer is "user not found" and nothing changes; with one, the goals become the merge of the body into them and are returned |
| Server.Store.PostWorkout | backend/server.js:119-134 | exactly one workout is appended, with a new id and the body's date or now; today's steps rise by 100 per minute of duration (0 for a missing duration) and every other day is kept |
| Server.Store.DeleteWorkout | backend/server.js:136-139 | the answer is always success; the workout list loses the entry with that id (or stays as it was) and nothing else changes |
| Server.Store.PostMeal | backend/server.js:142-146 | exactly one meal is appended, with a new id and the body's date or now; nothing else changes |
| Server.Store.DeleteMeal | backend/server.js:148-151 | the answer is always success; the meal list loses the entry with that id and nothing else changes |
| Server.Store.PostWater | backend/server.js:155-165 | the target day is the given date, or today when it is absent or empty; its water becomes the amount, which is echoed with the date; the rest of the state stays |
| Server.Store.PostSteps | backend/server.js:167-177 | the target day is the given date or today; its steps become the value, which is echoed with the date; the rest of the state stays |
| Server.RepeatWater | backend/server.js:155-165 | posting the same water amount twice leaves the store as one post does: the daily table is one write's result, and user, workouts, meals and next id are unchanged |
| Server.RepeatSteps | backend/server.js:167-177 | posting the same step count twice leaves the table as one post does and that day's steps equal to the value; user, workouts, meals and next id are unchanged |
| AppProvider.LoadRule | src/context/AppProvider.jsx:12-22 | a missing or falsy saved value keeps the default (empty user fields, empty lists, 0 water); a saved object or list is restored as saved |
| AppProvider.ReloadRestoresSaved | src/context/AppProvider.jsx:9-42 | every value the save effects write reloads to itself; a saved water of 0 is not restored but the default is 0 anyway |
| AppProvider.Truthy | src/context/AppProvider.jsx:18-21 | the `if (saved...)` test: null and 0 are falsy, every object and list is truthy; specified with the loaders by `AppProvider.LoadRule` |
| AppProvider.Read | src/context/AppProvider.jsx:13-16 | `JSON.parse(localStorage.getItem(key))`: the stored value, or null for a missing key; its use is stated by `AppProvider.Provider.constructor`, `LoadRule` and `Reopen` |
| AppProvider.LoadUser | src/context/AppProvider.jsx:13 | the user slice the load step installs; specified by `AppProvider.LoadRule` and `ReloadRestoresSaved` |
| AppProvider.LoadWorkouts | src/context/AppProvider.jsx:14 | the workouts slice the load step installs; specified by `AppProvider.LoadRule` |
| AppProvider.LoadDiet | src/context/AppProvider.jsx:15 | the diet slice the load step installs; specified by `AppProvider.LoadRule` |
| AppProvider.LoadWater | src/context/AppProvider.jsx:16 | the water slice the load step installs; specified by `AppProvider.LoadRule` and `ReloadRestoresSaved` |
| AppProvider.Provider.constructor | src/context/AppProvider.jsx:6-42 | mounting over a store starts from the defaults, restores what the load rule allows, and then writes every slice back under its key |
| AppProvider.Provider.SetUser | src/context/AppProvider.jsx:24-27 | setting the user changes only the user and its stored copy under "user" |
| AppProvider.Provider.SetWorkouts | src/context/AppProvider.jsx:29-32 | setting the workouts changes only the workouts and their stored copy |
| AppProvider.Provider.SetDiet | src/context/AppProvider.jsx:34-37 | setting the diet changes only the diet and its stored copy |
| AppProvider.Provider.SetWaterIntake | src/context/AppProvider.jsx:39-42 | setting the water intake changes only it and its stored copy |
| AppProvider.Reopen | src/context/AppProvider.jsx:12-42 | a provider mounted over the storage another provider wrote has the same user, workouts, diet and water |
| DailyLog.OnDay | src/pages/DailyLog.jsx:14-15 | the filter keeps exactly the entries whose timestamp falls on the selected day |
| DailyLog.OnDayAppend | src/pages/DailyLog.jsx:14-15 | filtering a concatenation is the concatenation of the filtered parts, so the original order is kept |
| DailyLog.OnDayCounts | src/pages/DailyLog.jsx:14-15 | each entry on the day is shown as many times as it occurs in the log, and no entry off the day is shown |
| DailyLog.OnDayIdempotent | src/pages/DailyLog.jsx:14-15 | filtering twice by the same day equals filtering once |
| DailyLog.IsToday | src/pages/DailyLog.jsx:16 | the selected day is the date part of now; its effect on the page is stated by `DailyLog.View` and `OpenedPageShowsToday` |
| DailyLog.View | src/pages/DailyLog.jsx:14-16 | the page shows the selected day's workouts and meals, as the `OnDay` filters of the lists (so in log order and with their counts), and the water intake exactly when the selected day is today |
| DailyLog.InitialSelection | src/pages/DailyLog.jsx:7 | the selected date starts as today; stated by `DailyLog.OpenedPageShowsToday` (the opened page shows today's water) |
| DailyLog.OpenedPageShowsToday | src/pages/DailyLog.jsx:7-16 | a freshly opened page selects today and so shows the current water intake |
| StepsPage.ParseShowsBack | src/pages/Steps.jsx:20-23 | parsing the decimal rendering of any integer gives that integer back |
| StepsPage.ParseIntOr0 | src/pages/Steps.jsx:17 | `parseInt` with the falsy fallback to 0: the value of an optionally signed decimal integer, else 0; specified by `StepsPage.ParseShowsBack` and `UnparsableCountsAsZero` |
| StepsPage.Adjusted | src/pages/Steps.jsx:21 | the parsed value plus the amount, clamped below at 0; specified by `StepsPage.AdjustedIsClampedSum`, `AdjustTwice` and `ButtonEffects` |
| StepsPage.AdjustedIsClampedSum | src/pages/Steps.jsx:21 | the adjusted value is the larger of 0 and the parsed value plus the amount |
| StepsPage.UnparsableCountsAsZero | src/pages/Steps.jsx:17-21 | text that is not a number (including a lone or sign-led non-number such as "-" or "-abc") counts as 0, so an adjustment from it gives the amount clamped at 0 |
| StepsPage.AdjustTwice | src/pages/Steps.jsx:20-24 | two adjustments in a row compose: the second starts from the clamped value the first displayed |
| StepsPage.ProgressBounds | src/pages/Steps.jsx:26 | progress is capped at 100, is the exact percentage below the goal, is 100 at or over it, and is never negative for a non-negative count |
| StepsPage.Progress | src/pages/Steps.jsx:26 | `Math.min((steps / goal) * 100, 100)` for a positive goal; specified by `StepsPage.ProgressBounds` |
| StepsPage.ButtonEffects | src/pages/Steps.jsx:59-85 | from a shown count, each of +100, +500, +1k and +5k adds exactly its amount, -100 stops at 0, and each sent value reads back unchanged |
| StepsPage.Page.ProgressFor | src/pages/Steps.jsx:26 | the bar's percentage for the shown count is at most 100, never negative for a non-negative count, and 100 once the goal is reached |
| StepsPage.Page.constructor | src/pages/Steps.jsx:10 | the local value starts as the provider's step count |
| StepsPage.Page.Render | src/pages/Steps.jsx:12-14 | the local value is reset to the provider's count only when that count changed since the last render |
| StepsPage.Page.Edit | src/pages/Steps.jsx:66 | typing replaces the local text |
| StepsPage.Page.HandleUpdate | src/pages/Steps.jsx:16-18 | on blur the parsed local value (0 when unparsable) is sent, and the local text stays |
| StepsPage.Page.AdjustSteps | src/pages/Steps.jsx:20-24 | a button stores the clamped sum locally and sends that same non-negative value |
| WaterPage.PressesAdd | src/pages/Water.jsx:10-12 | without a Reset, the intake is the starting intake plus 250 per "+250ml" and 500 per "+500ml" pressed |
| WaterPage.PressesKeepNonNegative | src/pages/Water.jsx:25-27 | from a non-negative intake, no sequence of buttons makes it negative |
| WaterPage.ResetForgetsHistory | src/pages/Water.jsx:27 | after a Reset, the intake depends only on the buttons pressed since |
| WaterPage.Pressed | src/pages/Water.jsx:25-27 | one button press: +250, +500 or back to 0; specified over press sequences by `WaterPage.PressesAdd`, `PressesKeepNonNegative` and `ResetForgetsHistory` |
| WaterPage.PressAll | src/pages/Water.jsx:10-12 | the intake after a sequence of presses in order; specified by `WaterPage.PressesAdd`, `PressesKeepNonNegative` and `ResetForgetsHistory` |
| WaterPage.Page.constructor | src/pages/Water.jsx:8 | the page's date starts as today |
| WaterPage.Page.SetDate | src/pages/Water.jsx:22 | choosing a date changes only the page's date, not the intake |
| WaterPage.Page.AddWater | src/pages/Water.jsx:10-12 | adding adds to the provider's intake regardless of the chosen date; the other slices stay and storage changes only under "waterIntake" |
| WaterPage.Page.Press | src/pages/Water.jsx:25-27 | each button sets the intake to what `Pressed` says (+250, +500 or 0); the other slices stay and storage changes only under "waterIntake" |
| WorkoutPage.SubmitEffect | src/pages/Workout.jsx:13-20 | with type, duration and date filled in, the workout is appended and type and duration are cleared (date kept); otherwise nothing changes |
| WorkoutPage.SubmitTwiceAddsOnce | src/pages/Workout.jsx:13-20 | a second click right after a successful add adds nothing, because the form was cleared |
| WorkoutPage.SubmitShowsOnItsDay | src/pages/Workout.jsx:13-16 | a workout added for a date shows up in the Daily Log for that date |
| WorkoutPage.Submit | src/pages/Workout.jsx:13-20 | `addWorkout` on the form and the list; specified by `WorkoutPage.SubmitEffect`, `SubmitTwiceAddsOnce` and `SubmitShowsOnItsDay` |
| WorkoutPage.Complete | src/pages/Workout.jsx:14 | `type && duration && date`: all three fields non-empty; its effect is stated by `WorkoutPage.SubmitEffect` (a complete form adds, any other changes nothing) |
| WorkoutPage.Page.constructor | src/pages/Workout.jsx:9-11 | the form starts with empty type and duration and today's date |
| WorkoutPage.Page.SetKind | src/pages/Workout.jsx:35 | typing a type changes only the type |
| WorkoutPage.Page.SetDuration | src/pages/Workout.jsx:41 | typing a duration changes only the duration |
| WorkoutPage.Page.SetDate | src/pages/Workout.jsx:30 | picking a date changes only the date |
| WorkoutPage.Page.AddWorkout | src/pages/Workout.jsx:13-20 | the form and the provider's workouts become what `Submit` says; storage changes only under "workouts", and not at all for an incomplete form |
| DietPage.SubmitEffect | src/pages/Diet.jsx:12-18 | with food, calories and date filled in, the meal is appended and food and calories are cleared (date kept); otherwise nothing changes |
| DietPage.SubmitTwiceAddsOnce | src/pages/Diet.jsx:12-18 | a second click right after a successful add adds nothing |
| DietPage.SubmitShowsOnItsDay | src/pages/Diet.jsx:12-14 | a meal added for a date shows up in the Daily Log for that date |
| DietPage.Submit | src/pages/Diet.jsx:12-18 | `addMeal` on the form and the list; specified by `DietPage.SubmitEffect`, `SubmitTwiceAddsOnce` and `SubmitShowsOnItsDay` |
| DietPage.Complete | src/pages/Diet.jsx:13 | `food && calories && date`: all three fields non-empty; its effect is stated by `DietPage.SubmitEffect` (a complete form adds, any other changes nothing) |
| DietPage.Page.constructor | src/pages/Diet.jsx:8-10 | the form starts with empty food and calories and today's date |
| DietPage.Page.SetFood | src/pages/Diet.jsx:33 | typing a food changes only the food |
| DietPage.Page.SetCalories | src/pages/Diet.jsx:39 | typing calories changes only the calories |
| DietPage.Page.SetDate | src/pages/Diet.jsx:28 | picking a date changes only the date |
| DietPage.Page.AddMeal | src/pages/Diet.jsx:12-18 | the form and the provider's diet become what `Submit` says; storage changes only under "diet", and not at all for an incomplete form |
| ProfilePage.ChangeEffect | src/pages/Profile.jsx:9-12 | an edit sets the named field to the typed value and keeps every other field |
| ProfilePage.ChangeIdempotent | src/pages/Profile.jsx:9-12 | repeating the same edit changes nothing more |
| ProfilePage.EditableFieldsAreUserFields | src/pages/Profile.jsx:18-21 | the four inputs (name, age, height, weight) are exactly the default user's fields, so an edit never adds a field to a user that has them (the default user or the seven-field onboarded one) |
| ProfilePage.Changed | src/pages/Profile.jsx:11 | `{ ...user, [name]: value }`; specified by `ProfilePage.ChangeEffect` and `ChangeIdempotent` |
| ProfilePage.HandleChange | src/pages/Profile.jsx:9-12 | the provider's user becomes the edited record; the other slices stay and storage changes only under "user" |
| OnboardingPage.ApplyKeepsReachable | src/pages/Onboarding.jsx:23-26 | no click or input takes a wizard out of steps 1..3, or past step 1 without a name |
| OnboardingPage.RunStaysReachable | src/pages/Onboarding.jsx:119-124 | from the initial wizard, any sequence of Next, Back and inputs keeps the step in 1..3 with a name past step 1 |
| OnboardingPage.FinishOnlyFromLastStep | src/pages/Onboarding.jsx:23-31 | `finish()` is reached only from step 3, where the button reads "Get Started", and with a name filled in |
| OnboardingPage.InputChangesOneField | src/pages/Onboarding.jsx:44-111 | an input of the current step changes only its own field and not the step |
| OnboardingPage.FieldsOfStep | src/pages/Onboarding.jsx:44-116 | the inputs each step renders; specified by `OnboardingPage.StepsCoverForm`, and it decides what `InputChangesOneField` and `Flow.Edit` let an input change |
| OnboardingPage.StepsCoverForm | src/pages/Onboarding.jsx:44-116 | each of the seven form fields has an input on exactly one of the steps 1, 2 and 3, and no other step renders an input |
| OnboardingPage.Apply | src/pages/Onboarding.jsx:23-124 | the wizard after one click or input; specified by `OnboardingPage.ApplyKeepsReachable`, `RunStaysReachable` and `InputChangesOneField` |
| OnboardingPage.NextDisabled | src/pages/Onboarding.jsx:123 | `!formData.name && step === 1`; its consequence is stated by `OnboardingPage.RunStaysReachable` (no step past 1 without a name) and `Flow.ClickNext` |
| OnboardingPage.NextLabel | src/pages/Onboarding.jsx:124 | "Get Started" on step 3, else "Next"; stated by `OnboardingPage.FinishOnlyFromLastStep` (finishing happens under "Get Started") |
| OnboardingPage.Flow.constructor | src/pages/Onboarding.jsx:12-21 | the wizard starts at step 1 with the default form (goal "Lose Weight", gender "Male", the rest empty) |
| OnboardingPage.Flow.Finish | src/pages/Onboarding.jsx:28-31 | the provider's user becomes the form, the app navigates to "/", the other slices stay, and storage changes only under "user" |
| OnboardingPage.Flow.NextStep | src/pages/Onboarding.jsx:23-26 | below step 3 the step advances and storage stays; on step 3 the form is handed to the provider, storage changes only under "user", and the app navigates to "/" |
| OnboardingPage.Flow.ClickNext | src/pages/Onboarding.jsx:123-124 | a click does nothing while the button is disabled (step 1, empty name), storage included, and otherwise acts as `nextStep`; storage changes only under "user", and only when the click finishes |
| OnboardingPage.Flow.ClickBack | src/pages/Onboarding.jsx:119-120 | Back goes one step back, and exists only past step 1 |
| OnboardingPage.Flow.Edit | src/pages/Onboarding.jsx:44-116 | typing into an input of the current step sets that field only |
| Layout.Split | src/components/Layout.jsx:22 | `split(' ')` gives at least one piece and no piece contains a space |
| Layout.SplitJoin | src/components/Layout.jsx:22 | joining the pieces with single spaces gives back the name, so splitting loses nothing |
| Layout.Upper | src/components/Layout.jsx:22 | upper-casing keeps the length and maps each character by itself |
| Layout.Firsts | src/components/Layout.jsx:22 | `.map(n => n[0]).join('')`, where an empty word contributes nothing; specified by `Layout.FirstsOfSplit` |
| Layout.Take2 | src/components/Layout.jsx:22 | `.substring(0, 2)`; its bound and content are stated by `Layout.Initials` and `InitialsAreWordStarts` |
| Layout.Initials | src/components/Layout.jsx:21-23 | without a name the avatar shows "U"; otherwise it shows at most two characters |
| Layout.FirstsOfSplit | src/components/Layout.jsx:22 | the first characters of the space-separated words, joined, are exactly the non-space characters that start the name or follow a space |
| Layout.InitialsAreWordStarts | src/components/Layout.jsx:21-23 | for a non-empty name the avatar shows the first two word starts, upper-cased |
| Layout.BlankNameGivesNoInitials | src/components/Layout.jsx:21-23 | a name made of one space passes the guard and gives an empty avatar |
| Layout.InitialsOrDefault | src/components/Layout.jsx:21-23 | the corrected avatar always has one or two characters: "U" when the name has no word start, else the first two upper-cased |
| Layout.DisplayName | src/components/Layout.jsx:61 | the name when there is one, and "Guest" when it is empty or missing |
| Layout.DisplayEmail | src/components/Layout.jsx:62 | the e-mail when there is one, and "No Email" when it is empty or missing |
| Layout.IsActive | src/components/Layout.jsx:37 | `location.pathname === item.path`; specified by `Layout.AtMostOneActive` |
| Layout.NavItems | src/components/Layout.jsx:11-18 | the six navigation entries with their paths; stated by `Layout.AtMostOneActive` (distinct paths, and the set of paths that highlight an entry) |
| Layout.AtMostOneActive | src/components/Layout.jsx:11-37 | at most one of the six entries is highlighted for any location, and one is highlighted exactly when the location is one of their paths |

## Left out

- MongoDB and Mongoose persistence, the connection, `save()`, Express, CORS and body-parser wiring, and `app.listen`. The store is in memory, and each handler runs atomically. Interleaving of concurrent requests across `await` points is not modelled.
- Mongoose schema casting and strict-mode stripping of unknown fields. Request bodies are typed records. In the POST /api/user, /api/workouts and /api/meals bodies every field is either given or absent. POST /api/water and POST /api/steps are assumed to carry `amount` and `steps`: the model does not cover a body without them, for which the source stores `undefined` and answers without the field. An explicit `null` is not distinguished from an absent field.
- The `goals` key inside a POST /api/user body, which Mongoose would also assign.
- Identities are a counter `nextId`, not ObjectIds. A malformed id string makes Mongoose throw a cast error that the route does not catch; this is not modelled.
- The 500 answer of GET /api/data, which only arises when the database fails.
- The tie order of `sort({ date: -1 })` among equal dates, which MongoDB does not fix. The model proves only "sorted and a permutation".
- Numeric fields are integers: no fractional durations, calories or amounts, and no NaN. Because of this, `workout.duration || 0` only has to handle a missing duration.
- The `/api/chart-data` stub, which always returns an empty list.
- The clock and time zones. "Now" is two unrelated parameters, an ISO string and a millisecond count. Converting a stored timestamp with `new Date(...)` is modelled as taking the text before 'T'. This means a shift into UTC is not modelled, and neither is an invalid date that throws.
- React rendering, hook scheduling and effect ordering. Setters are modelled as immediate sequential calls.
- StrictMode's double invocation of the load and save effects in development. There, the defaults are written before the second load, so saved data can be lost.
- JSON serialisation and `localStorage` are abstracted as a map from key to a tagged saved value. JavaScript would install a truthy value of the wrong shape. In the model only a value of the slice's own shape is restored.
- `parseInt` is modelled as an optional sign followed by decimal digits, and anything else reads as 0. Leading whitespace, trailing text ("12abc" gives 12 in JavaScript), exponents and hexadecimal are not modelled.
- StepsPage.ProgressBounds: requires a positive goal. With a goal of 0, JavaScript gives 100 for a positive count, NaN for a count of 0 and -Infinity for a negative count. A negative goal gives the finite value 100 × count ÷ goal, capped at 100.
- StepsPage.Progress: uses the parsed local value where the source divides the raw text (`Number` coercion). It drops `Math.round` and the CSS width.
- The provider members the Steps page and the Layout read but `AppProvider` does not define (`stats`, `goals`, `updateSteps`, `logout`). The step count and goal are parameters, and each value sent to `updateSteps` is recorded in the page's `sent` list. `logout` is not modelled.
- Navigation after onboarding is recorded as the path in `navigatedTo`; the router itself is not modelled. Nothing forces the wizard's select inputs to their listed options.
- Layout.Upper: upper-cases ASCII letters only. Full Unicode case mapping can lengthen a string (for example 'ß' becomes "SS"), and then the avatar could exceed two characters. `substring` counts UTF-16 code units, not characters.
- Layout.Initials: is the code as written. The corrected `Layout.InitialsOrDefault` is not wired into a page model, because the Layout markup is not modelled.
- Dashboard, routes, `main.jsx`, InputCard, WorkoutCard, and all JSX markup and styling.

## Findings

| source | as written | input that shows it | evidently intended | confidence | as-written member | corrected member |
|---|---|---|---|---|---|---|
| src/components/Layout.jsx:21-23 | the 'U' fallback is guarded by the name being non-empty, not by the initials being non-empty | a user named " " (one space). The Onboarding wizard accepts it, because Next is only disabled for an empty name. It splits into two empty words, so the avatar is empty | the avatar always shows something, 'U' when the name yields no initials | medium, not executed | Layout.BlankNameGivesNoInitials | Layout.InitialsOrDefault |
