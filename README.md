# Fitness journal: a verified model of the workout session core

This project models the client-side session core of the fitness journal, an offline-first workout tracker that runs in the browser. It covers:

- the journal state: the signed-in user and each user's record of finished workouts, the active workout, exercise history, templates and exercise library;
- the start-up migration of stored records;
- the workout lifecycle: start, pause and resume timers, finish with history write-back;
- exercise and set editing, and templates;
- the state effects of registering, signing in and signing out, with the server's reply taken as an input;
- the page handlers that complete sets and start the rest countdown automatically;
- the derived display: the `MM:SS` clock, the rest countdown, the history newest first, exercise suggestions, the summary and the home buttons.

Layout, one module per file:

| file | module | models |
|---|---|---|
| wrappers.dfy | `Wrappers` | `Option` |
| text.dfy | `Text` | the JavaScript string built-ins the core relies on: `trim`, `toLowerCase`, `includes`, `String(n)`, `padStart(2, "0")`, `%`, `join` |
| timer.dfy | `Timer` | the workout clock's arithmetic and a reference definition of running time |
| workouts.dfy | `Workouts` | the workout object (a class: it is shared by reference), its sets and exercises, history records, the library and templates |
| journal.dfy | `Journal` | `js/state.js`: the global `state`, migration and every state operation |
| auth.dfy | `Auth` | `js/auth.js`: record normalisation, the trusted-device marker, register, login, logout |
| display.dfy | `Display` | `js/ui.js`: the display derivations and the module-level timer state |
| app.dfy | `App` | the event handlers of `app.js` and `js/app.js` |

Objects the source mutates in place are classes with `modifies` frames:

- `Workouts.Workout`, the workout;
- `Journal.State`, the global `state`;
- `Auth.Device`, the `trustedUser` entry in local storage;
- `Display.Timers`, the interval handles and countdown of `js/ui.js`;
- `App.Controller`, the page's `activeWorkout` and inputs.

Each user's record is a value in `State.users`. No code keeps a user object across calls, so in-place writes to its fields are modelled as replacing the map entry.

Every call of `saveState`/`persistState` is counted in `State.saves`. Clock readings, generated ids, the date and the server's reply are parameters. Each interval callback is an explicit method call: `Timers.ClockTick`, `Timers.RestTick`.

## Model

| member | source | states |
|---|---|---|
| Text.Trim | js/state.js:146-147 | the result is a contiguous piece of the input with no white space at either end, and it is empty exactly when the input is all white space |
| Text.Lower | js/ui.js:391-394 | every ASCII capital becomes its lower-case letter, every other character is kept, and no capital is left |
| Text.TrimIdempotent | app.js:198-201 | trimming a trimmed name changes nothing, so the modal's trim and the journal's trim agree |
| Text.NatToString | js/ui.js:209-210 | `String(n)` is decimal digits only, at least one, with no leading zero except for 0 itself, and at most two digits below 100 |
| Text.NatToStringRoundTrip | js/ui.js:209-210 | the decimal text of a number reads back as that number |
| Text.PadKeepsValue | js/ui.js:209-210 | zero padding to two digits keeps the value of a digit string |
| Text.PadStart2 | js/ui.js:209-210 | an input of two or more characters is returned as it is, a shorter one gets leading "0"s up to two characters, and a digit string stays a digit string |
| Text.JsRem | js/ui.js:210 | the JavaScript remainder: the dividend minus the divisor times the quotient truncated toward zero, smaller than the divisor in magnitude, never positive for a negative dividend, and the ordinary remainder for a non-negative one |
| Timer.PauseSpec | js/state.js:76-84 | pausing a running clock adds the whole seconds since the start and clears the start; pausing a stopped clock is a no-op, so pausing twice is pausing once |
| Timer.StartKeepsElapsed | js/state.js:70-74 | starting never changes the accumulated seconds, and the clock then runs from that total |
| Timer.PauseKeepsTotal | js/state.js:76-84 | the displayed total is the same just before and just after a pause |
| Timer.ResumeTotal | js/state.js:86-90 | resuming shows the accumulated seconds, and leaves a paused clock's total unchanged |
| Timer.TotalMonotone | js/ui.js:201-206 | the displayed total never decreases as time advances |
| Timer.ReplayTotalBounds | js/state.js:70-90 | after any chronological sequence of pauses and resumes, the total is at most the true running time in seconds, and, when every resume follows a pause, below it by less than one second per pause plus one |
| Workouts.Workout.Create | js/state.js:51-65 | a new workout has no name or exercises, today's date, a stopped clock at 0, and a 30-second rest timer switched on |
| Workouts.Workout.Clone | js/app.js:211 | the copy has the same field values as the original |
| Workouts.Workout.StartTimer | js/state.js:70-74 | the clock starts at `now`, is not paused, and keeps its accumulated seconds |
| Workouts.Workout.PauseTimer | js/state.js:76-84 | the clock's new state is the pause of its old one |
| Workouts.Workout.ResumeTimer | js/state.js:86-90 | the clock restarts at `now`, is not paused, and keeps its accumulated seconds |
| Workouts.HasWorkoutData | js/state.js:203-213 | true exactly when the workout exists and some set of some exercise has a non-empty weight or reps |
| Workouts.WithField | js/state.js:187-198 | only the named field is written; `completed` is forced off for an empty value and kept otherwise |
| Workouts.SpliceOne | js/state.js:180-185 | an in-range index removes exactly that set and keeps the others in order; an index past the end removes nothing |
| Workouts.EntryOf | js/state.js:125-131 | the history entry lists each set's weight and reps in order, dated with the workout's date |
| Workouts.RecordHistoryUntouched | js/state.js:124-132 | finishing a workout leaves every history key outside its exercise names as it was, present or absent |
| Workouts.RecordHistoryLastWins | js/state.js:124-132 | each exercise name's history is overwritten with the sets of the last exercise of that name |
| Workouts.PreviousAfterFinish | js/state.js:124-161 | after a finish, adding an exercise of that name again shows its final sets as `previous` |
| Workouts.LibraryWith | js/state.js:149-151 | the library then contains the name, gains it only if absent (keeping everything before it), and never gains a duplicate |
| Workouts.FindTemplate | js/state.js:240-241 | no result exactly when no template has the id; otherwise the first one with it |
| Workouts.WithoutTemplate | js/state.js:256-262 | deleting never lengthens the template list |
| Workouts.WithoutTemplateMembers | js/state.js:260 | a template survives deletion exactly when its id differs from the deleted one |
| Workouts.WithoutTemplateAppend | js/state.js:260 | filtering keeps the order of the surviving templates |
| Workouts.WithoutAbsentTemplate | js/state.js:260 | deleting an unknown id changes nothing |
| Auth.Device.constructor | js/auth.js:8-19 | the device starts with the stored `trustedUser` marker |
| Journal.MigrateIdempotent | js/state.js:20-26 | a complete record is a fixed point of the migration, so migrating twice is migrating once |
| Journal.StartupUsers | js/state.js:4-14 | an unreadable store or one without users gives no users; otherwise each stored user is migrated |
| Journal.State.Load | js/state.js:4-26 | start-up state: the stored user name (none for an unreadable store), migrated users, nothing saved yet |
| Journal.State.GetCurrentUser | js/state.js:43-46 | a record exactly when the signed-in name is non-empty and known, and then that user's record |
| Journal.StartWorkout | js/state.js:95-103 | without a user, nothing happens and the result is null; otherwise a fresh running workout becomes the active one, is saved and is returned |
| Journal.ResumeWorkout | js/state.js:105-109 | the signed-in user's active workout, or null |
| Journal.FinishWorkout | js/state.js:111-137 | the clock pauses. Without data the workout is dropped. With data the history is written per exercise and the workout is appended last. Either way the active workout is cleared and the state saved |
| Journal.AddExerciseToWorkout | js/state.js:142-166 | a blank name changes nothing; otherwise exactly one exercise with the trimmed name, one empty set and the history snapshot is appended, and the library registers the name |
| Journal.AddedExercisesTrimmed | js/state.js:146-158 | every exercise name in a workout stays trimmed and non-empty |
| Journal.AddSet | js/state.js:168-178 | one empty set is appended to the indexed exercise only, and the state saved |
| Journal.RemoveSet | js/state.js:180-185 | the indexed exercise's sets lose the set at the index (JavaScript `splice` rules), and the state saved |
| Journal.UpdateSet | js/state.js:187-198 | only the addressed set changes, by the field write rule, and the state saved |
| Journal.SaveTemplateFromWorkout | js/state.js:218-234 | exactly one template built from the workout is appended for the signed-in user |
| Journal.TemplateExercisesInOrder | js/state.js:246-248 | instantiating trimmed template names gives exercises with exactly those names, in order, each with one empty set |
| Journal.TemplateRoundTrip | js/state.js:218-248 | saving a workout as a template and starting from it gives back its exercise names in order |
| Journal.TemplateLibraryNoDuplicates | js/state.js:246-248 | starting from a template never puts a duplicate into the library |
| Journal.StartWorkoutFromTemplate | js/state.js:236-254 | null for no user, an empty id or an unknown id. Otherwise a fresh running workout named after the template becomes active with the template's exercises in order, and is returned |
| Journal.DeleteTemplate | js/state.js:256-262 | the signed-in user's templates keep, in order, exactly those with another id |
| Auth.NormalizeIdempotent | js/auth.js:24-35 | normalising a normalised record returns it unchanged whatever the time, and it fills the collections as the start-up migration does |
| Auth.RegisterUser | js/auth.js:40-63 | empty credentials, a refused request and a failed one (no network, or a body that is not JSON) throw and change nothing. An accepted request stores the normalised server record, signs the user in, trusts the device and saves |
| Auth.LoginUser | js/auth.js:68-96 | as registering, but a refusal reads "Invalid username or password", and the device is trusted exactly when asked to remember it |
| Auth.LogoutUser | js/auth.js:101-113 | nobody is signed in, the device is not trusted, every record is kept, the state saved |
| Display.ClockTextRoundTrip | js/ui.js:209-213 | a non-negative total prints as digits, a colon and two digits, at least `MM:SS` (exactly five characters below 100 minutes), and reads back as the total |
| Display.SummaryTimeRoundTrip | js/ui.js:301-310 | the summary time is digits, a colon and two digits, and reads back as the total |
| Display.ShortSummaryTime | js/ui.js:301-310 | below ten minutes the summary time is the clock text without its leading zero |
| Display.SummaryName | js/ui.js:303-304 | the summary shows the workout's name, or "Untitled Workout" when it has none |
| Display.AddSetCount | js/ui.js:315-319 | adding a set raises the summary's set count by exactly one |
| Display.RemoveSetCount | js/ui.js:315-319 | removing a set lowers it by one exactly when the index names a set |
| Display.Newest | js/ui.js:127-136 | one history line per workout, line i showing the i-th workout from the end |
| Display.RenderHistory | js/ui.js:120-138 | "No workouts yet" exactly for no workouts; otherwise one line per workout, newest first |
| Display.FinishedFirst | js/ui.js:120-138 | a workout just finished heads the history above the earlier ones |
| Display.Matching | js/ui.js:389-396 | the picker's suggestions are exactly the library names containing the filter case-insensitively |
| Display.MatchingAppend | js/ui.js:443-447 | filtering keeps library order |
| Display.EmptyFilterMatchesAll | js/ui.js:389-396 | the empty filter suggests the whole library |
| Display.ModalSuggestions | js/ui.js:443-447 | the modal shows the first six matches, or all of them when there are fewer |
| Display.TypedSuggestions | app.js:212-234 | nothing for an empty input, otherwise exactly the matching library names, in library order with repeats kept |
| Display.UpdateHomeButtons | js/ui.js:175-189 | exactly one of the two buttons shows, "continue" exactly when there is a workout to resume |
| Display.StopRest | js/ui.js:271-281 | no countdown runs, the panel is hidden and not complete, and the text stays |
| Display.StopRestIdempotent | js/ui.js:271-281 | stopping the countdown twice is stopping it once |
| Display.StartRestFresh | js/ui.js:240-248 | starting a rest gives the same fresh countdown from any state, so one never ticks alongside another |
| Display.CountingDown | js/ui.js:250-268 | each tick before the end takes one second off the remaining time, which is shown as `MM:SS` |
| Display.CountdownEnds | js/ui.js:250-263 | after as many ticks as it was started with (one for a non-positive start), the countdown has stopped itself and shows "GO!" |
| Display.StoppedStays | js/ui.js:250-263 | a stopped countdown never restarts by itself |
| Display.Timers.constructor | js/ui.js:194-238 | no clock interval and a stopped countdown at 0, as the module declares; the empty clock text, the resume button shown and the rest panel hidden are an assumed initial page, set by HTML that is not part of this model |
| Display.Timers.StopTimerUI | js/ui.js:217-222 | no clock interval runs afterwards |
| Display.Timers.ShowPause | js/ui.js:224-227 | the pause button shows |
| Display.Timers.ShowResume | js/ui.js:229-232 | the resume button shows |
| Display.Timers.StartTimerUI | js/ui.js:196-215 | the old clock interval is replaced by one on this workout, and the pause button shows |
| Display.Timers.ClockTick | js/ui.js:200-214 | the clock text is this workout's displayed total at `now`, and the workout is not changed |
| Display.Timers.StartRestTimer | js/ui.js:240-248 | the countdown state becomes the fresh start from `seconds` |
| Display.Timers.RestTick | js/ui.js:250-268 | the countdown state takes one tick |
| Display.Timers.StopRestTimer | js/ui.js:271-281 | the countdown state is stopped |
| Display.Timers.UpdateRestDisplay | js/ui.js:283-289 | the rest panel shows the remaining time as `MM:SS` and nothing else changes |
| App.AfterInput | app.js:263-274 | a set edit completes the set exactly when it is not completed afterwards yet both fields are filled |
| App.InputKeepsConsistent | app.js:263-279 | edits keep "completed exactly when filled", and rest is triggered only on the step from not completed to completed |
| App.ClearThenRefill | app.js:263-279 | clearing a field uncompletes a set, and refilling it completes it and triggers rest again |
| App.TemplateName | js/app.js:206-209 | the trimmed input, else the workout's name, else "New Template"; never empty |
| App.SavedTemplateName | js/app.js:206-216 | a template saved by the handler carries the handler's name, never the "Template" fallback |
| App.Seconds | app.js:299-314 | the 30-second button gives 30 seconds, the 60-second button 60 and the 90-second button 90 |
| App.Controller.constructor | app.js:37 | the page starts with no active workout, as app.js declares, over the given journal and timers; empty inputs, the rest box unchecked and no summary are an assumed initial page, set by HTML that is not part of this model |
| App.Controller.SyncRestToggle | js/app.js:82-86 | the rest checkbox shows the workout's setting, and is left alone without a workout |
| App.Controller.NewWorkout | js/app.js:171-180 | the name input is cleared in every case. Without a user the page's workout becomes null, and the journal and the timers are untouched. Otherwise the journal's fresh running workout becomes the page's and the user's active workout, and nothing else in the user's record changes. The state is saved once and the clock runs on the workout. No other page field and no countdown is written |
| App.Controller.Continue | js/app.js:182-192 | the page's workout becomes the one to resume. When there is none it becomes null and nothing else changes; otherwise the inputs follow it and its clock is displayed. Only those page fields and the clock display are written |
| App.Controller.OpenWorkout | app.js:163-168 | on entering the workout view the name input and the rest box follow the workout, and its clock is displayed |
| App.Controller.ExitWorkoutView | app.js:56-61 | the clock and the countdown stop, and nothing else changes |
| App.Controller.RestToggleChange | app.js:177-185 | the rest box follows the checkbox. With a workout, the workout's rest setting follows it too and unchecking cancels the countdown. Nothing else is written |
| App.Controller.ModalAdd | app.js:195-207 | no workout or a blank input changes nothing. With nobody signed in only the input is cleared. Otherwise the exercise is added exactly as the journal adds the raw input, the library updated, the state saved once with the same user signed in, and the input cleared |
| App.Controller.SetInput | app.js:257-280 | the set is edited by the completion rule. Rest starts with the workout's duration exactly when the edit completed the set and rest is on. Only the workout's exercises, the save count and the countdown are written |
| App.Controller.Pause | app.js:285-289 | the workout's clock pauses, the display stops and resume shows. Only the workout's clock fields and those two display fields are written |
| App.Controller.Resume | app.js:291-294 | the workout's clock restarts and is displayed. Only the workout's start and pause fields and the clock display are written |
| App.Controller.SetRestDuration | app.js:299-314 | nothing without a workout. Otherwise the duration becomes the button's seconds, rest is switched on, and a countdown of that length starts. Only those fields are written |
| App.Controller.CancelRest | app.js:316-318 | the countdown stops, and nothing else changes |
| App.Controller.Finish | app.js:324-333 | nothing without a workout. Otherwise clock and countdown stop, the workout is named from the input or "Untitled Workout", and the summary shows it, with its date or an empty text when it has none. With a user the journal finishes it: the clock pauses, the workout is appended and its history written when it has data, or dropped otherwise, the active workout is cleared and the state saved once. Without a user the journal and the workout's clock are untouched |
| App.Controller.SaveTemplate | js/app.js:200-220 | nothing without a workout. Otherwise one template named by the handler, listing the workout's exercise names in order, is appended, and the workout itself is unchanged |
| App.Controller.TemplateClick | app.js:356-369 | a click without a template id does nothing. No user or an unknown id leaves the page without a workout and the journal untouched. Otherwise the started workout, with the template's name and exercises, becomes the page's and the user's active one, the library gains the names, the state is saved, and its clock runs |
| App.Controller.DeleteTemplateClick | app.js:345-354 | a confirmed click with a user deletes the template and saves once, keeping the user signed in; otherwise nothing changes |
| App.AutoSignIn | app.js:117-125 | the start-up sign-in happens exactly on a trusted device |

## Behaviour of the code worth knowing

- Nothing bumps `updatedAt` on a mutation. Only `normalizeUser` fills it, and only when it is missing.
- Signing in does not compare timestamps: the server's record replaces the local one unconditionally.
- Saving never enqueues a retry. `persistState` calls `saveState` and then `syncUserData` only if such a function exists (js/state.js:31-37), and none of the modelled files defines one. Of the two `saveState`s, only js/storage.js's starts a sync (js/storage.js:13-16); storage.js's does not.
- js/storage.js writes under `fitnessJournalState` but reads under `fitnessJournal` (js/storage.js:1-11), so with that file start-up does not read back what was saved. The model takes what start-up reads as the `Journal.Stored` input, whichever key it came from.
- Pausing adds the whole seconds of each running interval separately. After several pauses the total can therefore be below the true running time, by less than one second per pause. `Timer.ReplayTotalBounds` states the bound.

## Left out

- App.Controller: the handlers of `app.js` and `js/app.js` are treated as one page with one `activeWorkout`, each handler registered once. In the source each file keeps its own `activeWorkout` in its own `DOMContentLoaded` callback (app.js:37, js/app.js:51). Both register new-workout, continue, back, login and logout handlers, so one click can run two. The save-template handler reads only js/app.js's variable, while the template click, set input and finish write only app.js's. The model also assumes js/app.js's handlers get registered, which needs `processSyncQueue` (js/app.js:48) to be defined by a script that is not part of this model; as written, that callback stops there with a ReferenceError.
- The sync queue and timestamp reconciler are not part of this model. The code has neither: `processSyncQueue` is called (js/app.js:48-49) but defined in none of the modelled files.
- The background sync inside `persistState` and `logoutUser` is left out, as are `js/sync.js` and the server functions. They are network I/O whose errors are swallowed, and it never changes the local state.
- `storage.js` and `js/storage.js` are not part of this model. Loading is the `Journal.Stored` input to `Journal.State.Load`, and each save is counted in `State.saves` rather than written out.
- `sw.js` is not part of this model: it only caches assets.
- The DOM (screens, rendering, `alert`, `confirm`, `navigator.vibrate`, focus) and the scheduling of `setInterval` are left out. Ticks are explicit method calls.
- `Date.now()`, `crypto.randomUUID()` and the ISO date are parameters.
- The `confirm` dialog of the delete-template click (app.js:345-354) is the `confirmed` parameter of `App.Controller.DeleteTemplateClick`.
- Text.Lower: lower-cases ASCII letters only. The full Unicode case mapping of `toLowerCase` is not modelled.
- Text.Trim: models the ECMAScript white-space and line-terminator set only, with no Unicode category tables beyond it.
- Journal.UpdateSet: the field is `weight` or `reps` (the only names the page passes), not an arbitrary property name.
- Journal.AddSet, Journal.RemoveSet, Journal.UpdateSet, App.Controller.SetInput: an exercise or set index out of range makes the source throw. Here such an index is excluded by a precondition.
- App.Controller.NewWorkout: without a signed-in user the source throws while rendering the null workout. The model stops at that point: the timers are untouched.
- Display.Timers.ClockTick: for a null workout the source's interval throws on every tick. The model's tick leaves the text unchanged.
- Templates store their exercises as `{ name }` objects. The model stores the names.
- History and user keys are map keys. JavaScript objects' special keys such as `__proto__` are not modelled.
- Record fields whose type is wrong (a non-array `templates`, say) cannot be represented. This makes `deleteTemplate`'s `Array.isArray` guard always pass.
- The register, login and logout handlers' screen switching is left out. Their state effects are `Auth.RegisterUser`, `Auth.LoginUser` and `Auth.LogoutUser`.
- The history-item click and `renderWorkoutView` are left out: they only render.
