/**
 * The page controller of `app.js` and `js/app.js`: the workout the page is
 * editing, the inputs its handlers read, and the handlers that start,
 * continue, edit, time, finish and template workouts. Screen switching and
 * rendering are not modelled; the summary the finish handler shows is.
 */
module App {
  import opened Wrappers
  import opened Text
  import opened Workouts
  import opened Journal
  import opened Display
  import Auth
  import Timer

  /* ---------- Set completion and auto rest ---------- */

  /** A set edit's outcome: the set afterwards, and whether the edit just completed it. */
  datatype InputOutcome = InputOutcome(entry: SetEntry, completedNow: bool)

  /**
   * The set-input handler's rule: after `updateSet`, a set not yet completed
   * whose weight and reps are both filled becomes completed.
   */
  function AfterInput(s: SetEntry, field: Field, value: string): (r: InputOutcome)
    ensures r.completedNow <==> !WithField(s, field, value).completed && Filled(WithField(s, field, value))
    ensures r.entry.weight == WithField(s, field, value).weight && r.entry.reps == WithField(s, field, value).reps
    ensures r.entry.completed <==> WithField(s, field, value).completed || r.completedNow
  {
    var written := WithField(s, field, value);
    if !written.completed && Filled(written) then InputOutcome(written.(completed := true), true)
    else InputOutcome(written, false)
  }

  /** A set is consistent when it is marked completed exactly when both fields are filled. */
  predicate Consistent(s: SetEntry) {
    s.completed <==> Filled(s)
  }

  /**
   * Edits keep a consistent set consistent, and the rest countdown is
   * triggered exactly on the step from not completed to completed: never by
   * editing a set that is already completed.
   */
  lemma InputKeepsConsistent(s: SetEntry, field: Field, value: string)
    requires Consistent(s)
    ensures Consistent(AfterInput(s, field, value).entry)
    ensures AfterInput(s, field, value).completedNow <==> !s.completed && AfterInput(s, field, value).entry.completed
  {
  }

  /** Clearing a field uncompletes the set, and refilling it completes it, and so triggers rest, again. */
  lemma ClearThenRefill(s: SetEntry, field: Field, value: string)
    requires s.completed && Filled(s) && value != ""
    ensures var cleared := AfterInput(s, field, "").entry;
      && !cleared.completed
      && AfterInput(cleared, field, value).completedNow
  {
  }

  /** The three rest buttons. */
  datatype RestButton = Rest30 | Rest60 | Rest90

  function Seconds(b: RestButton): (s: int)
    ensures b == Rest30 ==> s == 30
    ensures b == Rest60 ==> s == 60
    ensures b == Rest90 ==> s == 90
  {
    match b
    case Rest30 => 30
    case Rest60 => 60
    case Rest90 => 90
  }

  /** The save-template handler's name: the trimmed input, else the workout's name, else "New Template". */
  function TemplateName(input: string, workoutName: string): (r: string)
    ensures r != ""
    ensures Trim(input) != "" ==> r == Trim(input)
    ensures Trim(input) == "" && workoutName != "" ==> r == workoutName
    ensures Trim(input) == "" && workoutName == "" ==> r == "New Template"
  {
    if Trim(input) != "" then Trim(input) else if workoutName != "" then workoutName else "New Template"
  }

  /** A template saved by the handler is named by the handler, never by the "Template" fallback. */
  lemma SavedTemplateName(input: string, w: Workout, templateId: string)
    ensures TemplateFrom(templateId, TemplateName(input, w.name), w.exercises).name == TemplateName(input, w.name)
  {
  }

  /** The page: the journal state, the timers, the workout being edited and the inputs the handlers read. */
  class Controller {
    const st: State
    const timers: Timers
    var activeWorkout: Workout?
    var nameInput: string
    var modalInput: string
    var restToggle: bool
    var summary: Option<Summary>

    constructor (st: State, timers: Timers)
      ensures this.st == st && this.timers == timers
      ensures activeWorkout == null && nameInput == "" && modalInput == "" && !restToggle && summary == None
    {
      this.st := st;
      this.timers := timers;
      activeWorkout := null;
      nameInput := "";
      modalInput := "";
      restToggle := false;
      summary := None;
    }

    /** The page's workout as a set of objects, empty when there is none: the frame of the handlers that edit it. */
    function ActiveSet(): set<Workout>
      reads this
    {
      if activeWorkout == null then {} else {activeWorkout}
    }

    /** `syncRestToggle()`: the checkbox shows the workout's rest setting. */
    method SyncRestToggle()
      modifies this`restToggle
      ensures activeWorkout != null ==> restToggle == activeWorkout.useRestTimer
      ensures activeWorkout == null ==> restToggle == old(restToggle)
    {
      if activeWorkout != null {
        restToggle := activeWorkout.useRestTimer;
      }
    }

    /**
     * The new-workout button: the started workout becomes the page's, the
     * name input is cleared and the clock runs on it. Rendering a missing
     * workout throws, so without a signed-in user the handler stops before
     * the clock.
     */
    method NewWorkout(id: string, date: string, now: int)
      modifies this`activeWorkout, this`nameInput, this`restToggle, st, timers`clockOf, timers`pauseShown
      ensures nameInput == ""
      ensures old(st.SignedIn()) ==>
        && activeWorkout != null && fresh(activeWorkout)
        && FreshlyStarted(activeWorkout, id, date, now)
        && activeWorkout == ResumeWorkout(st)
        && st.users == old(st.users)[old(st.Key()) := old(st.User()).(activeWorkout := activeWorkout)]
        && st.currentUser == old(st.currentUser)
        && st.saves == old(st.saves) + 1
        && restToggle && timers.clockOf == activeWorkout && timers.pauseShown
        && timers.rest == old(timers.rest)
      ensures !old(st.SignedIn()) ==>
        activeWorkout == null && restToggle == old(restToggle) && unchanged(st) && unchanged(timers)
    {
      activeWorkout := StartWorkout(st, id, date, now);
      nameInput := "";
      SyncRestToggle();
      if activeWorkout == null {
        return;
      }
      timers.StartTimerUI(activeWorkout);
    }

    /** The continue button: the workout to resume, if any, becomes the page's and its clock runs. */
    method Continue()
      modifies this`activeWorkout, this`nameInput, this`restToggle, timers`clockOf, timers`pauseShown
      ensures activeWorkout == ResumeWorkout(st)
      ensures activeWorkout == null ==> nameInput == old(nameInput) && restToggle == old(restToggle) && unchanged(timers)
      ensures activeWorkout != null ==>
        && nameInput == activeWorkout.name && restToggle == activeWorkout.useRestTimer
        && timers.clockOf == activeWorkout && timers.pauseShown
    {
      activeWorkout := ResumeWorkout(st);
      if activeWorkout == null {
        return;
      }
      OpenWorkout();
    }

    /** Entering the workout view: the inputs follow the page's workout and its clock is displayed. */
    method OpenWorkout()
      requires activeWorkout != null
      modifies this`nameInput, this`restToggle, timers`clockOf, timers`pauseShown
      ensures nameInput == activeWorkout.name && restToggle == activeWorkout.useRestTimer
      ensures timers.clockOf == activeWorkout && timers.pauseShown
    {
      nameInput := activeWorkout.name;
      SyncRestToggle();
      timers.StartTimerUI(activeWorkout);
    }

    /** The back buttons: the clock and the rest countdown stop. */
    method ExitWorkoutView()
      modifies timers`clockOf, timers`rest
      ensures timers.clockOf == null && timers.rest == StopRest(old(timers.rest))
      ensures timers.pauseShown == old(timers.pauseShown) && timers.timerText == old(timers.timerText)
    {
      timers.StopTimerUI();
      timers.StopRestTimer();
    }

    /** The rest toggle: the workout's rest setting follows the checkbox, and unchecking cancels the countdown. */
    method RestToggleChange(checked: bool)
      modifies this`restToggle, ActiveSet()`useRestTimer, timers`rest
      ensures restToggle == checked
      ensures activeWorkout == null ==> unchanged(timers)
      ensures activeWorkout != null ==>
        && activeWorkout.useRestTimer == checked
        && activeWorkout.restDuration == old(activeWorkout.restDuration)
        && activeWorkout.exercises == old(activeWorkout.exercises)
        && activeWorkout.Clock() == old(activeWorkout.Clock())
        && timers.rest == (if checked then old(timers.rest) else StopRest(old(timers.rest)))
        && timers.clockOf == old(timers.clockOf)
    {
      restToggle := checked;
      if activeWorkout == null {
        return;
      }
      activeWorkout.useRestTimer := checked;
      if !checked {
        timers.StopRestTimer();
      }
    }

    /**
     * The modal's add button: the trimmed input, when not empty, is added to
     * the workout and the input cleared. The journal trims again, to the same
     * name.
     */
    method ModalAdd(exerciseId: string)
      modifies this`modalInput, st, ActiveSet()`exercises
      ensures activeWorkout == null || Trim(old(modalInput)) == "" ==>
        modalInput == old(modalInput) && unchanged(st) && (activeWorkout != null ==> unchanged(activeWorkout))
      ensures activeWorkout != null && Trim(old(modalInput)) != "" ==> modalInput == ""
      ensures activeWorkout != null && !old(st.SignedIn()) ==> unchanged(st) && unchanged(activeWorkout)
      ensures activeWorkout != null && Trim(old(modalInput)) != "" && old(st.SignedIn()) ==>
        var u := old(st.User());
        && activeWorkout.exercises == AddedExercises(old(activeWorkout.exercises), exerciseId, old(modalInput), u.exerciseHistory)
        && st.users == old(st.users)[old(st.Key()) := u.(exerciseLibrary := AddedLibrary(u.exerciseLibrary, old(modalInput)))]
        && st.currentUser == old(st.currentUser)
        && st.saves == old(st.saves) + 1
    {
      if activeWorkout == null {
        return;
      }
      var name := Trim(modalInput);
      if name == "" {
        return;
      }
      TrimIdempotent(modalInput);
      AddExerciseToWorkout(st, activeWorkout, name, exerciseId);
      modalInput := "";
    }

    /**
     * The set-input handler: `updateSet`, then a set that has just become
     * filled is marked completed and, with rest on, the countdown starts
     * with the workout's rest duration.
     */
    method SetInput(exIndex: nat, setIndex: nat, field: Field, value: string)
      requires activeWorkout != null ==> exIndex < |activeWorkout.exercises| && setIndex < |activeWorkout.exercises[exIndex].sets|
      modifies st`saves, ActiveSet()`exercises, timers`rest
      ensures activeWorkout == null ==> unchanged(st) && unchanged(timers)
      ensures activeWorkout != null ==>
        var e := old(activeWorkout.exercises[exIndex]);
        var outcome := AfterInput(e.sets[setIndex], field, value);
        && activeWorkout.exercises == old(activeWorkout.exercises)[exIndex := e.(sets := e.sets[setIndex := outcome.entry])]
        && activeWorkout.useRestTimer == old(activeWorkout.useRestTimer)
        && activeWorkout.restDuration == old(activeWorkout.restDuration)
        && timers.rest == (if outcome.completedNow && activeWorkout.useRestTimer
                           then StartRest(old(timers.rest), activeWorkout.restDuration) else old(timers.rest))
        && timers.clockOf == old(timers.clockOf)
        && st.saves == old(st.saves) + 1
    {
      var w := activeWorkout;
      if w == null {
        return;
      }
      ghost var e0 := w.exercises[exIndex];
      UpdateSet(st, w, exIndex, setIndex, field, value);
      var e := w.exercises[exIndex];
      var s := e.sets[setIndex];
      if !s.completed && Filled(s) {
        assert e.sets[setIndex := s.(completed := true)] == e0.sets[setIndex := AfterInput(e0.sets[setIndex], field, value).entry];
        w.exercises := w.exercises[exIndex := e.(sets := e.sets[setIndex := s.(completed := true)])];
        if w.useRestTimer {
          timers.StartRestTimer(w.restDuration);
        }
      }
    }

    /** The pause button: the workout's clock pauses, the clock display stops and resume shows. */
    method Pause(now: int)
      modifies ActiveSet()`startTime, ActiveSet()`elapsedSeconds, ActiveSet()`isPaused, timers`clockOf, timers`pauseShown
      ensures activeWorkout != null ==>
        && activeWorkout.Clock() == Timer.Pause(old(activeWorkout.Clock()), now)
        && activeWorkout.exercises == old(activeWorkout.exercises)
      ensures timers.clockOf == null && !timers.pauseShown && timers.rest == old(timers.rest)
    {
      if activeWorkout != null {
        activeWorkout.PauseTimer(now);
      }
      timers.StopTimerUI();
      timers.ShowResume();
    }

    /** The resume button: the workout's clock runs again from `now`, displayed. */
    method Resume(now: int)
      modifies ActiveSet()`startTime, ActiveSet()`isPaused, timers`clockOf, timers`pauseShown
      ensures activeWorkout != null ==>
        && activeWorkout.Clock() == Timer.Start(old(activeWorkout.Clock()), now)
        && activeWorkout.exercises == old(activeWorkout.exercises)
      ensures timers.clockOf == activeWorkout && timers.pauseShown && timers.rest == old(timers.rest)
    {
      if activeWorkout != null {
        activeWorkout.ResumeTimer(now);
      }
      timers.StartTimerUI(activeWorkout);
    }

    /** `setRestDuration(seconds)` behind the 30, 60 and 90 second buttons. */
    method SetRestDuration(b: RestButton)
      modifies this`restToggle, ActiveSet()`restDuration, ActiveSet()`useRestTimer, timers`rest
      ensures activeWorkout == null ==> restToggle == old(restToggle) && unchanged(timers)
      ensures activeWorkout != null ==>
        && activeWorkout.restDuration == Seconds(b) && activeWorkout.useRestTimer && restToggle
        && activeWorkout.exercises == old(activeWorkout.exercises)
        && activeWorkout.Clock() == old(activeWorkout.Clock())
        && timers.rest == StartRest(old(timers.rest), Seconds(b))
        && RestText(timers.rest) == ClockText(Seconds(b))
        && timers.clockOf == old(timers.clockOf)
    {
      if activeWorkout == null {
        return;
      }
      var seconds := Seconds(b);
      activeWorkout.restDuration := seconds;
      activeWorkout.useRestTimer := true;
      restToggle := true;
      timers.StartRestTimer(seconds);
    }

    /** The cancel-rest button. */
    method CancelRest()
      modifies timers`rest
      ensures timers.rest == StopRest(old(timers.rest))
    {
      timers.StopRestTimer();
    }

    /**
     * The finish button: clock and countdown stop, the workout is named from
     * the input or "Untitled Workout", finished by the journal, and
     * summarised with its paused total. Without a signed-in user the journal
     * is left alone and the clock keeps its state.
     */
    method Finish(now: int)
      modifies this`summary, st, activeWorkout, timers`clockOf, timers`rest
      ensures activeWorkout == null ==> unchanged(st) && unchanged(timers) && summary == old(summary)
      ensures activeWorkout != null ==>
        && activeWorkout.name == SummaryName(nameInput)
        && activeWorkout.id == old(activeWorkout.id) && activeWorkout.date == old(activeWorkout.date)
        && activeWorkout.exercises == old(activeWorkout.exercises)
        && activeWorkout.useRestTimer == old(activeWorkout.useRestTimer)
        && activeWorkout.restDuration == old(activeWorkout.restDuration)
        && timers.clockOf == null && timers.rest == StopRest(old(timers.rest))
        && summary == Some(SummaryOf(activeWorkout, now))
      ensures activeWorkout != null && !old(st.SignedIn()) ==>
        unchanged(st) && activeWorkout.Clock() == old(activeWorkout.Clock())
      ensures activeWorkout != null && old(st.SignedIn()) ==>
        && !Timer.Running(activeWorkout.Clock())
        && activeWorkout.Clock() == Timer.Pause(old(activeWorkout.Clock()), now)
        && summary.value.time == SummaryTimeText(activeWorkout.elapsedSeconds)
        && ResumeWorkout(st) == null
        && st.currentUser == old(st.currentUser)
        && st.saves == old(st.saves) + 1
      ensures activeWorkout != null && old(st.SignedIn()) ==>
        var u := old(st.User());
        st.users == old(st.users)[old(st.Key()) :=
          if old(HasWorkoutData(activeWorkout))
          then u.(exerciseHistory := RecordHistory(u.exerciseHistory, activeWorkout.exercises, activeWorkout.date),
                  workouts := u.workouts + [activeWorkout], activeWorkout := null)
          else u.(activeWorkout := null)]
    {
      var w := activeWorkout;
      if w == null {
        return;
      }
      timers.StopTimerUI();
      timers.StopRestTimer();
      w.name := if nameInput == "" then "Untitled Workout" else nameInput;
      FinishWorkout(st, w, now);
      summary := Some(SummaryOf(w, now));
    }

    /**
     * The save-template button: a copy of the workout with a new id, the
     * handler's name and no date is saved as a template; the workout itself
     * is left as it is.
     */
    method SaveTemplate(copyId: string, templateId: string)
      modifies st
      ensures activeWorkout == null || !old(st.SignedIn()) ==> unchanged(st)
      ensures activeWorkout != null && old(st.SignedIn()) ==>
        var u := old(st.User());
        var name := TemplateName(nameInput, activeWorkout.name);
        && st.users == old(st.users)[old(st.Key()) := u.(templates := u.templates + [Template(templateId, name, Names(activeWorkout.exercises))])]
        && st.currentUser == old(st.currentUser)
        && st.saves == old(st.saves) + 1
      ensures activeWorkout != null ==> unchanged(activeWorkout)
    {
      var w := activeWorkout;
      if w == null {
        return;
      }
      var name := TemplateName(nameInput, w.name);
      var copy := new Workout.Clone(w);
      copy.id := copyId;
      copy.name := name;
      copy.date := None;
      assert TemplateFrom(templateId, copy.name, copy.exercises) == Template(templateId, name, Names(w.exercises));
      SaveTemplateFromWorkout(st, copy, templateId);
    }

    /**
     * A click on a template: the workout started from it becomes the page's,
     * null when there is no user or no such template, and a started one is
     * shown with its clock running.
     */
    method TemplateClick(templateId: string, workoutId: string, date: string, now: int, exerciseIds: nat -> string)
      modifies this`activeWorkout, this`nameInput, this`restToggle, st, timers`clockOf, timers`pauseShown
      ensures templateId == "" ==>
        && activeWorkout == old(activeWorkout) && nameInput == old(nameInput) && restToggle == old(restToggle)
        && unchanged(st) && unchanged(timers)
      ensures templateId != "" && (!old(st.SignedIn()) || FindTemplate(old(st.User()).templates, templateId).None?) ==>
        && activeWorkout == null && nameInput == old(nameInput) && restToggle == old(restToggle)
        && unchanged(st) && unchanged(timers)
      ensures templateId != "" && old(st.SignedIn()) && FindTemplate(old(st.User()).templates, templateId).Some? ==>
        var u := old(st.User());
        var t := FindTemplate(u.templates, templateId).value;
        && activeWorkout != null && fresh(activeWorkout) && activeWorkout == ResumeWorkout(st)
        && activeWorkout.id == workoutId && activeWorkout.name == t.name && activeWorkout.date == Some(date)
        && activeWorkout.exercises == TemplateExercises(t.exercises, u.exerciseHistory, exerciseIds)
        && activeWorkout.startTime == Some(now) && activeWorkout.elapsedSeconds == 0 && !activeWorkout.isPaused
        && activeWorkout.useRestTimer && activeWorkout.restDuration == 30
        && st.users == old(st.users)[old(st.Key()) := u.(activeWorkout := activeWorkout, exerciseLibrary := TemplateLibrary(u.exerciseLibrary, t.exercises))]
        && st.currentUser == old(st.currentUser)
        && st.saves == old(st.saves) + NonBlankCount(t.exercises) + 1
        && nameInput == t.name && restToggle
        && timers.clockOf == activeWorkout && timers.pauseShown
    {
      if templateId == "" {
        return;
      }
      activeWorkout := StartWorkoutFromTemplate(st, templateId, workoutId, date, now, exerciseIds);
      if activeWorkout == null {
        return;
      }
      OpenWorkout();
    }

    /** A click on a template's delete button, confirmed or not. */
    method DeleteTemplateClick(templateId: string, confirmed: bool)
      modifies st
      ensures !confirmed || !old(st.SignedIn()) ==> unchanged(st)
      ensures confirmed && old(st.SignedIn()) ==>
        var u := old(st.User());
        && st.users == old(st.users)[old(st.Key()) := u.(templates := WithoutTemplate(u.templates, templateId))]
        && st.currentUser == old(st.currentUser)
        && st.saves == old(st.saves) + 1
    {
      if confirmed {
        DeleteTemplate(st, templateId);
      }
    }
  }

  /** The start-up sign-in: a signed-in name and a device trusted for it, which is a trusted device alone. */
  function AutoSignIn(st: State, dev: Auth.Device): (r: bool)
    reads st, dev
    ensures r <==> Auth.IsTrustedDevice(dev, st)
  {
    st.currentUser.Some? && st.currentUser.value != "" && Auth.IsTrustedDevice(dev, st)
  }
}
