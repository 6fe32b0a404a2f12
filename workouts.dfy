/**
 * The workout entities of `js/state.js`: sets, exercises, history entries and
 * templates as values, and the workout itself as an object, since the user
 * interface, the user record and the finished-workout list all hold the same
 * workout by reference.
 */
module Workouts {
  import opened Wrappers
  import opened Text
  import Timer

  /** The two editable fields of a set (`data-field` in the rendered inputs). */
  datatype Field = Weight | Reps

  datatype SetEntry = SetEntry(weight: string, reps: string, completed: bool)

  /** The set `addSet` and `addExerciseToWorkout` append. */
  const EmptySet := SetEntry("", "", false)

  datatype Exercise = Exercise(id: string, name: string, sets: seq<SetEntry>, previous: Option<string>, notes: string)

  datatype SetValues = SetValues(weight: string, reps: string)

  /** `exerciseHistory[name]`: the sets of the last finished workout that had this exercise. */
  datatype HistoryEntry = HistoryEntry(lastSets: seq<SetValues>, lastPerformed: Option<string>)

  /** A template records exercise names only, no set data. */
  datatype Template = Template(id: string, name: string, exercises: seq<string>)

  class Workout {
    var id: string
    var name: string
    var date: Option<string>
    var exercises: seq<Exercise>
    var startTime: Option<int>
    var elapsedSeconds: int
    var isPaused: bool
    var useRestTimer: bool
    var restDuration: int

    /** `createWorkout()`, with the UUID and the ISO date passed in. */
    constructor Create(id: string, date: string)
      ensures this.id == id && name == "" && this.date == Some(date) && exercises == []
      ensures startTime == None && elapsedSeconds == 0 && !isPaused
      ensures useRestTimer && restDuration == 30
    {
      this.id := id;
      name := "";
      this.date := Some(date);
      exercises := [];
      startTime := None;
      elapsedSeconds := 0;
      isPaused := false;
      useRestTimer := true;
      restDuration := 30;
    }

    /** `structuredClone(w)`: a new workout object with the same field values. */
    constructor Clone(w: Workout)
      ensures id == w.id && name == w.name && date == w.date && exercises == w.exercises
      ensures startTime == w.startTime && elapsedSeconds == w.elapsedSeconds && isPaused == w.isPaused
      ensures useRestTimer == w.useRestTimer && restDuration == w.restDuration
    {
      id := w.id;
      name := w.name;
      date := w.date;
      exercises := w.exercises;
      startTime := w.startTime;
      elapsedSeconds := w.elapsedSeconds;
      isPaused := w.isPaused;
      useRestTimer := w.useRestTimer;
      restDuration := w.restDuration;
    }

    /** The timer fields of this workout as one value. */
    function Clock(): Timer.Clock
      reads this
    {
      Timer.Clock(startTime, elapsedSeconds, isPaused)
    }

    /** `startTimer(workout)`. */
    method StartTimer(now: int)
      modifies this`startTime, this`isPaused
      ensures Clock() == Timer.Start(old(Clock()), now)
      ensures startTime == Some(now) && !isPaused && elapsedSeconds == old(elapsedSeconds)
    {
      startTime := Some(now);
      isPaused := false;
    }

    /** `pauseTimer(workout)`. */
    method PauseTimer(now: int)
      modifies this`startTime, this`elapsedSeconds, this`isPaused
      ensures Clock() == Timer.Pause(old(Clock()), now)
    {
      if startTime.None? || startTime.value == 0 {
        return;
      }
      elapsedSeconds := elapsedSeconds + (now - startTime.value) / 1000;
      startTime := None;
      isPaused := true;
    }

    /** `resumeTimer(workout)`. */
    method ResumeTimer(now: int)
      modifies this`startTime, this`isPaused
      ensures Clock() == Timer.Start(old(Clock()), now)
      ensures startTime == Some(now) && !isPaused && elapsedSeconds == old(elapsedSeconds)
    {
      startTime := Some(now);
      isPaused := false;
    }
  }

  /** A workout just created and started at `now`, as `startWorkout` leaves it. */
  predicate FreshlyStarted(w: Workout, id: string, date: string, now: int)
    reads w
  {
    && w.id == id && w.name == "" && w.date == Some(date) && w.exercises == []
    && w.startTime == Some(now) && w.elapsedSeconds == 0 && !w.isPaused
    && w.useRestTimer && w.restDuration == 30
  }

  /** A set counts as workout data when either field is non-empty. */
  predicate HasData(s: SetEntry) {
    s.weight != "" || s.reps != ""
  }

  /** Both fields are non-empty. */
  predicate Filled(s: SetEntry) {
    s.weight != "" && s.reps != ""
  }

  function SomeSetHasData(sets: seq<SetEntry>): (r: bool)
    ensures r <==> exists j | 0 <= j < |sets| :: HasData(sets[j])
  {
    if sets == [] then false else HasData(sets[0]) || SomeSetHasData(sets[1..])
  }

  function AnySetHasData(exs: seq<Exercise>): (r: bool)
    ensures r <==> exists i, j | 0 <= i < |exs| && 0 <= j < |exs[i].sets| :: HasData(exs[i].sets[j])
  {
    if exs == [] then false
    else
      var first := SomeSetHasData(exs[0].sets);
      var rest := AnySetHasData(exs[1..]);
      assert forall i, j | 1 <= i < |exs| && 0 <= j < |exs[i].sets| :: exs[1..][i - 1].sets[j] == exs[i].sets[j];
      first || rest
  }

  /** `hasWorkoutData(workout)`: some set of some exercise has a weight or a rep count. */
  function HasWorkoutData(w: Workout?): (r: bool)
    reads w
    ensures r <==> w != null && exists i, j | 0 <= i < |w.exercises| && 0 <= j < |w.exercises[i].sets| :: HasData(w.exercises[i].sets[j])
  {
    w != null && |w.exercises| > 0 && AnySetHasData(w.exercises)
  }

  /**
   * The set after `updateSet` writes `value` into `field`: the other field stays,
   * and `completed` is forced off when the value is empty, otherwise kept.
   */
  function WithField(s: SetEntry, field: Field, value: string): (r: SetEntry)
    ensures field == Weight ==> r.weight == value && r.reps == s.reps
    ensures field == Reps ==> r.reps == value && r.weight == s.weight
    ensures r.completed == (s.completed && value != "")
  {
    var written := if field == Weight then s.(weight := value) else s.(reps := value);
    if value == "" then written.(completed := false) else written
  }

  /** The start index `splice` uses for a possibly negative `start`. */
  function SpliceStart(len: nat, start: int): (p: nat)
    ensures p <= len
  {
    if start < 0 then (if len + start < 0 then 0 else len + start)
    else if start > len then len else start
  }

  /** `s.splice(start, 1)`: removes the element at `start` (counted from the end when negative), if any. */
  function SpliceOne<T>(s: seq<T>, start: int): (r: seq<T>)
    ensures 0 <= start < |s| ==> |r| == |s| - 1 && r == s[..start] + s[start + 1..]
    ensures start >= |s| ==> r == s
    ensures 0 <= start < |s| ==> forall i | 0 <= i < |r| :: r[i] == if i < start then s[i] else s[i + 1]
  {
    var p := SpliceStart(|s|, start);
    if p < |s| then s[..p] + s[p + 1..] else s
  }

  /** The weights and reps of a set, as history keeps them. */
  function ValuesOf(s: SetEntry): SetValues {
    SetValues(s.weight, s.reps)
  }

  /** The history entry finishing a workout writes for one of its exercises. */
  function EntryOf(ex: Exercise, date: Option<string>): (h: HistoryEntry)
    ensures |h.lastSets| == |ex.sets| && h.lastPerformed == date
    ensures forall i | 0 <= i < |ex.sets| :: h.lastSets[i] == ValuesOf(ex.sets[i])
  {
    HistoryEntry(seq(|ex.sets|, i requires 0 <= i < |ex.sets| => ValuesOf(ex.sets[i])), date)
  }

  function Names(exs: seq<Exercise>): (r: seq<string>)
    ensures |r| == |exs| && forall i | 0 <= i < |exs| :: r[i] == exs[i].name
  {
    seq(|exs|, i requires 0 <= i < |exs| => exs[i].name)
  }

  /** The history after writing each exercise's entry in order (the `forEach` of `finishWorkout`). */
  function RecordHistory(h: map<string, HistoryEntry>, exs: seq<Exercise>, date: Option<string>): map<string, HistoryEntry>
    decreases |exs|
  {
    if exs == [] then h
    else RecordHistory(h, exs[..|exs| - 1], date)[exs[|exs| - 1].name := EntryOf(exs[|exs| - 1], date)]
  }

  /** No later exercise in `exs` has the name of the one at `i`. */
  predicate LastOfName(exs: seq<Exercise>, i: nat)
    requires i < |exs|
  {
    forall j | i < j < |exs| :: exs[j].name != exs[i].name
  }

  /**
   * Writing history for a finished workout touches exactly the workout's
   * exercise names: any other key keeps its presence and its entry.
   */
  lemma {:induction false} RecordHistoryUntouched(h: map<string, HistoryEntry>, exs: seq<Exercise>, date: Option<string>, k: string)
    requires k !in Names(exs)
    ensures k in RecordHistory(h, exs, date) <==> k in h
    ensures k in h ==> RecordHistory(h, exs, date)[k] == h[k]
    decreases |exs|
  {
    if exs != [] {
      var init := exs[..|exs| - 1];
      assert Names(exs) == Names(init) + [exs[|exs| - 1].name];
      RecordHistoryUntouched(h, init, date, k);
    }
  }

  /**
   * Every exercise name of a finished workout ends up in the history,
   * overwritten (not merged) with the sets of the last exercise of that name.
   */
  lemma {:induction false} RecordHistoryLastWins(h: map<string, HistoryEntry>, exs: seq<Exercise>, date: Option<string>, i: nat)
    requires i < |exs| && LastOfName(exs, i)
    ensures exs[i].name in RecordHistory(h, exs, date)
    ensures RecordHistory(h, exs, date)[exs[i].name] == EntryOf(exs[i], date)
    decreases |exs|
  {
    if i < |exs| - 1 {
      var init := exs[..|exs| - 1];
      assert init[i] == exs[i];
      assert LastOfName(init, i);
      RecordHistoryLastWins(h, init, date, i);
    }
  }

  /** One history set as the `previous` note shows it: `"w x r"`. */
  function SetText(v: SetValues): string {
    v.weight + " x " + v.reps
  }

  function SetsText(sets: seq<SetValues>): string {
    Join(seq(|sets|, i requires 0 <= i < |sets| => SetText(sets[i])), ", ")
  }

  /** The `previous` snapshot for a newly added exercise: absent without history. */
  function PreviousText(hist: map<string, HistoryEntry>, name: string): (r: Option<string>)
    ensures r.None? <==> name !in hist
    ensures name in hist ==> r == Some(SetsText(hist[name].lastSets))
  {
    if name in hist then Some(SetsText(hist[name].lastSets)) else None
  }

  /** The exercise `addExerciseToWorkout` appends: one empty set and the history snapshot. */
  function NewExercise(id: string, name: string, hist: map<string, HistoryEntry>): Exercise {
    Exercise(id, name, [EmptySet], PreviousText(hist, name), "")
  }

  /**
   * After a workout is finished, adding one of its exercises again shows that
   * exercise's final sets (of the last exercise of that name) as `previous`.
   */
  lemma PreviousAfterFinish(h: map<string, HistoryEntry>, exs: seq<Exercise>, date: Option<string>, i: nat)
    requires i < |exs| && LastOfName(exs, i)
    ensures PreviousText(RecordHistory(h, exs, date), exs[i].name)
         == Some(SetsText(seq(|exs[i].sets|, j requires 0 <= j < |exs[i].sets| => ValuesOf(exs[i].sets[j]))))
  {
    RecordHistoryLastWins(h, exs, date, i);
    assert EntryOf(exs[i], date).lastSets == seq(|exs[i].sets|, j requires 0 <= j < |exs[i].sets| => ValuesOf(exs[i].sets[j]));
  }

  predicate NoDuplicates(s: seq<string>) {
    forall i, j | 0 <= i < j < |s| :: s[i] != s[j]
  }

  /** The exercise library after registering `name`: appended only when absent. */
  function LibraryWith(lib: seq<string>, name: string): (r: seq<string>)
    ensures name in r
    ensures forall x :: x in r <==> x in lib || x == name
    ensures |lib| <= |r| <= |lib| + 1 && r[..|lib|] == lib
    ensures NoDuplicates(lib) ==> NoDuplicates(r)
  {
    if name in lib then lib else lib + [name]
  }

  /** `saveTemplateFromWorkout`'s template: the workout's name or "Template", and its exercise names in order. */
  function TemplateFrom(id: string, name: string, exs: seq<Exercise>): (t: Template)
    ensures t.id == id && t.exercises == Names(exs)
    ensures t.name == if name == "" then "Template" else name
  {
    Template(id, if name == "" then "Template" else name, Names(exs))
  }

  /** `templates.find(t => t.id === id)`. */
  function FindTemplate(ts: seq<Template>, id: string): (r: Option<Template>)
    ensures r.None? <==> forall i | 0 <= i < |ts| :: ts[i].id != id
    ensures r.Some? ==> exists i | 0 <= i < |ts| :: ts[i] == r.value && r.value.id == id && forall j | 0 <= j < i :: ts[j].id != id
  {
    if ts == [] then None
    else if ts[0].id == id then Some(ts[0])
    else
      var r := FindTemplate(ts[1..], id);
      assert r.Some? ==> exists i | 1 <= i < |ts| :: ts[i] == r.value && r.value.id == id && forall j | 0 <= j < i :: ts[j].id != id by {
        if r.Some? {
          var i :| 0 <= i < |ts[1..]| && ts[1..][i] == r.value && r.value.id == id && forall j | 0 <= j < i :: ts[1..][j].id != id;
          assert ts[i + 1] == r.value;
          assert forall j | 0 <= j < i + 1 :: ts[j].id != id by {
            forall j | 0 <= j < i + 1 ensures ts[j].id != id {
              if j > 0 { assert ts[j] == ts[1..][j - 1]; }
            }
          }
        }
      }
      r
  }

  /** `templates.filter(t => t.id !== id)`. */
  function WithoutTemplate(ts: seq<Template>, id: string): (r: seq<Template>)
    ensures |r| <= |ts|
  {
    if ts == [] then []
    else (if ts[0].id == id then [] else [ts[0]]) + WithoutTemplate(ts[1..], id)
  }

  /** A template survives deletion exactly when its id differs. */
  lemma {:induction false} WithoutTemplateMembers(ts: seq<Template>, id: string, t: Template)
    ensures t in WithoutTemplate(ts, id) <==> t in ts && t.id != id
    decreases |ts|
  {
    if ts != [] {
      WithoutTemplateMembers(ts[1..], id, t);
      assert ts == [ts[0]] + ts[1..];
    }
  }

  /** Deleting distributes over concatenation, so the kept templates stay in their order. */
  lemma {:induction false} WithoutTemplateAppend(a: seq<Template>, b: seq<Template>, id: string)
    ensures WithoutTemplate(a + b, id) == WithoutTemplate(a, id) + WithoutTemplate(b, id)
    decreases |a|
  {
    if a != [] {
      assert (a + b)[0] == a[0];
      assert (a + b)[1..] == a[1..] + b;
      var head := if a[0].id == id then [] else [a[0]];
      assert WithoutTemplate(a + b, id) == head + WithoutTemplate(a[1..] + b, id);
      WithoutTemplateAppend(a[1..], b, id);
      assert head + (WithoutTemplate(a[1..], id) + WithoutTemplate(b, id)) == (head + WithoutTemplate(a[1..], id)) + WithoutTemplate(b, id);
    } else {
      assert a + b == b;
    }
  }

  /** Deleting an id no template has changes nothing. */
  lemma {:induction false} WithoutAbsentTemplate(ts: seq<Template>, id: string)
    requires forall i | 0 <= i < |ts| :: ts[i].id != id
    ensures WithoutTemplate(ts, id) == ts
    decreases |ts|
  {
    if ts != [] {
      WithoutAbsentTemplate(ts[1..], id);
    }
  }
}
