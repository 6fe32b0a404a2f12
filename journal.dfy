/**
 * The journal state of `js/state.js`: the global `state` object with the
 * signed-in user name and every user's record, the start-up migration, and
 * the workout lifecycle, exercise, set and template operations. UUIDs, the
 * ISO date and `Date.now()` are parameters. `persistState()` is modelled as
 * one more saved snapshot (`saves`).
 */
module Journal {
  import opened Wrappers
  import opened Text
  import opened Workouts
  import Timer

  /** One user's record: `state.users[username]`. */
  datatype UserRecord = UserRecord(
    version: Option<int>,
    passwordHash: Option<string>,
    workouts: seq<Workout>,
    activeWorkout: Workout?,
    exerciseHistory: map<string, HistoryEntry>,
    templates: seq<Template>,
    exerciseLibrary: seq<string>,
    updatedAt: Option<int>)

  /** A user record as it arrives from storage or from the server: any field may be missing. */
  datatype RawUser = RawUser(
    version: Option<int>,
    passwordHash: Option<string>,
    workouts: Option<seq<Workout>>,
    activeWorkout: Workout?,
    exerciseHistory: Option<map<string, HistoryEntry>>,
    templates: Option<seq<Template>>,
    exerciseLibrary: Option<seq<string>>,
    updatedAt: Option<int>)

  /** A complete record seen as a raw one, every field present. */
  function AsRaw(u: UserRecord): RawUser {
    RawUser(u.version, u.passwordHash, Some(u.workouts), u.activeWorkout, Some(u.exerciseHistory),
            Some(u.templates), Some(u.exerciseLibrary), u.updatedAt)
  }

  /**
   * The start-up migration of each stored user: the five collections get
   * their defaults when missing; version, password hash and timestamp are
   * left as they are.
   */
  function Migrate(raw: RawUser): (u: UserRecord)
    ensures u.version == raw.version && u.passwordHash == raw.passwordHash && u.updatedAt == raw.updatedAt
    ensures u.activeWorkout == raw.activeWorkout
    ensures raw.workouts.Some? ==> u.workouts == raw.workouts.value
    ensures raw.workouts.None? ==> u.workouts == []
    ensures raw.exerciseHistory.Some? ==> u.exerciseHistory == raw.exerciseHistory.value
    ensures raw.exerciseHistory.None? ==> u.exerciseHistory == map[]
    ensures raw.templates.Some? ==> u.templates == raw.templates.value
    ensures raw.templates.None? ==> u.templates == []
    ensures raw.exerciseLibrary.Some? ==> u.exerciseLibrary == raw.exerciseLibrary.value
    ensures raw.exerciseLibrary.None? ==> u.exerciseLibrary == []
  {
    UserRecord(raw.version, raw.passwordHash, raw.workouts.GetOr([]), raw.activeWorkout,
               raw.exerciseHistory.GetOr(map[]), raw.templates.GetOr([]),
               raw.exerciseLibrary.GetOr([]), raw.updatedAt)
  }

  /** Migrating a complete record changes nothing, so running the migration twice is running it once. */
  lemma MigrateIdempotent(raw: RawUser, u: UserRecord)
    ensures Migrate(AsRaw(u)) == u
    ensures Migrate(AsRaw(Migrate(raw))) == Migrate(raw)
  {
  }

  /** What `loadState()` returns: unreadable (null or not an object), or an object with optional fields. */
  datatype Stored = Unreadable | Stored(currentUser: Option<string>, users: Option<map<string, RawUser>>)

  /** The users map after start-up. */
  function StartupUsers(stored: Stored): (users: map<string, UserRecord>)
    ensures stored.Unreadable? || stored.users.None? ==> users == map[]
    ensures stored.Stored? && stored.users.Some? ==>
      users.Keys == stored.users.value.Keys &&
      forall k | k in users :: users[k] == Migrate(stored.users.value[k])
  {
    if stored.Unreadable? || stored.users.None? then map[]
    else map k | k in stored.users.value :: Migrate(stored.users.value[k])
  }

  /** The global `state`: who is signed in, and every user's record. */
  class State {
    var currentUser: Option<string>
    var users: map<string, UserRecord>
    /** The number of snapshots written by `saveState` so far. */
    var saves: nat

    /** Start-up: `loadState()` followed by the defaults and the per-user migration. */
    constructor Load(stored: Stored)
      ensures currentUser == (if stored.Unreadable? then None else stored.currentUser)
      ensures users == StartupUsers(stored)
      ensures saves == 0
    {
      currentUser := if stored.Unreadable? then None else stored.currentUser;
      users := StartupUsers(stored);
      saves := 0;
    }

    /** `getCurrentUser()`: the record of the signed-in user, absent for no or an empty name or an unknown one. */
    function GetCurrentUser(): (r: Option<UserRecord>)
      reads this
      ensures r.Some? <==> currentUser.Some? && currentUser.value != "" && currentUser.value in users
      ensures r.Some? ==> r.value == users[currentUser.value]
    {
      if currentUser.None? || currentUser.value == "" then None
      else if currentUser.value in users then Some(users[currentUser.value])
      else None
    }

    predicate SignedIn()
      reads this
    {
      GetCurrentUser().Some?
    }

    function Key(): string
      reads this
      requires SignedIn()
    {
      currentUser.value
    }

    function User(): UserRecord
      reads this
      requires SignedIn()
    {
      users[currentUser.value]
    }
  }

  /** The invariant the lifecycle keeps: the active workout is never also a finished one. */
  predicate ActiveNotFinished(u: UserRecord) {
    u.activeWorkout == null || u.activeWorkout !in u.workouts
  }

  /**
   * `startWorkout()`: with no signed-in user nothing happens and the result is
   * null; otherwise a fresh running workout replaces the active one, is
   * persisted and returned.
   */
  method StartWorkout(st: State, id: string, date: string, now: int) returns (w: Workout?)
    modifies st
    ensures !old(st.SignedIn()) ==> w == null && unchanged(st)
    ensures old(st.SignedIn()) ==>
      && w != null && fresh(w) && FreshlyStarted(w, id, date, now)
      && st.currentUser == old(st.currentUser)
      && st.users == old(st.users)[old(st.Key()) := old(st.User()).(activeWorkout := w)]
      && ActiveNotFinished(st.User())
      && st.saves == old(st.saves) + 1
  {
    if !st.SignedIn() {
      return null;
    }
    var k, u := st.Key(), st.User();
    w := new Workout.Create(id, date);
    st.users := st.users[k := u.(activeWorkout := w)];
    w.StartTimer(now);
    st.saves := st.saves + 1;
  }

  /** `resumeWorkout()`: the active workout of the signed-in user, unchanged, or null. */
  function ResumeWorkout(st: State): (w: Workout?)
    reads st
    ensures w != null <==> st.SignedIn() && st.User().activeWorkout != null
    ensures w != null ==> w == st.User().activeWorkout
  {
    if st.SignedIn() then st.User().activeWorkout else null
  }

  /**
   * `finishWorkout(workout)`: pauses the timer; a workout without any entered
   * weight or reps is discarded, otherwise every exercise's history is
   * overwritten with its sets and the workout itself is appended to the
   * finished list. Either way the active workout is cleared and the state saved.
   */
  method FinishWorkout(st: State, w: Workout?, now: int)
    modifies st, w
    ensures !old(st.SignedIn()) || w == null ==> unchanged(st) && (w != null ==> unchanged(w))
    ensures old(st.SignedIn()) && w != null ==>
      && w.Clock() == Timer.Pause(old(w.Clock()), now)
      && w.id == old(w.id) && w.name == old(w.name) && w.date == old(w.date) && w.exercises == old(w.exercises)
      && w.useRestTimer == old(w.useRestTimer) && w.restDuration == old(w.restDuration)
      && st.currentUser == old(st.currentUser)
      && st.saves == old(st.saves) + 1
      && st.SignedIn() && st.User().activeWorkout == null
    ensures old(st.SignedIn()) && w != null ==>
      var u := old(st.User());
      st.users == old(st.users)[old(st.Key()) :=
           if old(HasWorkoutData(w))
           then u.(exerciseHistory := RecordHistory(u.exerciseHistory, w.exercises, w.date),
                   workouts := u.workouts + [w], activeWorkout := null)
           else u.(activeWorkout := null)]
  {
    if !st.SignedIn() || w == null {
      return;
    }
    var k, u := st.Key(), st.User();
    w.PauseTimer(now);
    if !HasWorkoutData(w) {
      st.users := st.users[k := u.(activeWorkout := null)];
      st.saves := st.saves + 1;
      return;
    }
    var hist := u.exerciseHistory;
    var i := 0;
    while i < |w.exercises|
      invariant 0 <= i <= |w.exercises|
      invariant hist == RecordHistory(u.exerciseHistory, w.exercises[..i], w.date)
    {
      var ex := w.exercises[i];
      assert w.exercises[..i + 1][..i] == w.exercises[..i];
      hist := hist[ex.name := EntryOf(ex, w.date)];
      i := i + 1;
    }
    assert w.exercises[..i] == w.exercises;
    st.users := st.users[k := u.(exerciseHistory := hist, workouts := u.workouts + [w], activeWorkout := null)];
    st.saves := st.saves + 1;
  }

  /** The workout's exercises after `addExerciseToWorkout(workout, name)`. */
  function AddedExercises(exs: seq<Exercise>, id: string, name: string, hist: map<string, HistoryEntry>): seq<Exercise> {
    if Trim(name) == "" then exs else exs + [NewExercise(id, Trim(name), hist)]
  }

  /** The exercise library after `addExerciseToWorkout(workout, name)`. */
  function AddedLibrary(lib: seq<string>, name: string): seq<string> {
    if Trim(name) == "" then lib else LibraryWith(lib, Trim(name))
  }

  /**
   * `addExerciseToWorkout(workout, name)`: the name is trimmed and an empty one
   * ignored; otherwise the library gains the name if it lacks it, and the
   * workout gains one exercise with one empty set and the history snapshot.
   */
  method AddExerciseToWorkout(st: State, w: Workout?, name: string, id: string)
    modifies st, (if w == null then {} else {w})`exercises
    ensures !old(st.SignedIn()) || w == null || Trim(name) == "" ==> unchanged(st) && (w != null ==> unchanged(w))
    ensures old(st.SignedIn()) && w != null ==>
      var u := old(st.User());
      && w.exercises == AddedExercises(old(w.exercises), id, name, u.exerciseHistory)
      && st.users == old(st.users)[old(st.Key()) := u.(exerciseLibrary := AddedLibrary(u.exerciseLibrary, name))]
      && st.currentUser == old(st.currentUser)
      && st.saves == old(st.saves) + (if Trim(name) == "" then 0 else 1)
  {
    if !st.SignedIn() || w == null {
      return;
    }
    var n := Trim(name);
    if n == "" {
      return;
    }
    var k, u := st.Key(), st.User();
    var lib := LibraryWith(u.exerciseLibrary, n);
    w.exercises := w.exercises + [NewExercise(id, n, u.exerciseHistory)];
    st.users := st.users[k := u.(exerciseLibrary := lib)];
    st.saves := st.saves + 1;
  }

  /** `addSet(workout, exerciseIndex)`: one empty set at the end of that exercise only. */
  method AddSet(st: State, w: Workout?, exIndex: nat)
    requires w != null ==> exIndex < |w.exercises|
    modifies st`saves, (if w == null then {} else {w})`exercises
    ensures w == null ==> unchanged(st)
    ensures w != null ==>
      var e := old(w.exercises[exIndex]);
      && w.exercises == old(w.exercises)[exIndex := e.(sets := e.sets + [EmptySet])]
      && st.saves == old(st.saves) + 1
  {
    if w == null {
      return;
    }
    var e := w.exercises[exIndex];
    w.exercises := w.exercises[exIndex := e.(sets := e.sets + [EmptySet])];
    st.saves := st.saves + 1;
  }

  /** `removeSet(workout, exerciseIndex, setIndex)`: `splice(setIndex, 1)` on that exercise's sets. */
  method RemoveSet(st: State, w: Workout?, exIndex: nat, setIndex: int)
    requires w != null ==> exIndex < |w.exercises|
    modifies st`saves, (if w == null then {} else {w})`exercises
    ensures w == null ==> unchanged(st)
    ensures w != null ==>
      var e := old(w.exercises[exIndex]);
      && w.exercises == old(w.exercises)[exIndex := e.(sets := SpliceOne(e.sets, setIndex))]
      && st.saves == old(st.saves) + 1
  {
    if w == null {
      return;
    }
    var e := w.exercises[exIndex];
    w.exercises := w.exercises[exIndex := e.(sets := SpliceOne(e.sets, setIndex))];
    st.saves := st.saves + 1;
  }

  /** `updateSet(workout, exIndex, setIndex, field, value)`. */
  method UpdateSet(st: State, w: Workout?, exIndex: nat, setIndex: nat, field: Field, value: string)
    requires w != null ==> exIndex < |w.exercises| && setIndex < |w.exercises[exIndex].sets|
    modifies st`saves, (if w == null then {} else {w})`exercises
    ensures w == null ==> unchanged(st)
    ensures w != null ==>
      var e := old(w.exercises[exIndex]);
      && w.exercises == old(w.exercises)[exIndex := e.(sets := e.sets[setIndex := WithField(e.sets[setIndex], field, value)])]
      && st.saves == old(st.saves) + 1
  {
    if w == null {
      return;
    }
    var e := w.exercises[exIndex];
    w.exercises := w.exercises[exIndex := e.(sets := e.sets[setIndex := WithField(e.sets[setIndex], field, value)])];
    st.saves := st.saves + 1;
  }

  /** `saveTemplateFromWorkout(workout)`: appends one template built from the workout. */
  method SaveTemplateFromWorkout(st: State, w: Workout?, templateId: string)
    modifies st
    ensures !old(st.SignedIn()) || w == null ==> unchanged(st)
    ensures old(st.SignedIn()) && w != null ==>
      var u := old(st.User());
      && st.users == old(st.users)[old(st.Key()) := u.(templates := u.templates + [TemplateFrom(templateId, w.name, w.exercises)])]
      && st.currentUser == old(st.currentUser)
      && st.saves == old(st.saves) + 1
  {
    if !st.SignedIn() || w == null {
      return;
    }
    var k, u := st.Key(), st.User();
    st.users := st.users[k := u.(templates := u.templates + [TemplateFrom(templateId, w.name, w.exercises)])];
    st.saves := st.saves + 1;
  }

  /** The exercises instantiating a template's names adds, the i-th taking the id `ids(i)`. */
  function TemplateExercises(names: seq<string>, hist: map<string, HistoryEntry>, ids: nat -> string): seq<Exercise>
    decreases |names|
  {
    if names == [] then []
    else
      var i := |names| - 1;
      AddedExercises(TemplateExercises(names[..i], hist, ids), ids(i), names[i], hist)
  }

  /** The library after registering each of a template's names. */
  function TemplateLibrary(lib: seq<string>, names: seq<string>): seq<string>
    decreases |names|
  {
    if names == [] then lib
    else AddedLibrary(TemplateLibrary(lib, names[..|names| - 1]), names[|names| - 1])
  }

  /** The number of names that are not blank, i.e. of `addExerciseToWorkout` calls that persist. */
  function NonBlankCount(names: seq<string>): nat
    decreases |names|
  {
    if names == [] then 0
    else NonBlankCount(names[..|names| - 1]) + (if Trim(names[|names| - 1]) == "" then 0 else 1)
  }

  /** Every exercise name a workout holds is trimmed and non-empty. */
  predicate NamesTrimmed(exs: seq<Exercise>) {
    forall i | 0 <= i < |exs| :: Trimmed(exs[i].name)
  }

  /** `addExerciseToWorkout` keeps every exercise name trimmed and non-empty. */
  lemma AddedExercisesTrimmed(exs: seq<Exercise>, id: string, name: string, hist: map<string, HistoryEntry>)
    requires NamesTrimmed(exs)
    ensures NamesTrimmed(AddedExercises(exs, id, name, hist))
  {
  }

  /** One more template name: the three prefix definitions each take one step. */
  lemma TemplateStep(lib: seq<string>, names: seq<string>, hist: map<string, HistoryEntry>, ids: nat -> string, i: nat)
    requires i < |names|
    ensures TemplateExercises(names[..i + 1], hist, ids) == AddedExercises(TemplateExercises(names[..i], hist, ids), ids(i), names[i], hist)
    ensures TemplateLibrary(lib, names[..i + 1]) == AddedLibrary(TemplateLibrary(lib, names[..i]), names[i])
    ensures NonBlankCount(names[..i + 1]) == NonBlankCount(names[..i]) + (if Trim(names[i]) == "" then 0 else 1)
  {
    assert names[..i + 1][..i] == names[..i];
  }

  /** A name as a saved template carries it: already trimmed and not empty. */
  predicate Trimmed(name: string) {
    name != "" && !IsSpace(name[0]) && !IsSpace(name[|name| - 1])
  }

  /**
   * Instantiating a template whose names are trimmed and non-empty (as every
   * template saved from a workout is) yields exactly those exercises in
   * template order, each with one empty set.
   */
  lemma {:induction false} TemplateExercisesInOrder(names: seq<string>, hist: map<string, HistoryEntry>, ids: nat -> string)
    requires forall i | 0 <= i < |names| :: Trimmed(names[i])
    ensures Names(TemplateExercises(names, hist, ids)) == names
    ensures forall e | e in TemplateExercises(names, hist, ids) :: e.sets == [EmptySet]
    decreases |names|
  {
    if names != [] {
      var i := |names| - 1;
      TemplateExercisesInOrder(names[..i], hist, ids);
      TrimKeepsTrimmed(names[i]);
      assert Names(TemplateExercises(names, hist, ids)) == Names(TemplateExercises(names[..i], hist, ids)) + [names[i]];
      assert names == names[..i] + [names[i]];
    }
  }

  /**
   * Saving a workout as a template and starting a workout from that template
   * gives the same exercises, by name and in order, each with one empty set.
   */
  lemma TemplateRoundTrip(templateId: string, name: string, exs: seq<Exercise>, hist: map<string, HistoryEntry>, ids: nat -> string)
    requires NamesTrimmed(exs)
    ensures Names(TemplateExercises(TemplateFrom(templateId, name, exs).exercises, hist, ids)) == Names(exs)
    ensures forall e | e in TemplateExercises(TemplateFrom(templateId, name, exs).exercises, hist, ids) :: e.sets == [EmptySet]
  {
    TemplateExercisesInOrder(TemplateFrom(templateId, name, exs).exercises, hist, ids);
  }

  /** Instantiating a template never introduces a duplicate into the library. */
  lemma {:induction false} TemplateLibraryNoDuplicates(lib: seq<string>, names: seq<string>)
    requires NoDuplicates(lib)
    ensures NoDuplicates(TemplateLibrary(lib, names))
    decreases |names|
  {
    if names != [] {
      TemplateLibraryNoDuplicates(lib, names[..|names| - 1]);
    }
  }

  lemma UpdateTwice<K, V>(m: map<K, V>, k: K, a: V, b: V)
    ensures m[k := a][k := b] == m[k := b]
  {
  }

  /**
   * The `forEach` of `startWorkoutFromTemplate`: `addExerciseToWorkout` for
   * each of the template's names in order on the new, still empty workout,
   * the i-th exercise taking `ids(i)`.
   */
  method AddTemplateExercises(st: State, w: Workout, k: string, u: UserRecord, names: seq<string>, ids: nat -> string)
    requires st.currentUser == Some(k) && k != "" && k in st.users && st.users[k] == u
    requires w.exercises == []
    modifies st, w`exercises
    ensures w.exercises == TemplateExercises(names, u.exerciseHistory, ids)
    ensures st.users == old(st.users)[k := u.(exerciseLibrary := TemplateLibrary(u.exerciseLibrary, names))]
    ensures w.id == old(w.id) && w.name == old(w.name) && w.date == old(w.date) && w.useRestTimer == old(w.useRestTimer) && w.restDuration == old(w.restDuration) && w.elapsedSeconds == old(w.elapsedSeconds)
    ensures st.currentUser == Some(k)
    ensures st.saves == old(st.saves) + NonBlankCount(names)
  {
    ghost var users0 := st.users;
    var i := 0;
    while i < |names|
      invariant 0 <= i <= |names|
      invariant st.currentUser == Some(k) && k != ""
      invariant st.users == users0[k := u.(exerciseLibrary := TemplateLibrary(u.exerciseLibrary, names[..i]))]
      invariant w.exercises == TemplateExercises(names[..i], u.exerciseHistory, ids)
      invariant st.saves == old(st.saves) + NonBlankCount(names[..i])
    {
      AddTemplateExercise(st, w, k, u, names, ids, i, users0);
      i := i + 1;
    }
    assert names[..i] == names;
  }

  /** One turn of that `forEach`: the i-th name added, with the signed-in user `k` unchanged. */
  method AddTemplateExercise(st: State, w: Workout, k: string, u: UserRecord, names: seq<string>, ids: nat -> string,
                             i: nat, ghost users0: map<string, UserRecord>)
    requires i < |names|
    requires st.currentUser == Some(k) && k != ""
    requires st.users == users0[k := u.(exerciseLibrary := TemplateLibrary(u.exerciseLibrary, names[..i]))]
    requires w.exercises == TemplateExercises(names[..i], u.exerciseHistory, ids)
    modifies st, w`exercises
    ensures st.currentUser == Some(k)
    ensures st.users == users0[k := u.(exerciseLibrary := TemplateLibrary(u.exerciseLibrary, names[..i + 1]))]
    ensures w.exercises == TemplateExercises(names[..i + 1], u.exerciseHistory, ids)
    ensures st.saves + NonBlankCount(names[..i]) == old(st.saves) + NonBlankCount(names[..i + 1])
  {
    TemplateStep(u.exerciseLibrary, names, u.exerciseHistory, ids, i);
    ghost var before := u.(exerciseLibrary := TemplateLibrary(u.exerciseLibrary, names[..i]));
    ghost var after := u.(exerciseLibrary := TemplateLibrary(u.exerciseLibrary, names[..i + 1]));
    UpdateTwice(users0, k, before, after);
    AddExerciseToWorkout(st, w, names[i], ids(i));
  }

  /**
   * The part of `startWorkoutFromTemplate` after the template `t` is found for
   * the signed-in user `k` (record `u`): a fresh workout named after it
   * becomes active, receives its exercises and starts running.
   */
  method StartFromFound(st: State, k: string, u: UserRecord, t: Template, workoutId: string, date: string, now: int,
                        exerciseIds: nat -> string) returns (w: Workout)
    requires st.currentUser == Some(k) && k != "" && k in st.users && st.users[k] == u
    modifies st
    ensures fresh(w)
    ensures w.id == workoutId && w.name == t.name && w.date == Some(date)
    ensures w.exercises == TemplateExercises(t.exercises, u.exerciseHistory, exerciseIds)
    ensures w.startTime == Some(now) && w.elapsedSeconds == 0 && !w.isPaused
    ensures w.useRestTimer && w.restDuration == 30
    ensures st.users == old(st.users)[k := u.(activeWorkout := w, exerciseLibrary := TemplateLibrary(u.exerciseLibrary, t.exercises))]
    ensures st.currentUser == Some(k)
    ensures st.saves == old(st.saves) + NonBlankCount(t.exercises) + 1
  {
    w := new Workout.Create(workoutId, date);
    w.name := t.name;
    var u1 := u.(activeWorkout := w);
    st.users := st.users[k := u1];
    UpdateTwice(old(st.users), k, u1, u1.(exerciseLibrary := TemplateLibrary(u.exerciseLibrary, t.exercises)));
    AddTemplateExercises(st, w, k, u1, t.exercises, exerciseIds);
    w.StartTimer(now);
    st.saves := st.saves + 1;
  }

  /**
   * `startWorkoutFromTemplate(templateId)`: null for no user, an empty id or an
   * unknown one; otherwise a fresh workout named after the template becomes
   * the active one, gains the template's exercises through
   * `addExerciseToWorkout` in template order, and starts running.
   */
  method StartWorkoutFromTemplate(st: State, templateId: string, workoutId: string, date: string, now: int, exerciseIds: nat -> string)
    returns (w: Workout?)
    modifies st
    ensures !old(st.SignedIn()) || templateId == "" || FindTemplate(old(st.User()).templates, templateId).None? ==>
      w == null && unchanged(st)
    ensures old(st.SignedIn()) && templateId != "" && FindTemplate(old(st.User()).templates, templateId).Some? ==>
      var u := old(st.User());
      var t := FindTemplate(u.templates, templateId).value;
      && w != null && fresh(w)
      && w.id == workoutId && w.name == t.name && w.date == Some(date)
      && w.exercises == TemplateExercises(t.exercises, u.exerciseHistory, exerciseIds)
      && w.startTime == Some(now) && w.elapsedSeconds == 0 && !w.isPaused
      && w.useRestTimer && w.restDuration == 30
      && st.users == old(st.users)[old(st.Key()) := u.(activeWorkout := w, exerciseLibrary := TemplateLibrary(u.exerciseLibrary, t.exercises))]
      && w !in u.workouts
      && st.currentUser == old(st.currentUser)
      && st.saves == old(st.saves) + NonBlankCount(t.exercises) + 1
  {
    if !st.SignedIn() || templateId == "" {
      return null;
    }
    var k, u := st.Key(), st.User();
    var found := FindTemplate(u.templates, templateId);
    if found.None? {
      return null;
    }
    w := StartFromFound(st, k, u, found.value, workoutId, date, now, exerciseIds);
  }

  /** `deleteTemplate(templateId)`: keeps, in order, every template with another id. */
  method DeleteTemplate(st: State, templateId: string)
    modifies st
    ensures !old(st.SignedIn()) ==> unchanged(st)
    ensures old(st.SignedIn()) ==>
      var u := old(st.User());
      && st.users == old(st.users)[old(st.Key()) := u.(templates := WithoutTemplate(u.templates, templateId))]
      && st.currentUser == old(st.currentUser)
      && st.saves == old(st.saves) + 1
  {
    if !st.SignedIn() {
      return;
    }
    var k, u := st.Key(), st.User();
    st.users := st.users[k := u.(templates := WithoutTemplate(u.templates, templateId))];
    st.saves := st.saves + 1;
  }
}
