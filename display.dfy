/**
 * What `js/ui.js` derives for display, and its module-level timer state:
 * the running workout clock and its `MM:SS` text, the rest countdown, the
 * finished-workout history newest first, exercise suggestions, the summary
 * and which home button shows. Interval callbacks are explicit tick calls.
 */
module Display {
  import opened Wrappers
  import opened Text
  import opened Workouts
  import opened Journal
  import Timer

  /* ---------- Time text ---------- */

  /** The workout and rest timer text: minutes and seconds, each padded to two digits. */
  function ClockText(total: int): string {
    PadStart2(IntToString(total / 60)) + ":" + PadStart2(IntToString(JsRem(total, 60)))
  }

  /** The summary's time text: unpadded minutes, two-digit seconds. */
  function SummaryTimeText(total: int): string {
    IntToString(total / 60) + ":" + PadStart2(IntToString(JsRem(total, 60)))
  }

  /** Reads a time text back: the digits before the colon are minutes, the last two are seconds. */
  function ClockValue(s: string): int
    requires |s| >= 3
  {
    60 * ValueOf(s[..|s| - 3]) + ValueOf(s[|s| - 2..])
  }

  /** The seconds part of a non-negative total is always exactly two digits. */
  lemma SecondsText(t: nat)
    ensures |PadStart2(IntToString(JsRem(t, 60)))| == 2
    ensures ValueOf(PadStart2(IntToString(JsRem(t, 60)))) == t % 60
  {
    PadKeepsValue(NatToString(t % 60));
    NatToStringRoundTrip(t % 60);
  }

  /** A time text: digits, a colon, and two digits. */
  predicate TimeShaped(r: string) {
    && |r| >= 4 && r[|r| - 3] == ':'
    && forall i | 0 <= i < |r| && i != |r| - 3 :: IsDigit(r[i])
  }

  /** Digits joined by a colon to two digits make a time text. */
  lemma ColonJoin(m: string, sec: string)
    requires |m| >= 1 && Digits(m) && |sec| == 2 && Digits(sec)
    ensures TimeShaped(m + ":" + sec)
  {
    var r := m + ":" + sec;
    forall i | 0 <= i < |r| && i != |r| - 3
      ensures IsDigit(r[i])
    {
      if i < |m| { assert r[i] == m[i]; } else { assert r[i] == sec[i - |m| - 1]; }
    }
  }

  /**
   * For a non-negative total the timer text is `MM:SS` or longer: digits, a
   * colon and a two-digit seconds field, reading back as the total.
   */
  lemma ClockTextRoundTrip(t: nat)
    ensures |ClockText(t)| >= 5 && TimeShaped(ClockText(t))
    ensures t < 6000 ==> |ClockText(t)| == 5
    ensures ClockValue(ClockText(t)) == t
  {
    var m, sec := PadStart2(IntToString(t / 60)), PadStart2(IntToString(JsRem(t, 60)));
    SecondsText(t);
    var r := ClockText(t);
    assert r == m + ":" + sec;
    ColonJoin(m, sec);
    assert r[..|r| - 3] == m && r[|r| - 2..] == sec;
    PadKeepsValue(NatToString(t / 60));
    NatToStringRoundTrip(t / 60);
  }

  /** The summary text reads back as the total too: unpadded minutes, a colon and two-digit seconds. */
  lemma SummaryTimeRoundTrip(t: nat)
    ensures TimeShaped(SummaryTimeText(t)) && ClockValue(SummaryTimeText(t)) == t
  {
    var m, sec := IntToString(t / 60), PadStart2(IntToString(JsRem(t, 60)));
    SecondsText(t);
    var r := SummaryTimeText(t);
    assert r == m + ":" + sec;
    ColonJoin(m, sec);
    assert r[..|r| - 3] == m && r[|r| - 2..] == sec;
    NatToStringRoundTrip(t / 60);
  }

  /** Below ten minutes the summary time is the timer text without its leading zero. */
  lemma ShortSummaryTime(t: nat)
    requires t < 600
    ensures ClockText(t) == "0" + SummaryTimeText(t)
  {
    var m, sec := IntToString(t / 60), PadStart2(IntToString(JsRem(t, 60)));
    assert m == [Digit(t / 60)];
    assert PadStart2(m) == "0" + m;
    assert ClockText(t) == "0" + m + ":" + sec;
    assert SummaryTimeText(t) == m + ":" + sec;
  }

  /** The name the summary shows: `workout.name || "Untitled Workout"`. */
  function SummaryName(name: string): (r: string)
    ensures r != ""
    ensures name != "" ==> r == name
    ensures name == "" ==> r == "Untitled Workout"
  {
    if name == "" then "Untitled Workout" else name
  }

  /** A missing date in a template literal prints as JavaScript prints null. */
  function DateText(d: Option<string>): string {
    if d.Some? then d.value else "null"
  }

  /** What the workout summary shows. */
  datatype Summary = Summary(name: string, date: string, time: string, exercises: nat, sets: nat)

  /**
   * `showWorkoutSummary(workout)` at time `now`. The date is assigned to
   * `textContent`, which shows a missing date as the empty text.
   */
  function SummaryOf(w: Workout, now: int): (r: Summary)
    reads w
    ensures r.time == SummaryTimeText(Timer.Total(w.Clock(), now))
    ensures r.name == SummaryName(w.name) && r.exercises == |w.exercises| && r.sets == SetCount(w.exercises)
    ensures r.date == if w.date.Some? then w.date.value else ""
  {
    Summary(SummaryName(w.name), w.date.GetOr(""), SummaryTimeText(Timer.Total(w.Clock(), now)), |w.exercises|, SetCount(w.exercises))
  }

  /* ---------- Summary counts ---------- */

  /** The summary's set count: the exercises' set counts summed. */
  function SetCount(exs: seq<Exercise>): nat
    decreases |exs|
  {
    if exs == [] then 0 else SetCount(exs[..|exs| - 1]) + |exs[|exs| - 1].sets|
  }

  /** Replacing one exercise changes the total by the difference in its set count. */
  lemma {:induction false} SetCountUpdate(exs: seq<Exercise>, i: nat, e: Exercise)
    requires i < |exs|
    ensures SetCount(exs[i := e]) + |exs[i].sets| == SetCount(exs) + |e.sets|
    decreases |exs|
  {
    var n := |exs| - 1;
    if i < n {
      assert exs[i := e][..n] == exs[..n][i := e];
      SetCountUpdate(exs[..n], i, e);
    } else {
      assert exs[i := e][..n] == exs[..n];
    }
  }

  /** `addSet` raises the summary set count by one. */
  lemma AddSetCount(exs: seq<Exercise>, i: nat)
    requires i < |exs|
    ensures SetCount(exs[i := exs[i].(sets := exs[i].sets + [EmptySet])]) == SetCount(exs) + 1
  {
    SetCountUpdate(exs, i, exs[i].(sets := exs[i].sets + [EmptySet]));
  }

  /** `removeSet` lowers it by one exactly when the index names a set, counting from the end when negative. */
  lemma RemoveSetCount(exs: seq<Exercise>, i: nat, setIndex: int)
    requires i < |exs|
    ensures SetCount(exs[i := exs[i].(sets := SpliceOne(exs[i].sets, setIndex))]) ==
      SetCount(exs) - (if SpliceStart(|exs[i].sets|, setIndex) < |exs[i].sets| then 1 else 0)
  {
    SetCountUpdate(exs, i, exs[i].(sets := SpliceOne(exs[i].sets, setIndex)));
  }

  /* ---------- History ---------- */

  /** One history line: `${date} — ${name}`, keyed by the workout's id. */
  datatype HistoryItem = HistoryItem(text: string, id: string)

  /** What the history list shows. */
  datatype HistoryView = NoWorkouts | Items(items: seq<HistoryItem>)

  function ItemOf(w: Workout): HistoryItem
    reads w
  {
    HistoryItem(DateText(w.date) + " — " + w.name, w.id)
  }

  /** The history lines, newest workout first. */
  function Newest(ws: seq<Workout>): (r: seq<HistoryItem>)
    reads ws
    ensures |r| == |ws|
    ensures forall i | 0 <= i < |ws| :: r[i] == ItemOf(ws[|ws| - 1 - i])
    decreases |ws|
  {
    if ws == [] then [] else [ItemOf(ws[|ws| - 1])] + Newest(ws[..|ws| - 1])
  }

  /** `renderWorkoutHistory(workouts)`: "No workouts yet" for none, otherwise every workout newest first. */
  function RenderHistory(ws: seq<Workout>): (r: HistoryView)
    reads ws
    ensures r.NoWorkouts? <==> ws == []
    ensures r.Items? ==> |r.items| == |ws| && forall i | 0 <= i < |ws| :: r.items[i] == ItemOf(ws[|ws| - 1 - i])
  {
    if ws == [] then NoWorkouts else Items(Newest(ws))
  }

  /** A workout just finished heads the history, above the earlier ones in their order. */
  lemma FinishedFirst(ws: seq<Workout>, w: Workout)
    ensures RenderHistory(ws + [w]) == Items([ItemOf(w)] + Newest(ws))
  {
    assert (ws + [w])[..|ws|] == ws;
  }

  /* ---------- Suggestions ---------- */

  /** `name.toLowerCase().includes(filter.toLowerCase())`. */
  predicate Matches(name: string, filter: string) {
    Contains(Lower(name), Lower(filter))
  }

  /** The library names matching the filter, in library order (the exercise picker's list). */
  function Matching(lib: seq<string>, filter: string): (r: seq<string>)
    ensures |r| <= |lib|
    ensures forall x :: x in r <==> x in lib && Matches(x, filter)
    decreases |lib|
  {
    if lib == [] then []
    else
      var rest := Matching(lib[..|lib| - 1], filter);
      var x := lib[|lib| - 1];
      assert lib == lib[..|lib| - 1] + [x];
      if Matches(x, filter) then rest + [x] else rest
  }

  /** Filtering a concatenation filters each part in turn, so library order is kept. */
  lemma {:induction false} MatchingAppend(a: seq<string>, b: seq<string>, filter: string)
    ensures Matching(a + b, filter) == Matching(a, filter) + Matching(b, filter)
    decreases |b|
  {
    if b == [] {
      assert a + b == a;
    } else {
      var n := |b| - 1;
      assert (a + b)[..|a + b| - 1] == a + b[..n];
      MatchingAppend(a, b[..n], filter);
    }
  }

  /** An empty filter matches every name. */
  lemma {:induction false} EmptyFilterMatchesAll(lib: seq<string>)
    ensures Matching(lib, "") == lib
    decreases |lib|
  {
    if lib != [] {
      var x := lib[|lib| - 1];
      assert OccursAt(Lower(x), Lower(""), 0);
      EmptyFilterMatchesAll(lib[..|lib| - 1]);
      assert lib == lib[..|lib| - 1] + [x];
    }
  }

  /** The exercise modal's suggestions: the first six matches. */
  function ModalSuggestions(lib: seq<string>, filter: string): (r: seq<string>)
    ensures |r| <= 6
    ensures |r| == if |Matching(lib, filter)| < 6 then |Matching(lib, filter)| else 6
    ensures r == Matching(lib, filter)[..|r|]
  {
    var m := Matching(lib, filter);
    if |m| <= 6 then m else m[..6]
  }

  /** The suggestions under the modal input as the user types: none for an empty input, otherwise every match. */
  function TypedSuggestions(lib: seq<string>, typed: string): (r: seq<string>)
    ensures typed == "" ==> r == []
    ensures typed != "" ==> r == Matching(lib, typed)
    ensures typed != "" ==> forall x :: x in r <==> x in lib && Matches(x, typed)
  {
    if Lower(typed) == "" then [] else Matching(lib, typed)
  }

  /* ---------- Home buttons ---------- */

  /** Which of the two home buttons is hidden. */
  datatype HomeButtons = HomeButtons(newHidden: bool, continueHidden: bool)

  /** `updateHomeButtons()`: exactly one button shows, "continue" precisely when there is a workout to resume. */
  function UpdateHomeButtons(st: State): (b: HomeButtons)
    reads st
    ensures b.newHidden != b.continueHidden
    ensures !b.continueHidden <==> ResumeWorkout(st) != null
  {
    if st.SignedIn() && st.User().activeWorkout != null then HomeButtons(true, false) else HomeButtons(false, true)
  }

  /* ---------- Rest countdown ---------- */

  /**
   * The rest panel: whether the countdown interval runs, the seconds left,
   * whether the display shows "GO!" rather than the seconds left, and
   * whether the panel is hidden or marked complete. Every change of the
   * seconds left either refreshes the display or writes "GO!", so the text
   * shown is a function of these fields.
   */
  datatype Rest = Rest(ticking: bool, remaining: int, go: bool, hidden: bool, complete: bool)

  /** The countdown's text. */
  function RestText(r: Rest): string {
    if r.go then "GO!" else ClockText(r.remaining)
  }

  /** `stopRest()`: no countdown, panel hidden and not complete; the seconds and text stay. */
  function StopRest(r: Rest): (q: Rest)
    ensures !q.ticking && q.hidden && !q.complete
    ensures q.remaining == r.remaining && RestText(q) == RestText(r)
  {
    r.(ticking := false, hidden := true, complete := false)
  }

  /** Stopping twice is stopping once. */
  lemma StopRestIdempotent(r: Rest)
    ensures StopRest(StopRest(r)) == StopRest(r)
  {
  }

  /** `startRest(s)`: the old countdown stopped, then a new one from `s` shown and running. */
  function StartRest(r: Rest, s: int): Rest {
    StopRest(r).(remaining := s, go := false, hidden := false, complete := false, ticking := true)
  }

  /** One interval callback: one second less, and at zero or below the countdown stops itself and shows "GO!". */
  function Tick(r: Rest): Rest {
    if !r.ticking then r
    else if r.remaining - 1 <= 0 then r.(remaining := r.remaining - 1, ticking := false, complete := true, go := true)
    else r.(remaining := r.remaining - 1, go := false)
  }

  function Ticks(r: Rest, k: nat): Rest
    decreases k
  {
    if k == 0 then r else Tick(Ticks(r, k - 1))
  }

  /** Only one countdown is ever live: starting one from any state gives the same fresh countdown, showing `s`. */
  lemma StartRestFresh(r: Rest, q: Rest, s: int)
    ensures StartRest(r, s) == StartRest(q, s) == Rest(true, s, false, false, false)
    ensures RestText(StartRest(r, s)) == ClockText(s)
  {
  }

  /** A countdown not on "GO!" shows its seconds left. */
  lemma ShowsRemaining(q: Rest)
    requires !q.go
    ensures RestText(q) == ClockText(q.remaining)
  {
  }

  /** Before its end the countdown keeps running with the seconds left. */
  lemma {:induction false} CountingDownState(r: Rest, s: int, k: nat)
    requires k < s
    ensures Ticks(StartRest(r, s), k) == Rest(true, s - k, false, false, false)
    decreases k
  {
    if k > 0 {
      CountingDownState(r, s, k - 1);
    }
  }

  /** Before its end the countdown shows the seconds left and keeps running. */
  lemma CountingDown(r: Rest, s: int, k: nat)
    requires k < s
    ensures Ticks(StartRest(r, s), k) == Rest(true, s - k, false, false, false)
    ensures RestText(Ticks(StartRest(r, s), k)) == ClockText(s - k)
  {
    CountingDownState(r, s, k);
    ShowsRemaining(Ticks(StartRest(r, s), k));
  }

  /** After `s` seconds (one tick for a non-positive start) the countdown has stopped itself on "GO!". */
  lemma CountdownEnds(r: Rest, s: int)
    ensures var n := if s >= 1 then s else 1;
      && Ticks(StartRest(r, s), n) == Rest(false, s - n, true, false, true)
      && RestText(Ticks(StartRest(r, s), n)) == "GO!"
  {
    if s >= 1 {
      CountingDown(r, s, s - 1);
    }
  }

  /** A stopped countdown never restarts by itself, however many ticks follow. */
  lemma {:induction false} StoppedStays(r: Rest, k: nat)
    requires !r.ticking
    ensures Ticks(r, k) == r
    decreases k
  {
    if k > 0 {
      StoppedStays(r, k - 1);
    }
  }

  /**
   * The module-level timer state of the page: the workout the running clock
   * interval reads (null when none runs), the clock text, which of pause and
   * resume shows, and the rest panel.
   */
  class Timers {
    var clockOf: Workout?
    var timerText: string
    var pauseShown: bool
    var rest: Rest

    constructor ()
      ensures clockOf == null && timerText == "" && !pauseShown
      ensures rest == Rest(false, 0, false, true, false)
    {
      clockOf := null;
      timerText := "";
      pauseShown := false;
      rest := Rest(false, 0, false, true, false);
    }

    /** `startTimerUI(workout)`: the old interval stopped, pause shown, a new interval on this workout. */
    method StartTimerUI(w: Workout?)
      modifies this`clockOf, this`pauseShown
      ensures clockOf == w && pauseShown
    {
      StopTimerUI();
      ShowPause();
      clockOf := w;
    }

    /**
     * The clock interval's callback: the text of the workout's total seconds
     * at `now`; the workout itself is left as it is.
     */
    method ClockTick(now: int)
      modifies this`timerText
      ensures clockOf != null ==> timerText == ClockText(Timer.Total(clockOf.Clock(), now))
      ensures clockOf == null ==> timerText == old(timerText)
    {
      if clockOf != null {
        timerText := ClockText(Timer.Total(clockOf.Clock(), now));
      }
    }

    /** `stopTimerUI()`. */
    method StopTimerUI()
      modifies this`clockOf
      ensures clockOf == null
    {
      clockOf := null;
    }

    method ShowPause()
      modifies this`pauseShown
      ensures pauseShown
    {
      pauseShown := true;
    }

    method ShowResume()
      modifies this`pauseShown
      ensures !pauseShown
    {
      pauseShown := false;
    }

    method StartRestTimer(seconds: int)
      modifies this`rest
      ensures rest == StartRest(old(rest), seconds)
    {
      StopRestTimer();
      rest := rest.(remaining := seconds);
      UpdateRestDisplay();
      rest := rest.(hidden := false, complete := false, ticking := true);
    }

    /** The rest interval's callback. */
    method RestTick()
      modifies this`rest
      ensures rest == Tick(old(rest))
    {
      if !rest.ticking {
        return;
      }
      rest := rest.(remaining := rest.remaining - 1);
      if rest.remaining <= 0 {
        rest := rest.(ticking := false, complete := true, go := true);
        return;
      }
      UpdateRestDisplay();
    }

    method StopRestTimer()
      modifies this`rest
      ensures rest == StopRest(old(rest))
    {
      rest := rest.(ticking := false, hidden := true, complete := false);
    }

    /** `updateRestDisplay()`: the seconds left as `MM:SS`. */
    method UpdateRestDisplay()
      modifies this`rest
      ensures rest == old(rest).(go := false)
      ensures RestText(rest) == ClockText(rest.remaining)
    {
      rest := rest.(go := false);
    }
  }
}
