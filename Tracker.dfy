/** The workout session screen (`Tracker`): choosing muscles and
    exercises, logging sets during a session, the rest countdown that a
    completed set arms, finishing a session into the stored history, and
    the `mm:ss` rendering of clock values.

    Each React handler is one atomic method of `Session`, whose fields are
    the screen's `useState` variables, the three fields it uses from the
    shared clock (`mode`, `timerActive`, `duration`, treated as opaque
    state) and the `localStorage` entry it writes. */
module Tracker {
  import opened Common

  datatype Phase = Setup | Selection | Active | Summary
  datatype ClockMode = Stopwatch | Timer
  datatype SetField = Weight | Reps

  datatype WorkoutSet = WorkoutSet(id: string, weight: real, reps: real, completed: bool)
  datatype ActiveExercise = ActiveExercise(name: string, sets: seq<WorkoutSet>)
  datatype CompletedWorkout = CompletedWorkout(
    id: string,
    date: string,
    durationSeconds: nat,
    exercises: seq<ActiveExercise>,
    totalVolume: real)

  const HISTORY_KEY: string := "neuroLift_history"
  /** Seconds of rest armed by completing a set. */
  const REST_SECONDS: int := 90

  function BlankSet(id: string): WorkoutSet
  {
    WorkoutSet(id, 0.0, 0.0, false)
  }

  // ---------------------------------------------------------------------
  // Selection lists

  /** Adds `x` at the end when absent, removes every copy when present. */
  function Toggle(xs: seq<string>, x: string): (r: seq<string>)
    ensures x in r <==> x !in xs
    ensures forall y :: y != x ==> (y in r <==> y in xs)
  {
    if x in xs then Without(xs, x) else xs + [x]
  }

  /** Toggling keeps a selection list free of duplicates. */
  lemma ToggleKeepsNoDups(xs: seq<string>, x: string)
    requires NoDups(xs)
    ensures NoDups(Toggle(xs, x))
  {
    if x in xs {
      WithoutNoDups(xs, x);
    } else {
      var r := xs + [x];
      forall i, j | 0 <= i < j < |r| ensures r[i] != r[j] {
        if j == |xs| { assert r[i] == xs[i]; }
      }
    }
  }

  /** Toggling an absent value twice gives back the list. */
  lemma ToggleTwiceAbsent(xs: seq<string>, x: string)
    requires x !in xs
    ensures Toggle(xs, x) == xs + [x]
    ensures Toggle(Toggle(xs, x), x) == xs
  {
    WithoutAppended(xs, x);
  }

  /** Toggling a present value twice moves it to the end of the list. */
  lemma ToggleTwicePresent(xs: seq<string>, x: string)
    requires x in xs
    ensures Toggle(Toggle(xs, x), x) == Without(xs, x) + [x]
  {
  }

  // ---------------------------------------------------------------------
  // Volume: the nested `reduce` of `finishWorkout`

  /** weight x reps of one set. */
  function Load(s: WorkoutSet): real
  {
    s.weight * s.reps
  }

  function SetVolume(s: WorkoutSet): real
  {
    if s.completed then Load(s) else 0.0
  }

  function SetsVolume(sets: seq<WorkoutSet>): real
  {
    if sets == [] then 0.0 else SetsVolume(sets[..|sets| - 1]) + SetVolume(sets[|sets| - 1])
  }

  function Volume(exs: seq<ActiveExercise>): real
  {
    if exs == [] then 0.0 else Volume(exs[..|exs| - 1]) + SetsVolume(exs[|exs| - 1].sets)
  }

  /** weight x reps of every completed set, exercise by exercise, set by set. */
  function CompletedProducts(exs: seq<ActiveExercise>): seq<real>
  {
    if exs == [] then []
    else CompletedProducts(exs[..|exs| - 1]) + SetProducts(exs[|exs| - 1].sets)
  }

  function SetProducts(sets: seq<WorkoutSet>): seq<real>
  {
    if sets == [] then []
    else
      var last := sets[|sets| - 1];
      SetProducts(sets[..|sets| - 1]) + (if last.completed then [Load(last)] else [])
  }

  lemma {:induction false} SetsVolumeIsSum(sets: seq<WorkoutSet>)
    ensures SetsVolume(sets) == SumReal(SetProducts(sets))
  {
    if sets != [] {
      var last := sets[|sets| - 1];
      var tail: seq<real> := if last.completed then [Load(last)] else [];
      SetsVolumeIsSum(sets[..|sets| - 1]);
      SumRealAppend(SetProducts(sets[..|sets| - 1]), tail);
      if last.completed {
        assert SumReal(tail) == SumReal(tail[..0]) + tail[0];
      }
    }
  }

  /** The session volume is the sum of weight x reps over the completed sets
      only; sets that are not completed contribute nothing. */
  lemma {:induction false} VolumeIsSumOfCompleted(exs: seq<ActiveExercise>)
    ensures Volume(exs) == SumReal(CompletedProducts(exs))
  {
    if exs != [] {
      VolumeIsSumOfCompleted(exs[..|exs| - 1]);
      SetsVolumeIsSum(exs[|exs| - 1].sets);
      SumRealAppend(CompletedProducts(exs[..|exs| - 1]), SetProducts(exs[|exs| - 1].sets));
    }
  }

  lemma {:induction false} SetsVolumeUpdate(sets: seq<WorkoutSet>, j: nat, s: WorkoutSet)
    requires j < |sets|
    ensures SetsVolume(sets[j := s]) == SetsVolume(sets) - SetVolume(sets[j]) + SetVolume(s)
  {
    var n := |sets|;
    if j == n - 1 {
      assert sets[j := s][..n - 1] == sets[..n - 1];
    } else {
      assert sets[j := s][..n - 1] == sets[..n - 1][j := s];
      SetsVolumeUpdate(sets[..n - 1], j, s);
    }
  }

  lemma {:induction false} VolumeUpdate(exs: seq<ActiveExercise>, i: nat, e: ActiveExercise)
    requires i < |exs|
    ensures Volume(exs[i := e]) == Volume(exs) - SetsVolume(exs[i].sets) + SetsVolume(e.sets)
  {
    var n := |exs|;
    if i == n - 1 {
      assert exs[i := e][..n - 1] == exs[..n - 1];
    } else {
      assert exs[i := e][..n - 1] == exs[..n - 1][i := e];
      VolumeUpdate(exs[..n - 1], i, e);
    }
  }

  /** The exercises with the completed flag of set `j` of exercise `i` flipped. */
  function WithSetToggled(exs: seq<ActiveExercise>, i: nat, j: nat): seq<ActiveExercise>
    requires i < |exs| && j < |exs[i].sets|
  {
    var s := exs[i].sets[j];
    exs[i := ActiveExercise(exs[i].name, exs[i].sets[j := s.(completed := !s.completed)])]
  }

  /** Completing a set adds its weight x reps to the session volume, and
      un-completing it takes that amount away again. */
  lemma ToggleChangesVolume(exs: seq<ActiveExercise>, i: nat, j: nat)
    requires i < |exs| && j < |exs[i].sets|
    ensures exs[i].sets[j].completed ==> Volume(WithSetToggled(exs, i, j)) == Volume(exs) - Load(exs[i].sets[j])
    ensures !exs[i].sets[j].completed ==> Volume(WithSetToggled(exs, i, j)) == Volume(exs) + Load(exs[i].sets[j])
  {
    var s := exs[i].sets[j];
    var t := s.(completed := !s.completed);
    var sets' := exs[i].sets[j := t];
    assert Load(t) == Load(s);
    SetsVolumeUpdate(exs[i].sets, j, t);
    VolumeUpdate(exs, i, ActiveExercise(exs[i].name, sets'));
  }

  // ---------------------------------------------------------------------
  // Rest countdown: one step of the effect on `restRemaining` per second

  function RestTick(r: Option<int>): Option<int>
  {
    match r
    case None => None
    case Some(n) => if n > 0 then Some(n - 1) else if n == 0 then None else r
  }

  function RestAfter(r: Option<int>, ticks: nat): Option<int>
    decreases ticks
  {
    if ticks == 0 then r else RestAfter(RestTick(r), ticks - 1)
  }

  predicate RestInRange(r: Option<int>)
  {
    r.None? || 0 <= r.value <= REST_SECONDS
  }

  /** A positive rest counts down by one per tick. */
  lemma {:induction false} RestCountsDown(n: nat, k: nat)
    requires k <= n
    ensures RestAfter(Some(n), k) == Some(n - k)
  {
    if k > 0 {
      RestCountsDown(n - 1, k - 1);
    }
  }

  /** The tick after reaching zero clears the rest, and it stays cleared. */
  lemma {:induction false} RestClears(n: nat, extra: nat)
    ensures RestAfter(Some(n), n + 1 + extra) == None
  {
    RestCountsDown(n, n);
    RestAfterSplit(Some(n), n, 1 + extra);
    RestStaysCleared(extra);
  }

  lemma {:induction false} RestStaysCleared(k: nat)
    ensures RestAfter(None, k) == None
  {
    if k > 0 {
      RestStaysCleared(k - 1);
    }
  }

  lemma {:induction false} RestAfterSplit(r: Option<int>, a: nat, b: nat)
    decreases a
    ensures RestAfter(r, a + b) == RestAfter(RestAfter(r, a), b)
  {
    if a > 0 {
      RestAfterSplit(RestTick(r), a - 1, b);
    }
  }

  /** Ticks keep a rest value within 0..90 once it is there. */
  lemma RestTickInRange(r: Option<int>)
    requires RestInRange(r)
    ensures RestInRange(RestTick(r))
  {
  }

  // ---------------------------------------------------------------------
  // formatTime

  /** `formatTime`: minutes and seconds, each padded to two digits. */
  function FormatTime(secs: nat): string
  {
    PadStart2(NatToString(secs / 60)) + ":" + PadStart2(NatToString(secs % 60))
  }

  predicate WellFormedTime(t: string)
  {
    |t| >= 3 && AllDigits(t[..|t| - 3]) && t[|t| - 3] == ':' && AllDigits(t[|t| - 2..])
  }

  /** Reads a `mm:ss` string back into seconds. */
  function ParseTime(t: string): int
    requires WellFormedTime(t)
  {
    60 * DigitsValue(t[..|t| - 3]) + DigitsValue(t[|t| - 2..])
  }

  lemma PadKeepsValue(s: string)
    requires |s| >= 1 && AllDigits(s)
    ensures AllDigits(PadStart2(s)) && DigitsValue(PadStart2(s)) == DigitsValue(s)
  {
    if |s| == 1 {
      LeadingZero(s);
    }
  }

  lemma {:induction false} TwoDigitsBelowHundred(n: nat)
    requires n < 100
    ensures |NatToString(n)| <= 2
  {
    if n >= 10 {
      assert |NatToString(n / 10)| == 1;
    }
  }

  /** The seconds field is always exactly two digits after a colon, and the
      string reads back as the number of seconds it renders. */
  lemma FormatTimeRoundTrip(secs: nat)
    ensures WellFormedTime(FormatTime(secs))
    ensures |FormatTime(secs)| >= 5
    ensures ParseTime(FormatTime(secs)) == secs
  {
    var m := NatToString(secs / 60);
    var s := NatToString(secs % 60);
    TwoDigitsBelowHundred(secs % 60);
    PadKeepsValue(m);
    PadKeepsValue(s);
    DigitsRoundTrip(secs / 60);
    DigitsRoundTrip(secs % 60);
    var t := FormatTime(secs);
    assert t[..|t| - 3] == PadStart2(m);
    assert t[|t| - 2..] == PadStart2(s);
  }

  /** Under 100 minutes the rendering is exactly `mm:ss`. */
  lemma FormatTimeFiveChars(secs: nat)
    requires secs < 6000
    ensures |FormatTime(secs)| == 5
  {
    TwoDigitsBelowHundred(secs / 60);
    TwoDigitsBelowHundred(secs % 60);
  }

  // ---------------------------------------------------------------------
  // Countdown mode and the plate modal

  /** `startTimerMode`: the number of seconds `startTimer` is called with,
      if it is called at all, given what `parseInt` made of the input. */
  function CountdownStart(parsed: Option<int>): (r: Option<nat>)
    ensures r.Some? <==> parsed.Some? && parsed.value > 0
    ensures r.Some? ==> r.value == parsed.value
  {
    if parsed.Some? && parsed.value > 0 then Some(parsed.value) else None
  }

  /** The total shown by the plate modal: twice the per-side entry (0 when
      it is empty) plus the bar. */
  function PlateModalTotal(perSide: Option<real>, bar: real): (r: real)
    ensures perSide == None ==> r == bar
    ensures perSide.Some? ==> r - bar == perSide.value + perSide.value
  {
    2.0 * OrZero(perSide) + bar
  }

  // ---------------------------------------------------------------------
  // The screen's state

  /** Two exercise lists that agree everywhere except possibly on set `j`
      of exercise `i`. */
  ghost predicate SameExceptSet(a: seq<ActiveExercise>, b: seq<ActiveExercise>, i: nat, j: nat)
  {
    && |a| == |b|
    && (forall k :: 0 <= k < |a| && k != i ==> b[k] == a[k])
    && (i < |a| ==> b[i].name == a[i].name && |b[i].sets| == |a[i].sets|)
    && (i < |a| ==> forall m :: 0 <= m < |a[i].sets| && m != j ==> b[i].sets[m] == a[i].sets[m])
  }

  class Session {
    var phase: Phase
    var selectedMuscles: seq<string>
    var selectedExercises: seq<string>
    var activeExercises: seq<ActiveExercise>
    var completedWorkout: Option<CompletedWorkout>
    var restRemaining: Option<int>
    // fields of the shared clock
    var mode: ClockMode
    var timerActive: bool
    var duration: nat
    // localStorage, by key
    var storage: map<string, seq<CompletedWorkout>>

    ghost predicate Valid()
      reads this
    {
      && NoDups(selectedMuscles)
      && NoDups(selectedExercises)
      && RestInRange(restRemaining)
      && (forall e | e in activeExercises :: |e.sets| >= 1)
    }

    /** `JSON.parse(localStorage.getItem('neuroLift_history') || '[]')` */
    function StoredHistory(): seq<CompletedWorkout>
      reads this
    {
      if HISTORY_KEY in storage then storage[HISTORY_KEY] else []
    }

    constructor (clockMode: ClockMode, clockActive: bool, clockDuration: nat,
                 store: map<string, seq<CompletedWorkout>>)
      ensures Valid()
      ensures phase == Setup && selectedMuscles == [] && selectedExercises == []
      ensures activeExercises == [] && completedWorkout == None && restRemaining == None
      ensures mode == clockMode && timerActive == clockActive && duration == clockDuration
      ensures storage == store
    {
      phase := Setup;
      selectedMuscles := [];
      selectedExercises := [];
      activeExercises := [];
      completedWorkout := None;
      restRemaining := None;
      mode := clockMode;
      timerActive := clockActive;
      duration := clockDuration;
      storage := store;
    }

    method ToggleMuscle(m: string)
      requires Valid()
      modifies this`selectedMuscles
      ensures Valid()
      ensures m in old(selectedMuscles) ==> selectedMuscles == Without(old(selectedMuscles), m)
      ensures m !in old(selectedMuscles) ==> selectedMuscles == old(selectedMuscles) + [m]
    {
      ToggleKeepsNoDups(selectedMuscles, m);
      selectedMuscles := Toggle(selectedMuscles, m);
    }

    method ToggleExercise(ex: string)
      requires Valid()
      modifies this`selectedExercises
      ensures Valid()
      ensures ex in old(selectedExercises) ==> selectedExercises == Without(old(selectedExercises), ex)
      ensures ex !in old(selectedExercises) ==> selectedExercises == old(selectedExercises) + [ex]
    {
      ToggleKeepsNoDups(selectedExercises, ex);
      selectedExercises := Toggle(selectedExercises, ex);
    }

    /** The "select exercises" button of the setup phase. */
    method ChooseExercises()
      requires Valid()
      modifies this`phase
      ensures Valid() && phase == Selection
    {
      phase := Selection;
    }

    /** The "back" button of the selection phase. */
    method BackToSetup()
      requires Valid()
      modifies this`phase
      ensures Valid() && phase == Setup
    {
      phase := Setup;
    }

    /** `handleStartWorkout`; `ids` are the fresh set ids, one per exercise. */
    method StartWorkout(ids: seq<string>)
      requires Valid()
      requires |ids| == |selectedExercises|
      modifies this`phase, this`timerActive, this`mode, this`duration, this`activeExercises
      ensures Valid()
      ensures phase == Active && timerActive && mode == Stopwatch && duration == 0
      ensures |activeExercises| == |selectedExercises|
      ensures forall i :: 0 <= i < |activeExercises| ==>
        activeExercises[i] == ActiveExercise(selectedExercises[i], [BlankSet(ids[i])])
    {
      phase := Active;
      timerActive := true;
      mode := Stopwatch;
      duration := 0;
      var exs: seq<ActiveExercise> := [];
      for i := 0 to |selectedExercises|
        invariant |exs| == i
        invariant forall k :: 0 <= k < i ==> exs[k] == ActiveExercise(selectedExercises[k], [BlankSet(ids[k])])
      {
        exs := exs + [ActiveExercise(selectedExercises[i], [BlankSet(ids[i])])];
      }
      activeExercises := exs;
    }

    /** `addSet`; an index with no exercise makes the handler throw, which
        changes nothing (`ok` is false). */
    method AddSet(i: nat, id: string) returns (ok: bool)
      requires Valid()
      modifies this`activeExercises
      ensures Valid()
      ensures ok <==> i < |old(activeExercises)|
      ensures !ok ==> activeExercises == old(activeExercises)
      ensures |activeExercises| == |old(activeExercises)|
      ensures forall k :: 0 <= k < |activeExercises| && k != i ==> activeExercises[k] == old(activeExercises)[k]
      ensures ok ==> activeExercises[i].name == old(activeExercises)[i].name
      ensures ok ==> activeExercises[i].sets == old(activeExercises)[i].sets + [BlankSet(id)]
    {
      ok := i < |activeExercises|;
      if ok {
        var e := activeExercises[i];
        activeExercises := activeExercises[i := ActiveExercise(e.name, e.sets + [BlankSet(id)])];
      }
    }

    /** `updateSet`: `parsed` is what `parseFloat` made of the input text. */
    method UpdateSet(i: nat, j: nat, field: SetField, parsed: Option<real>) returns (ok: bool)
      requires Valid()
      modifies this`activeExercises
      ensures Valid()
      ensures ok <==> i < |old(activeExercises)| && j < |old(activeExercises)[i].sets|
      ensures !ok ==> activeExercises == old(activeExercises)
      ensures SameExceptSet(old(activeExercises), activeExercises, i, j)
      ensures ok ==> var s := old(activeExercises)[i].sets[j];
        activeExercises[i].sets[j] ==
          match field
          case Weight => s.(weight := OrZero(parsed))
          case Reps => s.(reps := OrZero(parsed))
    {
      ok := i < |activeExercises| && j < |activeExercises[i].sets|;
      if ok {
        var e := activeExercises[i];
        var s := e.sets[j];
        var value := OrZero(parsed);
        var s' := match field
          case Weight => s.(weight := value)
          case Reps => s.(reps := value);
        activeExercises := activeExercises[i := ActiveExercise(e.name, e.sets[j := s'])];
      }
    }

    /** `toggleSetComplete`: flips the flag and arms (or clears) the rest. */
    method ToggleSetComplete(i: nat, j: nat) returns (ok: bool)
      requires Valid()
      modifies this`activeExercises, this`restRemaining
      ensures Valid()
      ensures ok <==> i < |old(activeExercises)| && j < |old(activeExercises)[i].sets|
      ensures !ok ==> activeExercises == old(activeExercises) && restRemaining == old(restRemaining)
      ensures ok ==> activeExercises == WithSetToggled(old(activeExercises), i, j)
      ensures SameExceptSet(old(activeExercises), activeExercises, i, j)
      ensures ok ==> var s := old(activeExercises)[i].sets[j];
        && activeExercises[i].sets[j] == s.(completed := !s.completed)
        && restRemaining == (if !s.completed then Some(REST_SECONDS) else None)
    {
      ok := i < |activeExercises| && j < |activeExercises[i].sets|;
      if ok {
        var nowCompleted := !activeExercises[i].sets[j].completed;
        activeExercises := WithSetToggled(activeExercises, i, j);
        restRemaining := if nowCompleted then Some(REST_SECONDS) else None;
      }
    }

    /** One second of the rest countdown effect. */
    method Tick()
      requires Valid()
      modifies this`restRemaining
      ensures Valid()
      ensures restRemaining == RestTick(old(restRemaining))
    {
      RestTickInRange(restRemaining);
      restRemaining := RestTick(restRemaining);
    }

    /** The plate modal's save button: writes the modal total into the
        weight of the set it was opened for. */
    method SavePlateWeight(i: nat, j: nat, perSide: Option<real>, bar: real) returns (ok: bool)
      requires Valid()
      modifies this`activeExercises
      ensures Valid()
      ensures ok <==> i < |old(activeExercises)| && j < |old(activeExercises)[i].sets|
      ensures SameExceptSet(old(activeExercises), activeExercises, i, j)
      ensures ok ==> activeExercises[i].sets[j] == old(activeExercises)[i].sets[j].(weight := PlateModalTotal(perSide, bar))
    {
      ok := UpdateSet(i, j, Weight, Some(PlateModalTotal(perSide, bar)));
    }

    /** `finishWorkout`: `id` and `date` stand for `crypto.randomUUID()` and
        `toLocaleDateString()`. */
    method FinishWorkout(id: string, date: string)
      requires Valid()
      modifies this`timerActive, this`restRemaining, this`storage, this`completedWorkout, this`phase
      ensures Valid()
      ensures !timerActive && restRemaining == None && phase == Summary
      ensures completedWorkout.Some?
      ensures completedWorkout.value == CompletedWorkout(id, date, duration, activeExercises, Volume(activeExercises))
      ensures completedWorkout.value.totalVolume == SumReal(CompletedProducts(activeExercises))
      ensures StoredHistory() == [completedWorkout.value] + old(StoredHistory())
      ensures storage.Keys == old(storage).Keys + {HISTORY_KEY}
      ensures forall k :: k in storage && k != HISTORY_KEY ==> storage[k] == old(storage)[k]
    {
      timerActive := false;
      restRemaining := None;
      var volume := Volume(activeExercises);
      VolumeIsSumOfCompleted(activeExercises);
      var record := CompletedWorkout(id, date, duration, activeExercises, volume);
      var history := StoredHistory();
      storage := storage[HISTORY_KEY := [record] + history];
      completedWorkout := Some(record);
      phase := Summary;
    }

    /** `reset`: back to setup; the exercises of the last session stay. */
    method Reset()
      requires Valid()
      modifies this`phase, this`selectedMuscles, this`selectedExercises,
               this`completedWorkout, this`restRemaining, this`timerActive
      ensures Valid()
      ensures phase == Setup && selectedMuscles == [] && selectedExercises == []
      ensures completedWorkout == None && restRemaining == None && !timerActive
    {
      phase := Setup;
      selectedMuscles := [];
      selectedExercises := [];
      completedWorkout := None;
      restRemaining := None;
      timerActive := false;
    }
  }
}
