/** `exerciseHistoryService`: per-exercise history kept in a key-value
    store under `history_<name>`, personal records updated after each
    workout, and the progressive-overload suggestion for the next session.
    The store is a map field of `HistoryStore`; a failed read is not
    modelled (a read yields the stored value or nothing). */
module ExerciseHistoryService {
  import opened Common
  import opened Tracker

  datatype PersonalRecord = PersonalRecord(maxWeight: real, maxReps: real, maxVolume: real)

  datatype ExerciseHistory = ExerciseHistory(
    exerciseName: string,
    lastPerformed: string,
    lastSets: seq<WorkoutSet>,
    personalRecord: PersonalRecord)

  const HISTORY_PREFIX: string := "history_"

  function HistoryKey(name: string): string
  {
    HISTORY_PREFIX + name
  }

  /** Distinct exercises never share a store key. */
  lemma HistoryKeyInjective(a: string, b: string)
    ensures HistoryKey(a) == HistoryKey(b) <==> a == b
  {
    if HistoryKey(a) == HistoryKey(b) {
      assert a == HistoryKey(a)[|HISTORY_PREFIX|..];
      assert b == HistoryKey(b)[|HISTORY_PREFIX|..];
    }
  }

  // ---------------------------------------------------------------------
  // Personal records.

  function Weights(sets: seq<WorkoutSet>): seq<real>
  {
    seq(|sets|, i requires 0 <= i < |sets| => sets[i].weight)
  }

  function RepsOf(sets: seq<WorkoutSet>): seq<real>
  {
    seq(|sets|, i requires 0 <= i < |sets| => sets[i].reps)
  }

  function SetProduct(s: WorkoutSet): real
  {
    s.weight * s.reps
  }

  /** weight × reps of every set, completed or not. */
  function Volumes(sets: seq<WorkoutSet>): seq<real>
  {
    seq(|sets|, i requires 0 <= i < |sets| => SetProduct(sets[i]))
  }

  /** `existingHistory?.personalRecord.<field> || 0` */
  function PreviousRecord(prev: Option<ExerciseHistory>): PersonalRecord
  {
    match prev
    case None => PersonalRecord(0.0, 0.0, 0.0)
    case Some(h) => h.personalRecord
  }

  predicate Dominates(a: PersonalRecord, b: PersonalRecord)
  {
    a.maxWeight >= b.maxWeight && a.maxReps >= b.maxReps && a.maxVolume >= b.maxVolume
  }

  /** The record reaches every set of the exercise. */
  predicate CoversSet(pr: PersonalRecord, s: WorkoutSet)
  {
    s.weight <= pr.maxWeight && s.reps <= pr.maxReps && SetProduct(s) <= pr.maxVolume
  }

  /** The record after a workout: each field is the best of this workout's
      sets and the previous record, with a missing record counted as 0. */
  function NewRecord(sets: seq<WorkoutSet>, prev: Option<ExerciseHistory>): (r: PersonalRecord)
    ensures IsMaxWith(r.maxWeight, Weights(sets), PreviousRecord(prev).maxWeight)
    ensures IsMaxWith(r.maxReps, RepsOf(sets), PreviousRecord(prev).maxReps)
    ensures IsMaxWith(r.maxVolume, Volumes(sets), PreviousRecord(prev).maxVolume)
  {
    var base := PreviousRecord(prev);
    PersonalRecord(
      MaxWith(Weights(sets), base.maxWeight),
      MaxWith(RepsOf(sets), base.maxReps),
      MaxWith(Volumes(sets), base.maxVolume))
  }

  /** The new record never falls below the previous one and reaches every
      set of the workout. */
  lemma NewRecordBounds(sets: seq<WorkoutSet>, prev: Option<ExerciseHistory>)
    ensures Dominates(NewRecord(sets, prev), PreviousRecord(prev))
    ensures forall j :: 0 <= j < |sets| ==> CoversSet(NewRecord(sets, prev), sets[j])
  {
    var r := NewRecord(sets, prev);
    var ws, rs, vs := Weights(sets), RepsOf(sets), Volumes(sets);
    assert forall j :: 0 <= j < |ws| ==> ws[j] <= r.maxWeight;
    assert forall j :: 0 <= j < |rs| ==> rs[j] <= r.maxReps;
    assert forall j :: 0 <= j < |vs| ==> vs[j] <= r.maxVolume;
    forall j | 0 <= j < |sets| ensures CoversSet(r, sets[j]) {
      assert ws[j] == sets[j].weight && rs[j] == sets[j].reps;
      assert vs[j] == SetProduct(sets[j]);
    }
  }

  function NextHistory(ex: ActiveExercise, date: string, prev: Option<ExerciseHistory>): ExerciseHistory
  {
    ExerciseHistory(ex.name, date, ex.sets, NewRecord(ex.sets, prev))
  }

  /** `getExerciseHistory`: the stored entry, or null. */
  function Lookup(store: map<string, ExerciseHistory>, name: string): (r: Option<ExerciseHistory>)
    ensures r.Some? <==> HistoryKey(name) in store
    ensures r.Some? ==> r.value == store[HistoryKey(name)]
  {
    if HistoryKey(name) in store then Some(store[HistoryKey(name)]) else None
  }

  /** The store after `updateHistory` has handled `exs` one by one. */
  function StoreAfter(store: map<string, ExerciseHistory>, exs: seq<ActiveExercise>, date: string): map<string, ExerciseHistory>
    decreases |exs|
  {
    if exs == [] then store
    else
      var s := StoreAfter(store, exs[..|exs| - 1], date);
      var ex := exs[|exs| - 1];
      s[HistoryKey(ex.name) := NextHistory(ex, date, Lookup(s, ex.name))]
  }

  /** One more exercise is one more store write. */
  lemma StoreAfterStep(store: map<string, ExerciseHistory>, exs: seq<ActiveExercise>, i: nat, date: string)
    requires i < |exs|
    ensures var s := StoreAfter(store, exs[..i], date);
      StoreAfter(store, exs[..i + 1], date) == s[HistoryKey(exs[i].name) := NextHistory(exs[i], date, Lookup(s, exs[i].name))]
  {
    assert exs[..i + 1][..i] == exs[..i];
  }

  predicate Touched(exs: seq<ActiveExercise>, k: string)
  {
    exists i | 0 <= i < |exs| :: HistoryKey(exs[i].name) == k
  }

  /** Only the keys of the workout's exercises are written; every other
      entry is left as it was. */
  lemma {:induction false} StoreAfterFrame(store: map<string, ExerciseHistory>, exs: seq<ActiveExercise>, date: string)
    ensures forall i :: 0 <= i < |exs| ==> HistoryKey(exs[i].name) in StoreAfter(store, exs, date)
    ensures forall k :: !Touched(exs, k) ==>
      (k in StoreAfter(store, exs, date) <==> k in store)
      && (k in store ==> StoreAfter(store, exs, date)[k] == store[k])
    decreases |exs|
  {
    if exs != [] {
      var init := exs[..|exs| - 1];
      StoreAfterFrame(store, init, date);
      forall k | Touched(init, k) ensures Touched(exs, k) {
        var i :| 0 <= i < |init| && HistoryKey(init[i].name) == k;
        assert exs[i] == init[i];
      }
      forall i | 0 <= i < |exs| - 1 ensures HistoryKey(exs[i].name) in StoreAfter(store, exs, date) {
        assert exs[i] == init[i];
      }
    }
  }

  /** Each exercise name's entry holds the sets and name of the workout's
      last exercise with that name, and the workout's date. */
  lemma {:induction false} StoreAfterLatest(store: map<string, ExerciseHistory>, exs: seq<ActiveExercise>, date: string, i: nat)
    requires i < |exs|
    requires forall j :: i < j < |exs| ==> exs[j].name != exs[i].name
    ensures HistoryKey(exs[i].name) in StoreAfter(store, exs, date)
    ensures var h := StoreAfter(store, exs, date)[HistoryKey(exs[i].name)];
      h.exerciseName == exs[i].name && h.lastPerformed == date && h.lastSets == exs[i].sets
    decreases |exs|
  {
    StoreAfterFrame(store, exs, date);
    var last := |exs| - 1;
    if i < last {
      var init := exs[..last];
      assert init[i] == exs[i];
      StoreAfterLatest(store, init, date, i);
      HistoryKeyInjective(exs[last].name, exs[i].name);
    }
  }

  /** Records never decrease: every entry already in the store is replaced,
      if at all, by one whose record dominates it. */
  lemma {:induction false} StoreAfterMonotone(store: map<string, ExerciseHistory>, exs: seq<ActiveExercise>, date: string)
    ensures forall k :: k in store ==>
      (k in StoreAfter(store, exs, date)
      && Dominates(StoreAfter(store, exs, date)[k].personalRecord, store[k].personalRecord))
    decreases |exs|
  {
    if exs != [] {
      var init := exs[..|exs| - 1];
      StoreAfterMonotone(store, init, date);
      NewRecordBounds(exs[|exs| - 1].sets, Lookup(StoreAfter(store, init, date), exs[|exs| - 1].name));
    }
  }

  /** After the update, each exercise's record reaches every set it was
      performed with in this workout, including sets of an earlier exercise
      with the same name. */
  lemma {:induction false} StoreAfterCovers(store: map<string, ExerciseHistory>, exs: seq<ActiveExercise>, date: string)
    ensures forall i, j :: 0 <= i < |exs| && 0 <= j < |exs[i].sets| ==>
      HistoryKey(exs[i].name) in StoreAfter(store, exs, date)
      && CoversSet(StoreAfter(store, exs, date)[HistoryKey(exs[i].name)].personalRecord, exs[i].sets[j])
    decreases |exs|
  {
    StoreAfterFrame(store, exs, date);
    if exs != [] {
      var init := exs[..|exs| - 1];
      StoreAfterCovers(store, init, date);
      var s := StoreAfter(store, init, date);
      var ex := exs[|exs| - 1];
      NewRecordBounds(ex.sets, Lookup(s, ex.name));
      forall i, j | 0 <= i < |exs| && 0 <= j < |exs[i].sets|
        ensures CoversSet(StoreAfter(store, exs, date)[HistoryKey(exs[i].name)].personalRecord, exs[i].sets[j])
      {
        if i < |exs| - 1 {
          assert exs[i] == init[i];
          if HistoryKey(exs[i].name) == HistoryKey(ex.name) {
            HistoryKeyInjective(exs[i].name, ex.name);
          }
        }
      }
    }
  }

  // ---------------------------------------------------------------------
  // Progressive overload.

  const STEP: real := 2.5

  function Ceil(y: real): (c: int)
    ensures y <= c as real < y + 1.0
  {
    -((-y).Floor)
  }

  ghost predicate IsStepMultiple(w: real)
  {
    exists k: int :: w == StepMultiple(k)
  }

  function StepMultiple(k: int): real
  {
    k as real * STEP
  }

  /** `Math.ceil((x + 2.5) / 2.5) * 2.5`: the smallest multiple of 2.5 that
      is at least `x + 2.5`. */
  function RoundUpStep(x: real): (r: real)
    ensures IsStepMultiple(r)
    ensures x + STEP <= r < x + 2.0 * STEP
  {
    var c := Ceil((x + STEP) / STEP);
    assert StepMultiple(c) == c as real * STEP;
    StepMultiple(c)
  }

  function Average(xs: seq<real>): real
    requires xs != []
  {
    SumReal(xs) / |xs| as real
  }

  /** Why the suggestion was made; the two weight increases carry the
      increase `newWeight - avgWeight` that the source renders to one
      decimal. */
  datatype Reason = StrongerWeight(increase: real) | OneMoreRep | SmallWeight(increase: real)

  datatype Suggestion = Suggestion(suggestedSets: seq<WorkoutSet>, reason: Reason)

  const HIGH_REPS: real := 12.0
  const LOW_REPS: real := 6.0
  const RESET_REPS: real := 8.0

  /** `set-${Date.now()}-${i}`, with the clock reading as `stamp`. */
  function SuggestedId(stamp: string, i: nat): string
  {
    "set-" + stamp + "-" + NatToString(i)
  }

  /** Suggested sets never share an id. */
  lemma SuggestedIdsDistinct(stamp: string, i: nat, j: nat)
    ensures SuggestedId(stamp, i) == SuggestedId(stamp, j) <==> i == j
  {
    if SuggestedId(stamp, i) == SuggestedId(stamp, j) {
      var n := |"set-" + stamp + "-"|;
      assert NatToString(i) == SuggestedId(stamp, i)[n..];
      assert NatToString(j) == SuggestedId(stamp, j)[n..];
      DigitsRoundTrip(i);
      DigitsRoundTrip(j);
    }
  }

  /** `getProgressiveOverloadSuggestion` for the stored history `h`. */
  function Suggest(h: Option<ExerciseHistory>, stamp: string): (r: Option<Suggestion>)
    ensures r.None? <==> h.None? || h.value.lastSets == []
    ensures r.Some? ==>
      var sets := h.value.lastSets;
      var out := r.value.suggestedSets;
      && |out| == |sets|
      && (forall i :: 0 <= i < |out| ==> !out[i].completed && out[i].id == SuggestedId(stamp, i))
    ensures r.Some? && Average(RepsOf(h.value.lastSets)) >= HIGH_REPS ==>
      var sets := h.value.lastSets;
      var w := RoundUpStep(Average(Weights(sets)));
      && (forall i :: 0 <= i < |sets| ==> r.value.suggestedSets[i].weight == w && r.value.suggestedSets[i].reps == RESET_REPS)
      && r.value.reason == StrongerWeight(w - Average(Weights(sets)))
    ensures r.Some? && Average(RepsOf(h.value.lastSets)) < LOW_REPS ==>
      var sets := h.value.lastSets;
      && (forall i :: 0 <= i < |sets| ==>
        r.value.suggestedSets[i].weight == sets[i].weight && r.value.suggestedSets[i].reps == sets[i].reps + 1.0)
      && r.value.reason == OneMoreRep
    ensures r.Some? && LOW_REPS <= Average(RepsOf(h.value.lastSets)) < HIGH_REPS ==>
      var sets := h.value.lastSets;
      var w := RoundUpStep(Average(Weights(sets)));
      && (forall i :: 0 <= i < |sets| ==> r.value.suggestedSets[i].weight == w && r.value.suggestedSets[i].reps == sets[i].reps)
      && r.value.reason == SmallWeight(w - Average(Weights(sets)))
  {
    if h.None? || h.value.lastSets == [] then None
    else
      var sets := h.value.lastSets;
      var avgWeight := Average(Weights(sets));
      var avgReps := Average(RepsOf(sets));
      if avgReps >= HIGH_REPS then
        var w := RoundUpStep(avgWeight);
        Some(Suggestion(
          seq(|sets|, i requires 0 <= i < |sets| =>
            sets[i].(id := SuggestedId(stamp, i), weight := w, reps := RESET_REPS, completed := false)),
          StrongerWeight(w - avgWeight)))
      else if avgReps < LOW_REPS then
        Some(Suggestion(
          seq(|sets|, i requires 0 <= i < |sets| =>
            sets[i].(id := SuggestedId(stamp, i), reps := sets[i].reps + 1.0, completed := false)),
          OneMoreRep))
      else
        var w := RoundUpStep(avgWeight);
        Some(Suggestion(
          seq(|sets|, i requires 0 <= i < |sets| =>
            sets[i].(id := SuggestedId(stamp, i), weight := w, completed := false)),
          SmallWeight(w - avgWeight)))
  }

  /** A suggested weight is a multiple of 2.5 at least 2.5 above the
      average weight of the last session and less than 5 above it. */
  lemma SuggestedWeightStep(h: Option<ExerciseHistory>, stamp: string, i: nat)
    requires Suggest(h, stamp).Some?
    requires Average(RepsOf(h.value.lastSets)) >= LOW_REPS
    requires i < |h.value.lastSets|
    ensures var w := Suggest(h, stamp).value.suggestedSets[i].weight;
      var avg := Average(Weights(h.value.lastSets));
      IsStepMultiple(w) && avg + STEP <= w < avg + 2.0 * STEP
  {
  }

  // ---------------------------------------------------------------------

  /** The `settings` store entries written by the service. */
  class HistoryStore {
    var entries: map<string, ExerciseHistory>

    constructor (initial: map<string, ExerciseHistory>)
      ensures entries == initial
    {
      entries := initial;
    }

    method GetExerciseHistory(name: string) returns (h: Option<ExerciseHistory>)
      ensures h == Lookup(entries, name)
    {
      var key := HistoryKey(name);
      if key in entries {
        h := Some(entries[key]);
      } else {
        h := None;
      }
    }

    /** `updateHistory`: one store write per exercise, in order. */
    method UpdateHistory(workout: CompletedWorkout)
      modifies this`entries
      ensures entries == StoreAfter(old(entries), workout.exercises, workout.date)
    {
      var exs := workout.exercises;
      for i := 0 to |exs|
        invariant entries == StoreAfter(old(entries), exs[..i], workout.date)
      {
        var exercise := exs[i];
        var existing := GetExerciseHistory(exercise.name);
        var newHistory := ExerciseHistory(exercise.name, workout.date, exercise.sets, NewRecord(exercise.sets, existing));
        StoreAfterStep(old(entries), exs, i, workout.date);
        entries := entries[HistoryKey(exercise.name) := newHistory];
      }
      assert exs[..|exs|] == exs;
    }

    method GetProgressiveOverloadSuggestion(name: string, stamp: string) returns (r: Option<Suggestion>)
      ensures r == Suggest(Lookup(entries, name), stamp)
    {
      var h := GetExerciseHistory(name);
      r := Suggest(h, stamp);
    }
  }
}
