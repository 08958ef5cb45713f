/** The Profile screen's statistics over the saved workout history: the
    number of workouts, their total volume and the rounded average. */
module Profile {
  import opened Common
  import opened Tracker

  /** What `localStorage` holds under the history key, as
      `safeStorage.getParsed` sees it: no item, an empty string, text that
      does not parse, the JSON `null`, or a list of workouts. */
  datatype StoredHistory = Missing | EmptyText | Corrupt | JsonNull | Workouts(workouts: seq<CompletedWorkout>)

  /** `safeStorage.getParsed('neuroLift_history', [])` */
  function LoadWorkouts(stored: StoredHistory): (ws: seq<CompletedWorkout>)
    ensures stored.Workouts? ==> ws == stored.workouts
    ensures !stored.Workouts? ==> ws == []
  {
    match stored
    case Workouts(w) => w
    case _ => []
  }

  /** The stored history as the tracker saves it. */
  function FromStore(store: map<string, seq<CompletedWorkout>>): StoredHistory
  {
    if HISTORY_KEY in store then Workouts(store[HISTORY_KEY]) else Missing
  }

  /** `workouts.length` */
  function TotalWorkouts(ws: seq<CompletedWorkout>): nat
  {
    |ws|
  }

  /** `workouts.reduce((sum, w) => sum + w.totalVolume, 0)`, added up from
      the front as `reduce` does. */
  function TotalVolume(ws: seq<CompletedWorkout>): real
  {
    if ws == [] then 0.0 else TotalVolume(ws[..|ws| - 1]) + ws[|ws| - 1].totalVolume
  }

  /** `Math.round(x)`: the integer nearest `x`, halves rounded up. */
  function Round(x: real): (r: int)
    ensures r as real - 0.5 <= x < r as real + 0.5
  {
    (x + 0.5).Floor
  }

  /** `totalWorkouts > 0 ? Math.round(totalVolume / totalWorkouts) : 0` */
  function AvgVolume(ws: seq<CompletedWorkout>): (r: int)
    ensures |ws| == 0 ==> r == 0
    ensures |ws| > 0 ==> r as real - 0.5 <= TotalVolume(ws) / |ws| as real < r as real + 0.5
  {
    if TotalWorkouts(ws) > 0 then Round(TotalVolume(ws) / TotalWorkouts(ws) as real) else 0
  }

  /** The history splits into a front and a back whose totals add up. */
  lemma {:induction false} TotalVolumeAppend(a: seq<CompletedWorkout>, b: seq<CompletedWorkout>)
    ensures TotalVolume(a + b) == TotalVolume(a) + TotalVolume(b)
  {
    if b == [] {
      assert a + b == a;
    } else {
      assert (a + b)[..|a + b| - 1] == a + b[..|b| - 1];
      TotalVolumeAppend(a, b[..|b| - 1]);
    }
  }

  /** Finishing a workout puts it at the front of the history, adding one
      workout and its volume to the profile's totals. */
  lemma FinishAddsToTotals(w: CompletedWorkout, ws: seq<CompletedWorkout>)
    ensures TotalWorkouts([w] + ws) == TotalWorkouts(ws) + 1
    ensures TotalVolume([w] + ws) == w.totalVolume + TotalVolume(ws)
  {
    TotalVolumeAppend([w], ws);
    assert [w][..0] == [];
  }

  /** If every workout's volume lies between `lo` and `hi`, the total lies
      between `n·lo` and `n·hi` for `n` workouts. */
  lemma {:induction false} TotalVolumeBounds(ws: seq<CompletedWorkout>, lo: real, hi: real)
    requires forall i :: 0 <= i < |ws| ==> lo <= ws[i].totalVolume <= hi
    ensures |ws| as real * lo <= TotalVolume(ws) <= |ws| as real * hi
  {
    if ws != [] {
      var init := ws[..|ws| - 1];
      TotalVolumeBounds(init, lo, hi);
      assert |ws| as real * lo == |init| as real * lo + lo;
      assert |ws| as real * hi == |init| as real * hi + hi;
    }
  }

  /** Hence the rounded average of such workouts lies within half a unit
      of the same range. */
  lemma AvgVolumeBounds(ws: seq<CompletedWorkout>, lo: real, hi: real)
    requires |ws| > 0
    requires forall i :: 0 <= i < |ws| ==> lo <= ws[i].totalVolume <= hi
    ensures lo - 0.5 <= AvgVolume(ws) as real <= hi + 0.5
  {
    TotalVolumeBounds(ws, lo, hi);
    var n := |ws| as real;
    var t := TotalVolume(ws);
    DivBounds(t, n, lo, hi);
  }

  /** From `n·lo <= t <= n·hi` with `n > 0` to `lo <= t/n <= hi`. */
  lemma DivBounds(t: real, n: real, lo: real, hi: real)
    requires n > 0.0 && n * lo <= t <= n * hi
    ensures lo <= t / n <= hi
  {
    var q := t / n;
    assert t == n * q;
    assert n * (q - lo) >= 0.0;
    assert n * (hi - q) >= 0.0;
  }
}
