/** The Nutrition screen: a running calorie total for the day, rolled into
    a seven-day history when the date changes. The three `localStorage`
    keys are the three slots of `Stored` (`None` when a key is missing);
    today's date (`toLocaleDateString`) and `parseInt` results are
    parameters. */
module Nutrition {
  import opened Common

  const DAILY_KEY: string := "neuroLift_daily_cal"
  const DATE_KEY: string := "neuroLift_cal_date"
  const HISTORY_KEY: string := "neuroLift_cal_history"
  /** Days kept in the history. */
  const HISTORY_DAYS: nat := 7

  datatype DailyLog = DailyLog(date: string, calories: int)

  /** The values under `DAILY_KEY`, `DATE_KEY` and `HISTORY_KEY`. */
  datatype Stored = Stored(daily: Option<int>, date: Option<string>, history: Option<seq<DailyLog>>)

  /** `if (savedDate)`: a missing or empty date is falsy. */
  predicate HasDate(d: Option<string>)
  {
    d.Some? && d.value != ""
  }

  /** `parseInt(savedDaily || '0')` */
  function DailyOrZero(d: Option<int>): int
  {
    match d
    case None => 0
    case Some(n) => n
  }

  /** `[lastDayLog, ...JSON.parse(savedHistory || '[]')].slice(0, 7)` */
  function RolledHistory(s: Stored): (r: seq<DailyLog>)
    requires s.date.Some?
    ensures 1 <= |r| <= HISTORY_DAYS
    ensures r[0] == DailyLog(s.date.value, DailyOrZero(s.daily))
    ensures var prev := if s.history.Some? then s.history.value else [];
      && |r| == (if |prev| < HISTORY_DAYS then |prev| + 1 else HISTORY_DAYS)
      && r[1..] == prev[..|r| - 1]
  {
    var prev := if s.history.Some? then s.history.value else [];
    var r := Take([DailyLog(s.date.value, DailyOrZero(s.daily))] + prev, HISTORY_DAYS);
    assert r[1..] == ([DailyLog(s.date.value, DailyOrZero(s.daily))] + prev)[1..|r|];
    r
  }

  /** The storage writes of the load effect. */
  function LoadStorage(s: Stored, today: string): (r: Stored)
    ensures r.date == Some(today)
    ensures s.date == Some(today) ==> r == s
    ensures s.date != Some(today) && !HasDate(s.date) ==> r == s.(date := Some(today))
    ensures s.date != Some(today) && HasDate(s.date) ==>
      r == Stored(Some(0), Some(today), Some(RolledHistory(s)))
  {
    if s.date == Some(today) then s
    else if HasDate(s.date) then Stored(Some(0), Some(today), Some(RolledHistory(s)))
    else s.(date := Some(today))
  }

  /** Loading twice on the same day writes nothing the second time. */
  lemma LoadStorageIdempotent(s: Stored, today: string)
    ensures LoadStorage(LoadStorage(s, today), today) == LoadStorage(s, today)
  {
  }

  /** The stored history never exceeds seven days once a rollover wrote it,
      and a rollover never loses the previous day's total. */
  lemma RolloverKeepsLastDay(s: Stored, today: string)
    requires HasDate(s.date) && s.date != Some(today)
    ensures var h := LoadStorage(s, today).history.value;
      |h| <= HISTORY_DAYS && h[0].date == s.date.value && h[0].calories == DailyOrZero(s.daily)
    ensures LoadStorage(s, today).daily == Some(0)
  {
  }

  /** Loads on the given dates, one after another. */
  function LoadDays(s: Stored, days: seq<string>): Stored
    decreases |days|
  {
    if days == [] then s else LoadDays(LoadStorage(s, days[0]), days[1..])
  }

  /** At most seven days are stored, or none. */
  predicate Capped(s: Stored)
  {
    s.history.None? || |s.history.value| <= HISTORY_DAYS
  }

  /** However many days the screen is opened on, the stored history never
      holds more than seven days. */
  lemma {:induction false} LoadDaysCapped(s: Stored, days: seq<string>)
    requires Capped(s)
    ensures Capped(LoadDays(s, days))
    ensures days != [] ==> LoadDays(s, days).date == Some(days[|days| - 1])
    decreases |days|
  {
    if days != [] {
      var s1 := LoadStorage(s, days[0]);
      LoadDaysCapped(s1, days[1..]);
      if |days| > 1 {
        assert days[1..][|days[1..]| - 1] == days[|days| - 1];
      }
    }
  }

  // ---------------------------------------------------------------------

  class NutritionScreen {
    var dailyCalories: int
    var history: seq<DailyLog>
    var caloriesInput: string
    var storage: Stored

    constructor (stored: Stored)
      ensures dailyCalories == 0 && history == [] && caloriesInput == "" && storage == stored
    {
      dailyCalories := 0;
      history := [];
      caloriesInput := "";
      storage := stored;
    }

    /** The load effect for the date `today`. The in-memory history ends as
        the previously saved list whenever there was one, even right after a
        rollover. */
    method Load(today: string)
      modifies this`dailyCalories, this`history, this`storage
      ensures storage == LoadStorage(old(storage), today)
      ensures old(storage).date == Some(today) ==>
        dailyCalories == (if old(storage).daily.Some? then old(storage).daily.value else old(dailyCalories))
      ensures old(storage).date != Some(today) && HasDate(old(storage).date) ==> dailyCalories == 0
      ensures old(storage).date != Some(today) && !HasDate(old(storage).date) ==> dailyCalories == old(dailyCalories)
      ensures old(storage).history.Some? ==> history == old(storage).history.value
      ensures old(storage).history.None? ==>
        history == (if old(storage).date != Some(today) && HasDate(old(storage).date)
                    then RolledHistory(old(storage)) else old(history))
    {
      var savedDaily := storage.daily;
      var savedDate := storage.date;
      var savedHistory := storage.history;
      if savedDate == Some(today) {
        if savedDaily.Some? {
          dailyCalories := savedDaily.value;
        }
      } else if HasDate(savedDate) {
        var newHistory := RolledHistory(storage);
        history := newHistory;
        storage := Stored(Some(0), Some(today), Some(newHistory));
        dailyCalories := 0;
      } else {
        storage := storage.(date := Some(today));
      }
      if savedHistory.Some? {
        history := savedHistory.value;
      }
    }

    /** Typing into the calorie input. */
    method SetInput(text: string)
      modifies this`caloriesInput
      ensures caloriesInput == text
    {
      caloriesInput := text;
    }

    /** `addCalories`: `parsed` is `parseInt(caloriesInput)`, `None` for NaN. */
    method AddCalories(parsed: Option<int>)
      modifies this`dailyCalories, this`storage, this`caloriesInput
      ensures parsed.Some? ==>
        dailyCalories == old(dailyCalories) + parsed.value
        && storage == old(storage).(daily := Some(dailyCalories)) && caloriesInput == ""
      ensures parsed.None? ==>
        dailyCalories == old(dailyCalories) && storage == old(storage) && caloriesInput == old(caloriesInput)
    {
      if parsed.Some? {
        var newVal := dailyCalories + parsed.value;
        dailyCalories := newVal;
        storage := storage.(daily := Some(newVal));
        caloriesInput := "";
      }
    }

    /** `resetDay` */
    method ResetDay()
      modifies this`dailyCalories, this`storage
      ensures dailyCalories == 0 && storage == old(storage).(daily := Some(0))
    {
      dailyCalories := 0;
      storage := storage.(daily := Some(0));
    }
  }
}
