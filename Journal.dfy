/** The Journal screen: body-measurement entries that can be selected,
    edited, deleted and added, extra named measurements, and the window of
    workouts the volume chart shows. Each handler is one atomic method of
    `JournalScreen`; `localStorage` is split into one map per stored value
    type. Fresh ids (`crypto.randomUUID`), today's date and `parseFloat`
    results are parameters. */
module Journal {
  import opened Common
  import opened Tracker

  const JOURNAL_KEY: string := "neuroLift_journal"
  const DEFAULT_UNIT: string := "cm"
  /** Number of workouts the volume chart shows. */
  const CHART_WINDOW: nat := 10

  /** A named measurement; `value` is `parseFloat` of the typed text, `None`
      standing for NaN. */
  datatype CustomMeasurement = CustomMeasurement(id: string, name: string, value: Option<real>, unit: string)

  /** An entry: its id and date, its numeric measurement fields by name, and
      its custom measurements (absent in entries stored without them). */
  datatype JournalEntry = JournalEntry(
    id: string,
    date: string,
    measurements: map<string, real>,
    customMeasurements: Option<seq<CustomMeasurement>>)

  /** The custom-field input row. */
  datatype CustomDraft = CustomDraft(name: string, value: string, unit: string)

  const EMPTY_DRAFT: CustomDraft := CustomDraft("", "", DEFAULT_UNIT)

  /** `if (editingId)`: null and the empty string are falsy. */
  predicate Truthy(s: Option<string>)
  {
    s.Some? && s.value != ""
  }

  function OrEmpty(cs: Option<seq<CustomMeasurement>>): seq<CustomMeasurement>
  {
    match cs
    case None => []
    case Some(xs) => xs
  }

  // ---------------------------------------------------------------------
  // List transforms.

  /** `entries.filter(ent => ent.id !== id)` */
  function RemoveById(es: seq<JournalEntry>, id: string): (r: seq<JournalEntry>)
    ensures forall e :: e in r ==> e in es && e.id != id
    ensures forall e :: e in es && e.id != id ==> e in r
    ensures |r| <= |es|
  {
    if es == [] then []
    else
      var rest := RemoveById(es[..|es| - 1], id);
      var last := es[|es| - 1];
      assert forall e :: e in es <==> e in es[..|es| - 1] || e == last;
      if last.id == id then rest else rest + [last]
  }

  /** Deleting keeps the order of the other entries: it works piecewise on
      any split of the list. */
  lemma {:induction false} RemoveByIdSplit(a: seq<JournalEntry>, b: seq<JournalEntry>, id: string)
    ensures RemoveById(a + b, id) == RemoveById(a, id) + RemoveById(b, id)
  {
    if b == [] {
      assert a + b == a;
    } else {
      assert (a + b)[..|a + b| - 1] == a + b[..|b| - 1];
      RemoveByIdSplit(a, b[..|b| - 1], id);
    }
  }

  /** Deleting an id no entry has changes nothing. */
  lemma {:induction false} RemoveByIdAbsent(es: seq<JournalEntry>, id: string)
    requires forall i :: 0 <= i < |es| ==> es[i].id != id
    ensures RemoveById(es, id) == es
  {
    if es != [] {
      RemoveByIdAbsent(es[..|es| - 1], id);
      assert es[..|es| - 1] + [es[|es| - 1]] == es;
    }
  }

  /** The entry with the edited id gets the form fields laid over its own
      and the current custom fields; every other entry is kept. */
  function EditEntries(es: seq<JournalEntry>, editingId: string, form: map<string, real>, custom: seq<CustomMeasurement>): (r: seq<JournalEntry>)
    ensures |r| == |es|
    ensures forall i :: 0 <= i < |es| && es[i].id != editingId ==> r[i] == es[i]
    ensures forall i :: 0 <= i < |es| && es[i].id == editingId ==>
      && r[i].id == es[i].id && r[i].date == es[i].date
      && r[i].customMeasurements == Some(custom)
      && r[i].measurements.Keys == es[i].measurements.Keys + form.Keys
      && (forall f :: f in form ==> r[i].measurements[f] == form[f])
      && (forall f :: f in es[i].measurements && f !in form ==> r[i].measurements[f] == es[i].measurements[f])
  {
    seq(|es|, i requires 0 <= i < |es| =>
      if es[i].id == editingId
      then es[i].(measurements := es[i].measurements + form, customMeasurements := Some(custom))
      else es[i])
  }

  function Reverse<T>(xs: seq<T>): (r: seq<T>)
    ensures |r| == |xs|
    ensures forall i :: 0 <= i < |xs| ==> r[i] == xs[|xs| - 1 - i]
  {
    seq(|xs|, i requires 0 <= i < |xs| => xs[|xs| - 1 - i])
  }

  function Volumes(ws: seq<CompletedWorkout>): seq<real>
  {
    seq(|ws|, i requires 0 <= i < |ws| => ws[i].totalVolume)
  }

  /** `[...history].reverse().slice(-10)` */
  function ChartData(history: seq<CompletedWorkout>): seq<CompletedWorkout>
  {
    var rev := Reverse(history);
    if |rev| <= CHART_WINDOW then rev else rev[|rev| - CHART_WINDOW..]
  }

  /** History is newest first, so the chart shows the ten newest workouts,
      oldest first. */
  lemma ChartShowsNewest(history: seq<CompletedWorkout>)
    ensures var n := if |history| < CHART_WINDOW then |history| else CHART_WINDOW;
      ChartData(history) == Reverse(history[..n])
  {
    var n := if |history| < CHART_WINDOW then |history| else CHART_WINDOW;
    var d := ChartData(history);
    var r := Reverse(history[..n]);
    assert |d| == n;
    forall i | 0 <= i < n ensures d[i] == r[i] {
      assert d[i] == Reverse(history)[|history| - n + i];
    }
  }

  /** The chart: nothing with fewer than two workouts, otherwise the points
      and the scale's top, `Math.max(...volumes, 1)`. */
  datatype Chart = Chart(points: seq<CompletedWorkout>, maxVolume: real)

  function VolumeChart(history: seq<CompletedWorkout>): (r: Option<Chart>)
    ensures r.None? <==> |ChartData(history)| < 2
    ensures r.Some? ==> r.value.points == ChartData(history)
    ensures r.Some? ==> r.value.maxVolume >= 1.0
    ensures r.Some? ==> forall w :: w in r.value.points ==> w.totalVolume <= r.value.maxVolume
    ensures r.Some? ==>
      r.value.maxVolume == 1.0 || exists w :: w in r.value.points && w.totalVolume == r.value.maxVolume
  {
    var data := ChartData(history);
    if |data| < 2 then None
    else
      var top := MaxWith(Volumes(data), 1.0);
      assert forall w :: w in data ==> w.totalVolume in Volumes(data) by {
        forall w | w in data ensures w.totalVolume in Volumes(data) {
          var i :| 0 <= i < |data| && data[i] == w;
          assert Volumes(data)[i] == w.totalVolume;
        }
      }
      assert top != 1.0 ==> exists w :: w in data && w.totalVolume == top by {
        if top != 1.0 {
          var i :| 0 <= i < |data| && Volumes(data)[i] == top;
          assert data[i] in data;
        }
      }
      Some(Chart(data, top))
  }

  // ---------------------------------------------------------------------

  class JournalScreen {
    var entries: seq<JournalEntry>
    var formData: map<string, real>
    var customFields: seq<CustomMeasurement>
    var showCustomInput: bool
    var newCustomField: CustomDraft
    var editingId: Option<string>
    var history: seq<CompletedWorkout>
    var journalStorage: map<string, seq<JournalEntry>>
    var historyStorage: map<string, seq<CompletedWorkout>>

    constructor (journalStored: map<string, seq<JournalEntry>>, historyStored: map<string, seq<CompletedWorkout>>)
      ensures entries == [] && formData == map[] && customFields == [] && !showCustomInput
      ensures newCustomField == EMPTY_DRAFT && editingId == None && history == []
      ensures journalStorage == journalStored && historyStorage == historyStored
    {
      entries := [];
      formData := map[];
      customFields := [];
      showCustomInput := false;
      newCustomField := EMPTY_DRAFT;
      editingId := None;
      history := [];
      journalStorage := journalStored;
      historyStorage := historyStored;
    }

    /** The mount effect: saved entries and workout history, when present. */
    method Load()
      modifies this`entries, this`history
      ensures entries == (if JOURNAL_KEY in journalStorage then journalStorage[JOURNAL_KEY] else old(entries))
      ensures history == (if HISTORY_KEY in historyStorage then historyStorage[HISTORY_KEY] else old(history))
    {
      if JOURNAL_KEY in journalStorage {
        entries := journalStorage[JOURNAL_KEY];
      }
      if HISTORY_KEY in historyStorage {
        history := historyStorage[HISTORY_KEY];
      }
    }

    /** `resetFormContent` */
    method ResetFormContent()
      modifies this`formData, this`customFields, this`editingId
      ensures formData == map[] && customFields == [] && editingId == None
    {
      formData := map[];
      customFields := [];
      editingId := None;
    }

    /** `handleSelectEntry`: the form shows the entry's measurement fields. */
    method SelectEntry(entry: JournalEntry)
      modifies this`formData, this`customFields, this`editingId
      ensures editingId == Some(entry.id)
      ensures formData == entry.measurements
      ensures customFields == OrEmpty(entry.customMeasurements)
    {
      editingId := Some(entry.id);
      formData := entry.measurements;
      customFields := OrEmpty(entry.customMeasurements);
    }

    /** `handleDeleteEntry` */
    method DeleteEntry(id: string)
      modifies this`entries, this`journalStorage, this`formData, this`customFields, this`editingId
      ensures entries == RemoveById(old(entries), id)
      ensures journalStorage == old(journalStorage)[JOURNAL_KEY := entries]
      ensures forall e :: e in entries ==> e.id != id
      ensures old(editingId) == Some(id) ==> formData == map[] && customFields == [] && editingId == None
      ensures old(editingId) != Some(id) ==>
        formData == old(formData) && customFields == old(customFields) && editingId == old(editingId)
    {
      var updated := RemoveById(entries, id);
      entries := updated;
      journalStorage := journalStorage[JOURNAL_KEY := updated];
      if editingId == Some(id) {
        ResetFormContent();
      }
    }

    /** `handleSave`: edit the selected entry, or prepend a new one with the
        given id and date; then clear the form. */
    method Save(newId: string, today: string)
      modifies this`entries, this`journalStorage, this`formData, this`customFields, this`editingId
      ensures Truthy(old(editingId)) ==>
        entries == EditEntries(old(entries), old(editingId).value, old(formData), old(customFields))
      ensures !Truthy(old(editingId)) ==>
        entries == [JournalEntry(newId, today, old(formData), Some(old(customFields)))] + old(entries)
      ensures |entries| == |old(entries)| + (if Truthy(old(editingId)) then 0 else 1)
      ensures journalStorage == old(journalStorage)[JOURNAL_KEY := entries]
      ensures formData == map[] && customFields == [] && editingId == None
    {
      if Truthy(editingId) {
        var updated := EditEntries(entries, editingId.value, formData, customFields);
        entries := updated;
        journalStorage := journalStorage[JOURNAL_KEY := updated];
      } else {
        var newEntry := JournalEntry(newId, today, formData, Some(customFields));
        var updated := [newEntry] + entries;
        entries := updated;
        journalStorage := journalStorage[JOURNAL_KEY := updated];
      }
      ResetFormContent();
    }

    /** `handleChange`: the field gets `parseFloat(value) || 0`. */
    method HandleChange(field: string, parsed: Option<real>)
      modifies this`formData
      ensures formData == old(formData)[field := OrZero(parsed)]
      ensures parsed.None? ==> formData[field] == 0.0
    {
      formData := formData[field := OrZero(parsed)];
    }

    /** Typing into the custom-field row. */
    method EditDraft(draft: CustomDraft)
      modifies this`newCustomField
      ensures newCustomField == draft
    {
      newCustomField := draft;
    }

    /** `addCustomField`: only with a name and a value typed in; `parsed` is
        `parseFloat` of the typed value. */
    method AddCustomField(id: string, parsed: Option<real>)
      modifies this`customFields, this`newCustomField, this`showCustomInput
      ensures var d := old(newCustomField);
        if d.name != "" && d.value != "" then
          && customFields == old(customFields) + [CustomMeasurement(id, d.name, parsed, d.unit)]
          && newCustomField == EMPTY_DRAFT
          && !showCustomInput
        else
          && customFields == old(customFields)
          && newCustomField == old(newCustomField)
          && showCustomInput == old(showCustomInput)
    {
      if newCustomField.name != "" && newCustomField.value != "" {
        customFields := customFields + [CustomMeasurement(id, newCustomField.name, parsed, newCustomField.unit)];
        newCustomField := EMPTY_DRAFT;
        showCustomInput := false;
      }
    }
  }
}
