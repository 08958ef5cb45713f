/** The Program Planner screen: a list of muscle groups, a search box over
    every exercise of the localised database, and the selected muscle. The
    search is given twice: as written, where it looks categories up directly
    under a muscle although the database puts sub-muscles there, and as
    intended, where a muscle's category is the concatenation of that category
    over its sub-muscles. */
module ProgramPlanner {
  import opened Common
  import opened ExerciseData

  datatype SearchResult = SearchResult(name: string, muscle: string, category: string)

  /** The result of a render-time computation that may throw. */
  datatype Outcome<T> = Ok(value: T) | TypeError

  /** `ex.toLowerCase().includes(searchQuery.toLowerCase())` */
  predicate Matches(ex: string, query: string)
  {
    Contains(Lower(ex), Lower(query))
  }

  // ---------------------------------------------------------------------
  // As written.

  /** `categories[cat]` where `categories` is the muscle's sub-muscle object:
      the sub-muscle stored under that key, or `undefined`. */
  function LookupKey(subs: seq<(string, Categorized<string>)>, key: string): (r: Option<Categorized<string>>)
    ensures r.None? <==> forall j :: 0 <= j < |subs| ==> subs[j].0 != key
  {
    if subs == [] then None
    else if subs[0].0 == key then Some(subs[0].1)
    else LookupKey(subs[1..], key)
  }

  /** One muscle's part of the `flatMap`: `categories['weightlifting']` is
      `undefined` or a sub-muscle object, and neither has a `forEach`, so the
      first category already throws. */
  function MuscleAsWritten(subs: seq<(string, Categorized<string>)>): Outcome<seq<SearchResult>>
  {
    match LookupKey(subs, CATEGORY_NAMES[0])
    case None => TypeError
    case Some(_) => TypeError
  }

  /** `filteredExercises` as written: an empty query gives no results;
      otherwise the `flatMap` starts on the first muscle, and what that
      muscle throws escapes the render. */
  function SearchAsWritten(db: ExerciseDb, query: string): (r: Outcome<seq<SearchResult>>)
    ensures r.Ok? ==> r.value == []
  {
    if query == "" || db == [] then Ok([])
    else MuscleAsWritten(db[0].1)
  }

  /** As written, any non-empty query over a non-empty database throws while
      the screen renders. */
  lemma SearchAsWrittenThrows(db: ExerciseDb, query: string)
    requires query != "" && db != []
    ensures SearchAsWritten(db, query) == TypeError
  {
  }

  /** The intended search finds "press" in "Incline Dumbbell Press". */
  lemma PressMatches()
    ensures Matches("Incline Dumbbell Press", "press")
  {
    var ex := "Incline Dumbbell Press";
    var lx := Lower(ex);
    forall n | 0 <= n < 5 ensures Lower("press")[n] == "press"[n] {
    }
    assert Lower("press") == "press";
    forall n | 0 <= n < 5 ensures lx[17 + n] == "press"[n] {
      assert lx[17 + n] == LowerChar(ex[17 + n]);
    }
    assert lx[17..22] == "press";
    assert MatchesAt(lx, Lower("press"), 17);
  }

  /** A one-exercise database: the query "press" throws as written, while
      the intended search finds the exercise. */
  lemma SearchAsWrittenCounterexample()
    ensures var db := [("Chest", [("Upper Chest", Categorized(["Incline Dumbbell Press"], [], []))])];
      && SearchAsWritten(db, "press") == TypeError
      && Search(db, "press") == [SearchResult("Incline Dumbbell Press", "Chest", "weightlifting")]
  {
    var ex := "Incline Dumbbell Press";
    var subs := [("Upper Chest", Categorized([ex], [], []))];
    var db := [("Chest", subs)];
    PressMatches();
    assert CategoryView(subs, 0) == [ex] by {
      assert subs[..0] == [];
    }
    assert CategoryView(subs, 1) == [] by {
      assert subs[..0] == [];
    }
    assert CategoryView(subs, 2) == [] by {
      assert subs[..0] == [];
    }
    assert ListMatches([ex], "Chest", "weightlifting", "press") == [SearchResult(ex, "Chest", "weightlifting")] by {
      assert [ex][..0] == [];
    }
    assert MuscleResults("Chest", subs, "press", 1) == [SearchResult(ex, "Chest", "weightlifting")];
    assert ListMatches(CategoryView(subs, 1), "Chest", CATEGORY_NAMES[1], "press") == [];
    assert ListMatches(CategoryView(subs, 2), "Chest", CATEGORY_NAMES[2], "press") == [];
    assert MuscleResults("Chest", subs, "press", 3) == [SearchResult(ex, "Chest", "weightlifting")];
    assert db[..0] == [];
  }

  /** The muscle view's `exerciseDB[selectedMuscle]?.[category] || []` as
      written: a category is looked up among the sub-muscle keys. The
      Tracker's exercise-selection step makes the same lookup. */
  function MuscleListAsWritten(subs: seq<(string, Categorized<string>)>, k: nat): Option<Categorized<string>>
    requires k < 3
  {
    LookupKey(subs, CATEGORY_NAMES[k])
  }

  /** With no sub-muscle named after a category, as in the database, the
      muscle view finds nothing under any category (and falls back to an
      empty list), while the intended view lists every exercise. */
  lemma MuscleListAsWrittenEmpty(subs: seq<(string, Categorized<string>)>, k: nat)
    requires k < 3
    requires forall j :: 0 <= j < |subs| ==> subs[j].0 !in CATEGORY_NAMES
    ensures MuscleListAsWritten(subs, k).None?
  {
    forall j | 0 <= j < |subs| ensures subs[j].0 != CATEGORY_NAMES[k] {
      assert CATEGORY_NAMES[k] in CATEGORY_NAMES;
    }
  }

  // ---------------------------------------------------------------------
  // As intended.

  /** A muscle's exercises of category `k`: that category of each
      sub-muscle, in sub-muscle order. */
  function CategoryView(subs: seq<(string, Categorized<string>)>, k: nat): seq<string>
    requires k < 3
  {
    if subs == [] then [] else CategoryView(subs[..|subs| - 1], k) + CategoryList(subs[|subs| - 1].1, k)
  }

  /** A muscle's category view holds exactly the exercises of that category
      under its sub-muscles. */
  lemma {:induction false} CategoryViewMembers(subs: seq<(string, Categorized<string>)>, k: nat)
    requires k < 3
    ensures forall x :: x in CategoryView(subs, k) <==> exists j :: 0 <= j < |subs| && x in CategoryList(subs[j].1, k)
  {
    if subs != [] {
      var init := subs[..|subs| - 1];
      CategoryViewMembers(init, k);
      assert forall j :: 0 <= j < |init| ==> init[j] == subs[j];
    }
  }

  /** The matching exercises of one list, in list order. */
  function ListMatches(list: seq<string>, muscle: string, category: string, query: string): seq<SearchResult>
  {
    if list == [] then []
    else
      var last := list[|list| - 1];
      ListMatches(list[..|list| - 1], muscle, category, query)
      + (if Matches(last, query) then [SearchResult(last, muscle, category)] else [])
  }

  /** A list's matches are exactly its names that contain the query, tagged
      with the muscle and category. */
  lemma {:induction false} ListMatchesMembers(list: seq<string>, muscle: string, category: string, query: string)
    ensures forall o :: o in ListMatches(list, muscle, category, query) ==>
      o.name in list && Matches(o.name, query) && o.muscle == muscle && o.category == category
    ensures forall x :: x in list && Matches(x, query) ==> SearchResult(x, muscle, category) in ListMatches(list, muscle, category, query)
  {
    if list != [] {
      var init := list[..|list| - 1];
      ListMatchesMembers(init, muscle, category, query);
      assert forall x :: x in list <==> x in init || x == list[|list| - 1];
    }
  }

  /** Scanning one more name of a list adds it when it matches. */
  lemma ListMatchesStep(list: seq<string>, n: nat, muscle: string, category: string, query: string)
    requires n < |list|
    ensures ListMatches(list[..n + 1], muscle, category, query)
      == ListMatches(list[..n], muscle, category, query)
         + (if Matches(list[n], query) then [SearchResult(list[n], muscle, category)] else [])
  {
    assert list[..n + 1][..n] == list[..n];
  }

  /** One muscle's results over its first `k` categories. */
  function MuscleResults(muscle: string, subs: seq<(string, Categorized<string>)>, query: string, k: nat): seq<SearchResult>
    requires k <= 3
  {
    if k == 0 then []
    else
      MuscleResults(muscle, subs, query, k - 1)
      + ListMatches(CategoryView(subs, k - 1), muscle, CATEGORY_NAMES[k - 1], query)
  }

  /** `filteredExercises` as intended: nothing for an empty query, else the
      matches of every muscle, category and exercise in that order. */
  function Search(db: ExerciseDb, query: string): (r: seq<SearchResult>)
    ensures query == "" ==> r == []
  {
    if query == "" || db == [] then []
    else Search(db[..|db| - 1], query) + MuscleResults(db[|db| - 1].0, db[|db| - 1].1, query, 3)
  }

  /** Muscles contribute in key order: the results over a split database
      are the results of the first part followed by those of the second. */
  lemma {:induction false} SearchSplit(a: ExerciseDb, b: ExerciseDb, query: string)
    ensures Search(a + b, query) == Search(a, query) + Search(b, query)
  {
    if query != "" && b != [] {
      assert (a + b)[..|a + b| - 1] == a + b[..|b| - 1];
      SearchSplit(a, b[..|b| - 1], query);
    } else if query != "" {
      assert a + b == a;
    }
  }

  lemma {:induction false} MuscleResultsSound(muscle: string, subs: seq<(string, Categorized<string>)>, query: string, k: nat)
    requires k <= 3
    ensures forall o :: o in MuscleResults(muscle, subs, query, k) ==>
      o.muscle == muscle && Matches(o.name, query)
      && (exists c :: 0 <= c < k && o.category == CATEGORY_NAMES[c] && o.name in CategoryView(subs, c))
  {
    if k > 0 {
      MuscleResultsSound(muscle, subs, query, k - 1);
      ListMatchesMembers(CategoryView(subs, k - 1), muscle, CATEGORY_NAMES[k - 1], query);
    }
  }

  /** Every result's name contains the query, case-insensitively, and the
      result names the muscle it was found under and one of the three
      categories, which does hold the exercise. */
  lemma {:induction false} SearchSound(db: ExerciseDb, query: string)
    ensures forall o :: o in Search(db, query) ==>
      Matches(o.name, query)
      && (exists i, c :: 0 <= i < |db| && 0 <= c < 3 && o.muscle == db[i].0 && o.category == CATEGORY_NAMES[c]
           && o.name in CategoryView(db[i].1, c))
  {
    if query != "" && db != [] {
      var init := db[..|db| - 1];
      SearchSound(init, query);
      MuscleResultsSound(db[|db| - 1].0, db[|db| - 1].1, query, 3);
      forall o | o in Search(db, query)
        ensures exists i, c :: (0 <= i < |db| && 0 <= c < 3 && o.muscle == db[i].0 && o.category == CATEGORY_NAMES[c]
                                && o.name in CategoryView(db[i].1, c))
      {
        if o in Search(init, query) {
          var i, c :| 0 <= i < |init| && 0 <= c < 3 && o.muscle == init[i].0 && o.category == CATEGORY_NAMES[c]
            && o.name in CategoryView(init[i].1, c);
          assert init[i] == db[i];
        } else {
          var c :| 0 <= c < 3 && o.category == CATEGORY_NAMES[c] && o.name in CategoryView(db[|db| - 1].1, c);
          assert o.muscle == db[|db| - 1].0;
        }
      }
    }
  }

  lemma {:induction false} MuscleResultsComplete(muscle: string, subs: seq<(string, Categorized<string>)>, query: string, k: nat, c: nat, x: string)
    requires c < k <= 3
    requires x in CategoryView(subs, c) && Matches(x, query)
    ensures SearchResult(x, muscle, CATEGORY_NAMES[c]) in MuscleResults(muscle, subs, query, k)
  {
    if c < k - 1 {
      MuscleResultsComplete(muscle, subs, query, k - 1, c, x);
    } else {
      ListMatchesMembers(CategoryView(subs, c), muscle, CATEGORY_NAMES[c], query);
    }
  }

  /** Every matching exercise of every muscle and category is found. */
  lemma {:induction false} SearchComplete(db: ExerciseDb, query: string, i: nat, c: nat, x: string)
    requires query != "" && i < |db| && c < 3
    requires x in CategoryView(db[i].1, c) && Matches(x, query)
    ensures SearchResult(x, db[i].0, CATEGORY_NAMES[c]) in Search(db, query)
  {
    var init := db[..|db| - 1];
    var last := MuscleResults(db[|db| - 1].0, db[|db| - 1].1, query, 3);
    var o := SearchResult(x, db[i].0, CATEGORY_NAMES[c]);
    if i == |db| - 1 {
      assert o in last by {
        MuscleResultsComplete(db[i].0, db[i].1, query, 3, c, x);
      }
    } else {
      assert o in Search(init, query) by {
        assert init[i] == db[i];
        SearchComplete(init, query, i, c, x);
      }
    }
    assert Search(db, query) == Search(init, query) + last;
  }

  /** Searching one more muscle appends that muscle's results. */
  lemma SearchStep(db: ExerciseDb, i: nat, query: string)
    requires query != "" && i < |db|
    ensures Search(db[..i + 1], query) == Search(db[..i], query) + MuscleResults(db[i].0, db[i].1, query, 3)
  {
    assert db[..i + 1][..i] == db[..i];
  }

  /** The inner `forEach` over one category's exercises, pushing each
      match. `q` is the lower-cased query. */
  method CategoryMatches(list: seq<string>, muscle: string, category: string, query: string, q: string)
    returns (found: seq<SearchResult>)
    requires q == Lower(query)
    ensures found == ListMatches(list, muscle, category, query)
  {
    found := [];
    for n := 0 to |list|
      invariant found == ListMatches(list[..n], muscle, category, query)
    {
      ListMatchesStep(list, n, muscle, category, query);
      if Contains(Lower(list[n]), q) {
        found := found + [SearchResult(list[n], muscle, category)];
      }
    }
    assert list[..|list|] == list;
  }

  /** The `flatMap` callback for one muscle: the three categories in order. */
  method MuscleMatches(muscle: string, subs: seq<(string, Categorized<string>)>, query: string, q: string)
    returns (allExs: seq<SearchResult>)
    requires q == Lower(query)
    ensures allExs == MuscleResults(muscle, subs, query, 3)
  {
    allExs := [];
    for k := 0 to 3
      invariant allExs == MuscleResults(muscle, subs, query, k)
    {
      var found := CategoryMatches(CategoryView(subs, k), muscle, CATEGORY_NAMES[k], query, q);
      allExs := allExs + found;
    }
  }

  /** `filteredExercises`: nothing for an empty query, else the matches of
      each muscle in key order. */
  method FilteredExercises(db: ExerciseDb, query: string) returns (r: seq<SearchResult>)
    ensures r == Search(db, query)
  {
    if query == "" {
      return [];
    }
    r := [];
    var q := Lower(query);
    for i := 0 to |db|
      invariant r == Search(db[..i], query)
    {
      SearchStep(db, i, query);
      var allExs := MuscleMatches(db[i].0, db[i].1, query, q);
      r := r + allExs;
    }
    assert db[..|db|] == db;
  }

  // ---------------------------------------------------------------------

  class Planner {
    var selectedMuscle: Option<string>
    var selectedExercise: Option<string>
    var searchQuery: string

    constructor ()
      ensures selectedMuscle.None? && selectedExercise.None? && searchQuery == ""
    {
      selectedMuscle := None;
      selectedExercise := None;
      searchQuery := "";
    }

    /** Typing in the search box: a non-empty query clears the muscle. */
    method OnSearchChange(value: string)
      modifies this`searchQuery, this`selectedMuscle
      ensures searchQuery == value
      ensures value != "" ==> selectedMuscle.None?
      ensures value == "" ==> selectedMuscle == old(selectedMuscle)
    {
      searchQuery := value;
      if value != "" {
        selectedMuscle := None;
      }
    }

    /** Choosing a muscle clears the query, so the search shows nothing. */
    method SelectMuscle(muscle: string)
      modifies this`searchQuery, this`selectedMuscle
      ensures selectedMuscle == Some(muscle) && searchQuery == ""
      ensures forall db :: Search(db, searchQuery) == []
    {
      selectedMuscle := Some(muscle);
      searchQuery := "";
    }

    /** "Learn" on an exercise card. */
    method SelectExercise(name: string)
      modifies this`selectedExercise
      ensures selectedExercise == Some(name)
    {
      selectedExercise := Some(name);
    }
  }
}
