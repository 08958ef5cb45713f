/** The exercise database: muscle groups, their sub-muscles, and for each
    sub-muscle three equipment categories of exercise names, with every name
    given in English, French and Arabic. The screens see a localised copy
    holding one name per exercise. The table contents are parameters; their
    shape and the localisation rules are modelled. A JavaScript object's keys
    keep their insertion order and are distinct, so each level is a sequence
    of (key, value) pairs. */
module ExerciseData {
  import opened Common

  datatype Language = En | Fr | Ar

  /** `{ en, fr, ar }` */
  datatype Translation = Translation(en: string, fr: string, ar: string)

  /** `t[lang]` */
  function Entry(t: Translation, lang: Language): string
  {
    match lang
    case En => t.en
    case Fr => t.fr
    case Ar => t.ar
  }

  /** The three equipment categories, in the order the database lists them. */
  datatype Categorized<T> = Categorized(weightlifting: seq<T>, cables: seq<T>, bodyweight: seq<T>)

  const CATEGORY_NAMES: seq<string> := ["weightlifting", "cables", "bodyweight"]

  /** The list of the `k`-th category. */
  function CategoryList<T>(c: Categorized<T>, k: nat): seq<T>
    requires k < 3
  {
    if k == 0 then c.weightlifting else if k == 1 then c.cables else c.bodyweight
  }

  /** muscle -> sub-muscle -> categories, in key order. */
  type Groups<T> = seq<(string, seq<(string, Categorized<T>)>)>

  type SourceDb = Groups<Translation>
  type ExerciseDb = Groups<string>

  /** The keys of the display-name table: the muscle groups and the
      sub-muscles that have their own display name. */
  const MUSCLE_KEYS: set<string> := {
    "Chest", "Back", "Shoulders", "Legs", "Arms", "Core", "Full Body",
    "Upper Chest", "Middle Chest", "Lower Chest", "Lats", "Upper Back", "Mid Back",
    "Lower Back", "Front Delts", "Side Delts", "Rear Delts", "Quads", "Hamstrings",
    "Glutes", "Calves", "Biceps", "Triceps", "Forearms"
  }

  /** `getLocalizedMuscleName`: the table's name for the requested language
      when the muscle has one and it is not empty, else the key itself. */
  function LocalizedMuscleName(names: map<string, Translation>, muscle: string, lang: Language): (r: string)
    ensures muscle in names && Entry(names[muscle], lang) != "" ==> r == Entry(names[muscle], lang)
    ensures muscle !in names ==> r == muscle
    ensures muscle in names && Entry(names[muscle], lang) == "" ==> r == muscle
  {
    if muscle in names && Entry(names[muscle], lang) != "" then Entry(names[muscle], lang) else muscle
  }

  /** A displayed name is never empty for a non-empty key. */
  lemma MuscleNameNonEmpty(names: map<string, Translation>, muscle: string, lang: Language)
    requires muscle != ""
    ensures LocalizedMuscleName(names, muscle, lang) != ""
  {
  }

  /** The core sub-muscle "Abs" has no entry in the table and is displayed
      under its key in every language. */
  lemma AbsShownAsItself(names: map<string, Translation>, lang: Language)
    requires names.Keys == MUSCLE_KEYS
    ensures LocalizedMuscleName(names, "Abs", lang) == "Abs"
  {
    assert "Abs" !in MUSCLE_KEYS;
  }

  /** `ex[lang] || ex['en']` */
  function Pick(t: Translation, lang: Language): (r: string)
    ensures Entry(t, lang) != "" ==> r == Entry(t, lang)
    ensures Entry(t, lang) == "" ==> r == t.en
  {
    if Entry(t, lang) != "" then Entry(t, lang) else t.en
  }

  /** `list.map(ex => ex[lang] || ex['en'])` */
  function LocalizeList(xs: seq<Translation>, lang: Language): (r: seq<string>)
    ensures |r| == |xs|
    ensures forall k :: 0 <= k < |xs| ==> r[k] == Pick(xs[k], lang)
  {
    if xs == [] then [] else LocalizeList(xs[..|xs| - 1], lang) + [Pick(xs[|xs| - 1], lang)]
  }

  function LocalizeCategories(c: Categorized<Translation>, lang: Language): Categorized<string>
  {
    Categorized(LocalizeList(c.weightlifting, lang), LocalizeList(c.cables, lang), LocalizeList(c.bodyweight, lang))
  }

  /** Each category of a localised sub-muscle keeps its length and order,
      and holds the chosen name of the exercise at the same position. */
  lemma LocalizeCategoriesShape(c: Categorized<Translation>, lang: Language, k: nat)
    requires k < 3
    ensures |CategoryList(LocalizeCategories(c, lang), k)| == |CategoryList(c, k)|
    ensures forall n :: 0 <= n < |CategoryList(c, k)| ==>
      CategoryList(LocalizeCategories(c, lang), k)[n] == Pick(CategoryList(c, k)[n], lang)
  {
  }

  /** Every localised name is a name the database gives the exercise: the
      requested language's or, failing that, the English one; and an
      exercise with an English name never shows up nameless. */
  lemma PickIsAName(t: Translation, lang: Language)
    ensures Pick(t, lang) == Entry(t, lang) || Pick(t, lang) == t.en
    ensures t.en != "" ==> Pick(t, lang) != ""
    ensures Pick(t, En) == t.en
  {
  }

  /** The localisation pass of `getExerciseDatabase`: the same muscles and
      sub-muscles in the same order, each category localised name by name. */
  method GetExerciseDatabase(db: SourceDb, lang: Language) returns (out: ExerciseDb)
    ensures |out| == |db|
    ensures forall i :: 0 <= i < |db| ==> out[i].0 == db[i].0 && |out[i].1| == |db[i].1|
    ensures forall i, j :: 0 <= i < |db| && 0 <= j < |db[i].1| ==>
      out[i].1[j] == (db[i].1[j].0, LocalizeCategories(db[i].1[j].1, lang))
  {
    out := [];
    for i := 0 to |db|
      invariant |out| == i
      invariant forall m :: 0 <= m < i ==> out[m].0 == db[m].0 && |out[m].1| == |db[m].1|
      invariant forall m, j :: 0 <= m < i && 0 <= j < |db[m].1| ==>
        out[m].1[j] == (db[m].1[j].0, LocalizeCategories(db[m].1[j].1, lang))
    {
      var subs := db[i].1;
      var local: seq<(string, Categorized<string>)> := [];
      for j := 0 to |subs|
        invariant |local| == j
        invariant forall n :: 0 <= n < j ==> local[n] == (subs[n].0, LocalizeCategories(subs[n].1, lang))
      {
        var c := subs[j].1;
        var lc := Categorized(LocalizeList(c.weightlifting, lang), LocalizeList(c.cables, lang), LocalizeList(c.bodyweight, lang));
        local := local + [(subs[j].0, lc)];
      }
      out := out + [(db[i].0, local)];
    }
  }
}
