/** `getSubstitutions`: alternatives to an exercise, taken from the same
    sub-muscle of the localised exercise database, scored 90 when they use
    the same equipment category and 70 otherwise, best first, at most five.
    The database is a parameter (the screen passes the localised copy). */
module ExerciseSubstitutions {
  import opened Common
  import opened ExerciseData

  const SAME_EQUIPMENT_SCORE: int := 90
  const OTHER_EQUIPMENT_SCORE: int := 70
  const MAX_RESULTS: nat := 5

  datatype SubstitutionOption = SubstitutionOption(name: string, equipment: string, matchScore: int)

  /** A position in the database: muscle index, sub-muscle index and
      category index. */
  datatype Pos = Pos(m: nat, s: nat, c: nat)

  /** The name occurs in the list at position `p`. */
  ghost predicate Hit(db: ExerciseDb, name: string, p: Pos)
  {
    p.m < |db| && p.s < |db[p.m].1| && p.c < 3 && name in CategoryList(db[p.m].1[p.s].1, p.c)
  }

  /** Positions in the order the nested loops visit them. */
  predicate Before(p: Pos, q: Pos)
  {
    p.m < q.m || (p.m == q.m && (p.s < q.s || (p.s == q.s && p.c < q.c)))
  }

  /** The search stops only at a hit whose muscle key is truthy, i.e. not
      empty; `p` is the first such hit. */
  ghost predicate FirstHit(db: ExerciseDb, name: string, p: Pos)
  {
    && Hit(db, name, p) && db[p.m].0 != ""
    && forall q :: Hit(db, name, q) && db[q.m].0 != "" ==> !Before(q, p)
  }

  /** There is at most one first hit. */
  lemma FirstHitUnique(db: ExerciseDb, name: string, p: Pos, q: Pos)
    requires FirstHit(db, name, p) && FirstHit(db, name, q)
    ensures p == q
  {
    assert !Before(p, q) && !Before(q, p);
  }

  /** Step 1 of `getSubstitutions`: the nested scan with its three `break`s.
      The result is the last position assigned; the search ends at the first
      hit under a non-empty muscle key. */
  method FindTarget(db: ExerciseDb, name: string) returns (t: Option<Pos>)
    ensures t.Some? ==> Hit(db, name, t.value)
    ensures t.Some? && db[t.value.m].0 != "" ==> FirstHit(db, name, t.value)
    ensures (exists q :: Hit(db, name, q) && db[q.m].0 != "") <==> t.Some? && db[t.value.m].0 != ""
  {
    t := None;
    var i := 0;
    while i < |db|
      invariant 0 <= i <= |db|
      invariant t.Some? ==> Hit(db, name, t.value) && db[t.value.m].0 == ""
      invariant forall q :: Hit(db, name, q) && q.m < i ==> db[q.m].0 == ""
    {
      var muscle := db[i].0;
      var subs := db[i].1;
      var j := 0;
      while j < |subs|
        invariant 0 <= j <= |subs|
        invariant t.Some? ==> Hit(db, name, t.value) && db[t.value.m].0 == ""
        invariant forall q :: Hit(db, name, q) && q.m == i && q.s < j ==> muscle == ""
      {
        var k := 0;
        var found := false;
        while k < 3
          invariant 0 <= k <= 3
          invariant t.Some? ==> Hit(db, name, t.value) && db[t.value.m].0 == ""
          invariant forall q :: Hit(db, name, q) && q.m == i && q.s == j && q.c < k ==> false
        {
          if name in CategoryList(subs[j].1, k) {
            t := Some(Pos(i, j, k));
            found := true;
            break;
          }
          k := k + 1;
        }
        if found && muscle != "" {
          // The target muscle is truthy: leave both outer loops.
          assert FirstHit(db, name, Pos(i, j, k)) by {
            forall q | Hit(db, name, q) && db[q.m].0 != "" ensures !Before(q, Pos(i, j, k)) {
            }
          }
          return;
        }
        j := j + 1;
      }
      i := i + 1;
    }
  }

  /** The score of an alternative from category `k` when the original is
      in category `target`. */
  function Score(k: nat, target: nat): int
  {
    if k == target then SAME_EQUIPMENT_SCORE else OTHER_EQUIPMENT_SCORE
  }

  /** One category's `forEach`: every other exercise of the list, in order. */
  function CategoryOptions(list: seq<string>, category: string, original: string, score: int): seq<SubstitutionOption>
  {
    if list == [] then []
    else
      var last := list[|list| - 1];
      CategoryOptions(list[..|list| - 1], category, original, score)
      + (if last != original then [SubstitutionOption(last, category, score)] else [])
  }

  /** A category offers exactly its other exercises, each with that
      category as equipment and the given score, and never more options
      than it has exercises. */
  lemma {:induction false} CategoryOptionsMembers(list: seq<string>, category: string, original: string, score: int)
    ensures |CategoryOptions(list, category, original, score)| <= |list|
    ensures forall o :: o in CategoryOptions(list, category, original, score) ==>
      o.name in list && o.name != original && o.equipment == category && o.matchScore == score
    ensures forall x :: x in list && x != original ==> SubstitutionOption(x, category, score) in CategoryOptions(list, category, original, score)
  {
    if list != [] {
      var init := list[..|list| - 1];
      CategoryOptionsMembers(init, category, original, score);
      assert forall x :: x in list <==> x in init || x == list[|list| - 1];
    }
  }

  /** Scanning one more exercise adds it unless it is the original. */
  lemma CategoryOptionsStep(list: seq<string>, n: nat, category: string, original: string, score: int)
    requires n < |list|
    ensures CategoryOptions(list[..n + 1], category, original, score)
      == CategoryOptions(list[..n], category, original, score)
         + (if list[n] != original then [SubstitutionOption(list[n], category, score)] else [])
  {
    assert list[..n + 1][..n] == list[..n];
  }

  /** The options of the first `k` categories of a sub-muscle. */
  function OptionsUpTo(cats: Categorized<string>, original: string, target: nat, k: nat): seq<SubstitutionOption>
    requires k <= 3
  {
    if k == 0 then []
    else
      OptionsUpTo(cats, original, target, k - 1)
      + CategoryOptions(CategoryList(cats, k - 1), CATEGORY_NAMES[k - 1], original, Score(k - 1, target))
  }

  /** Every option is another exercise of its own category, scored by
      whether that category is the original's. */
  lemma {:induction false} OptionsSound(cats: Categorized<string>, original: string, target: nat, k: nat)
    requires k <= 3
    ensures forall o :: o in OptionsUpTo(cats, original, target, k) ==>
      o.name != original
      && (exists c :: 0 <= c < k && o.equipment == CATEGORY_NAMES[c] && o.name in CategoryList(cats, c)
           && o.matchScore == Score(c, target))
    ensures forall o :: o in OptionsUpTo(cats, original, target, k) ==>
      o.matchScore == SAME_EQUIPMENT_SCORE || o.matchScore == OTHER_EQUIPMENT_SCORE
  {
    if k > 0 {
      OptionsSound(cats, original, target, k - 1);
      var c := k - 1;
      CategoryOptionsMembers(CategoryList(cats, c), CATEGORY_NAMES[c], original, Score(c, target));
      forall o | o in OptionsUpTo(cats, original, target, k)
        ensures o.name != original
          && (exists c :: 0 <= c < k && o.equipment == CATEGORY_NAMES[c] && o.name in CategoryList(cats, c)
               && o.matchScore == Score(c, target))
      {
        if o !in OptionsUpTo(cats, original, target, k - 1) {
          assert o.equipment == CATEGORY_NAMES[c] && o.name in CategoryList(cats, c);
        }
      }
    }
  }

  /** Every other exercise of the sub-muscle is offered. */
  lemma {:induction false} OptionsComplete(cats: Categorized<string>, original: string, target: nat, k: nat, c: nat, x: string)
    requires c < k <= 3
    requires x in CategoryList(cats, c) && x != original
    ensures SubstitutionOption(x, CATEGORY_NAMES[c], Score(c, target)) in OptionsUpTo(cats, original, target, k)
  {
    if c < k - 1 {
      OptionsComplete(cats, original, target, k - 1, c, x);
    } else {
      CategoryOptionsMembers(CategoryList(cats, c), CATEGORY_NAMES[c], original, Score(c, target));
    }
  }

  /** The inner `forEach` over one category's exercises, pushing every
      exercise other than the original. */
  method SiblingOptions(list: seq<string>, category: string, original: string, score: int)
    returns (found: seq<SubstitutionOption>)
    ensures found == CategoryOptions(list, category, original, score)
  {
    found := [];
    for n := 0 to |list|
      invariant found == CategoryOptions(list[..n], category, original, score)
    {
      CategoryOptionsStep(list, n, category, original, score);
      if list[n] != original {
        found := found + [SubstitutionOption(list[n], category, score)];
      }
    }
    assert list[..|list|] == list;
  }

  /** Step 2: every exercise of the target sub-muscle other than the
      original, category by category. */
  method CollectOptions(cats: Categorized<string>, original: string, target: nat) returns (options: seq<SubstitutionOption>)
    ensures options == OptionsUpTo(cats, original, target, 3)
  {
    options := [];
    for k := 0 to 3
      invariant options == OptionsUpTo(cats, original, target, k)
    {
      var found := SiblingOptions(CategoryList(cats, k), CATEGORY_NAMES[k], original, Score(k, target));
      options := options + found;
    }
  }

  /** The options with the given score, in their original order. */
  function WithScore(xs: seq<SubstitutionOption>, score: int): seq<SubstitutionOption>
  {
    if xs == [] then []
    else
      var last := xs[|xs| - 1];
      WithScore(xs[..|xs| - 1], score) + (if last.matchScore == score then [last] else [])
  }

  /** The options kept are exactly those with the score. */
  lemma {:induction false} WithScoreMembers(xs: seq<SubstitutionOption>, score: int)
    ensures forall o :: o in WithScore(xs, score) <==> o in xs && o.matchScore == score
  {
    if xs != [] {
      var init := xs[..|xs| - 1];
      WithScoreMembers(init, score);
      assert forall o :: o in xs <==> o in init || o == xs[|xs| - 1];
    }
  }

  /** `sort((a, b) => b.matchScore - a.matchScore)`. The sort is stable and
      every score is 90 or 70, so it moves the 90s, in order, before the
      70s, in order. */
  function Rank(xs: seq<SubstitutionOption>): seq<SubstitutionOption>
  {
    WithScore(xs, SAME_EQUIPMENT_SCORE) + WithScore(xs, OTHER_EQUIPMENT_SCORE)
  }

  predicate SortedByScore(xs: seq<SubstitutionOption>)
  {
    forall i, j :: 0 <= i < j < |xs| ==> xs[i].matchScore >= xs[j].matchScore
  }

  ghost predicate ScoresKnown(xs: seq<SubstitutionOption>)
  {
    forall o :: o in xs ==> o.matchScore == SAME_EQUIPMENT_SCORE || o.matchScore == OTHER_EQUIPMENT_SCORE
  }

  lemma {:induction false} WithScoreMultiset(xs: seq<SubstitutionOption>)
    requires ScoresKnown(xs)
    ensures multiset(WithScore(xs, SAME_EQUIPMENT_SCORE)) + multiset(WithScore(xs, OTHER_EQUIPMENT_SCORE)) == multiset(xs)
  {
    if xs != [] {
      var init := xs[..|xs| - 1];
      assert xs == init + [xs[|xs| - 1]];
      WithScoreMultiset(init);
    }
  }

  /** The ranking is a permutation of the options, sorted best first, and
      stable: the options of each score keep their relative order. */
  lemma RankIsStableSort(xs: seq<SubstitutionOption>)
    requires ScoresKnown(xs)
    ensures multiset(Rank(xs)) == multiset(xs)
    ensures SortedByScore(Rank(xs))
    ensures WithScore(Rank(xs), SAME_EQUIPMENT_SCORE) == WithScore(xs, SAME_EQUIPMENT_SCORE)
    ensures WithScore(Rank(xs), OTHER_EQUIPMENT_SCORE) == WithScore(xs, OTHER_EQUIPMENT_SCORE)
  {
    WithScoreMultiset(xs);
    var a: seq<SubstitutionOption> := WithScore(xs, SAME_EQUIPMENT_SCORE);
    var b: seq<SubstitutionOption> := WithScore(xs, OTHER_EQUIPMENT_SCORE);
    WithScoreMembers(xs, SAME_EQUIPMENT_SCORE);
    WithScoreMembers(xs, OTHER_EQUIPMENT_SCORE);
    forall i, j | 0 <= i < j < |a + b| ensures (a + b)[i].matchScore >= (a + b)[j].matchScore {
      if i < |a| { assert (a + b)[i] in a; } else { assert (a + b)[i] in b; }
      if j < |a| { assert (a + b)[j] in a; } else { assert (a + b)[j] in b; }
    }
    WithScoreSplit(a, b, SAME_EQUIPMENT_SCORE);
    WithScoreSplit(a, b, OTHER_EQUIPMENT_SCORE);
    WithScoreAll(a, SAME_EQUIPMENT_SCORE);
    WithScoreNone(b, SAME_EQUIPMENT_SCORE);
    WithScoreNone(a, OTHER_EQUIPMENT_SCORE);
    WithScoreAll(b, OTHER_EQUIPMENT_SCORE);
  }

  lemma {:induction false} WithScoreSplit(xs: seq<SubstitutionOption>, ys: seq<SubstitutionOption>, score: int)
    ensures WithScore(xs + ys, score) == WithScore(xs, score) + WithScore(ys, score)
  {
    if ys == [] {
      assert xs + ys == xs;
    } else {
      assert (xs + ys)[..|xs + ys| - 1] == xs + ys[..|ys| - 1];
      WithScoreSplit(xs, ys[..|ys| - 1], score);
    }
  }

  lemma {:induction false} WithScoreAll(xs: seq<SubstitutionOption>, score: int)
    requires forall o :: o in xs ==> o.matchScore == score
    ensures WithScore(xs, score) == xs
  {
    if xs != [] {
      var init, last := xs[..|xs| - 1], xs[|xs| - 1];
      assert xs == init + [last];
      assert last in xs;
      assert forall o :: o in init ==> o in xs;
      WithScoreAll(init, score);
    }
  }

  lemma {:induction false} WithScoreNone(xs: seq<SubstitutionOption>, score: int)
    requires forall o :: o in xs ==> o.matchScore != score
    ensures WithScore(xs, score) == []
  {
    if xs != [] {
      var init, last := xs[..|xs| - 1], xs[|xs| - 1];
      assert last in xs;
      assert forall o :: o in init ==> o in xs;
      WithScoreNone(init, score);
    }
  }

  /** The substitutions for the exercise found at `p`. */
  function SubstitutionsAt(db: ExerciseDb, original: string, p: Pos): seq<SubstitutionOption>
    requires p.m < |db| && p.s < |db[p.m].1| && p.c < 3
  {
    Take(Rank(OptionsUpTo(db[p.m].1[p.s].1, original, p.c, 3)), MAX_RESULTS)
  }

  /** What the result promises: at most five alternatives, best first,
      none of them the original, each from the original's sub-muscle with
      its own category as equipment. */
  lemma SubstitutionsAtSound(db: ExerciseDb, original: string, p: Pos)
    requires p.m < |db| && p.s < |db[p.m].1| && p.c < 3
    ensures |SubstitutionsAt(db, original, p)| <= MAX_RESULTS
    ensures SortedByScore(SubstitutionsAt(db, original, p))
    ensures forall o :: o in SubstitutionsAt(db, original, p) ==>
      o.name != original
      && (exists c :: 0 <= c < 3 && o.equipment == CATEGORY_NAMES[c] && o.name in CategoryList(db[p.m].1[p.s].1, c)
           && o.matchScore == Score(c, p.c))
  {
    var cats := db[p.m].1[p.s].1;
    var opts := OptionsUpTo(cats, original, p.c, 3);
    OptionsSound(cats, original, p.c, 3);
    RankIsStableSort(opts);
    var ranked := Rank(opts);
    var r := Take(ranked, MAX_RESULTS);
    assert r == ranked[..|r|];
    forall i, j | 0 <= i < j < |r| ensures r[i].matchScore >= r[j].matchScore {
      assert r[i] == ranked[i] && r[j] == ranked[j];
    }
    forall o | o in r
      ensures o.name != original
      ensures exists c :: (0 <= c < 3 && o.equipment == CATEGORY_NAMES[c] && o.name in CategoryList(cats, c)
                           && o.matchScore == Score(c, p.c))
    {
      assert o in ranked;
      WithScoreMembers(opts, SAME_EQUIPMENT_SCORE);
      WithScoreMembers(opts, OTHER_EQUIPMENT_SCORE);
      assert o in opts;
    }
  }

  /** `getSubstitutions` on a given database. */
  method GetSubstitutions(db: ExerciseDb, original: string) returns (r: seq<SubstitutionOption>)
    ensures (forall p :: !FirstHit(db, original, p)) ==> r == []
    ensures forall p :: FirstHit(db, original, p) && db[p.m].1[p.s].0 == "" ==> r == []
    ensures forall p :: FirstHit(db, original, p) && db[p.m].1[p.s].0 != "" ==> r == SubstitutionsAt(db, original, p)
  {
    var t := FindTarget(db, original);
    if t.None? || db[t.value.m].0 == "" {
      return [];
    }
    var p := t.value;
    forall q | FirstHit(db, original, q) ensures q == p {
      FirstHitUnique(db, original, p, q);
    }
    if db[p.m].1[p.s].0 == "" {
      return [];
    }
    var options := CollectOptions(db[p.m].1[p.s].1, original, p.c);
    r := Take(Rank(options), MAX_RESULTS);
  }
}
