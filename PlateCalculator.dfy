/** `calculatePlates`: the greedy choice of plates to load on each side of
    a bar to reach a target weight, with the default kilogram and pound
    plate sets. Weights are exact reals. */
module PlateCalculator {
  import opened Common

  datatype Unit = Kg | Lbs

  datatype PlateConfig = PlateConfig(barWeight: real, availablePlates: seq<real>, unit: Unit)

  /** The optional message of a solution. `ClosestMatch` carries the
      weight and unit the source interpolates into its text. */
  datatype PlateMessage = BelowBar | EmptyBar | ClosestMatch(total: real, unit: Unit)

  datatype PlateSolution = PlateSolution(platesPerSide: seq<real>, totalWeight: real, message: Option<PlateMessage>)

  const BELOW_BAR_TEXT: string := "Target weight is less than bar weight"
  const EMPTY_BAR_TEXT: string := "Empty bar"
  /** Leftover per side above which the solution reports a closest match. */
  const TOLERANCE: real := 0.1

  const KG_CONFIG: PlateConfig := PlateConfig(20.0, [25.0, 20.0, 15.0, 10.0, 5.0, 2.5, 1.25], Kg)
  const LBS_CONFIG: PlateConfig := PlateConfig(45.0, [45.0, 35.0, 25.0, 10.0, 5.0, 2.5], Lbs)

  /** `DEFAULT_PLATE_CONFIGS[unit]` */
  function DefaultConfig(u: Unit): PlateConfig
  {
    match u
    case Kg => KG_CONFIG
    case Lbs => LBS_CONFIG
  }

  predicate AllPositive(plates: seq<real>)
  {
    forall i :: 0 <= i < |plates| ==> plates[i] > 0.0
  }

  /** Sorted from heaviest to lightest (equal neighbours allowed). */
  predicate NonIncreasing(xs: seq<real>)
  {
    forall i, j :: 0 <= i < j < |xs| ==> xs[i] >= xs[j]
  }

  /** Both default configurations list positive plates, heaviest first. */
  lemma DefaultConfigsWellFormed(u: Unit)
    ensures AllPositive(DefaultConfig(u).availablePlates)
    ensures NonIncreasing(DefaultConfig(u).availablePlates)
    ensures DefaultConfig(u).unit == u
  {
  }

  /** The plates chosen for one side and what is left over. */
  datatype Fill = Fill(chosen: seq<real>, leftover: real)

  lemma MulPositive(d: real, p: real)
    requires d > 0.0 && p > 0.0
    ensures d * p > 0.0
  {
  }

  /** Taking one plate of weight `p` from `r` lowers `r / p` by exactly one,
      which is what makes the greedy loop end. */
  lemma PlateStep(r: real, p: real)
    requires p > 0.0 && r >= p
    ensures (r - p) / p == r / p - 1.0
    ensures r / p >= 1.0
  {
    var x := r / p;
    var y := (r - p) / p;
    assert x * p == r;
    assert y * p == r - p;
    var d := y - (x - 1.0);
    assert d * p == 0.0;
    if d > 0.0 { MulPositive(d, p); } else if d < 0.0 { MulPositive(-d, p); }
    if x < 1.0 {
      MulPositive(1.0 - x, p);
    }
  }

  /** The greedy loop: take the first plate while it still fits, then move
      on to the next one. */
  function Greedy(rem: real, plates: seq<real>): Fill
    requires AllPositive(plates)
    decreases |plates|, if plates == [] then 0 else (rem / plates[0]).Floor
  {
    if plates == [] then Fill([], rem)
    else if rem >= plates[0] then
      PlateStep(rem, plates[0]);
      var f := Greedy(rem - plates[0], plates);
      Fill([plates[0]] + f.chosen, f.leftover)
    else
      Greedy(rem, plates[1..])
  }

  lemma SumRealCons(x: real, xs: seq<real>)
    ensures SumReal([x] + xs) == x + SumReal(xs)
  {
    SumRealAppend([x], xs);
    assert SumReal([x]) == SumReal([x][..0]) + x;
  }

  /** Nothing is lost: the chosen plates and the leftover add up to the
      weight that was to be loaded. */
  lemma {:induction false} GreedyAccounts(rem: real, plates: seq<real>)
    requires AllPositive(plates)
    ensures SumReal(Greedy(rem, plates).chosen) + Greedy(rem, plates).leftover == rem
    decreases |plates|, if plates == [] then 0 else (rem / plates[0]).Floor
  {
    if plates != [] {
      if rem >= plates[0] {
        PlateStep(rem, plates[0]);
        GreedyAccounts(rem - plates[0], plates);
        SumRealCons(plates[0], Greedy(rem - plates[0], plates).chosen);
      } else {
        GreedyAccounts(rem, plates[1..]);
      }
    }
  }

  /** Every chosen plate is one of the available plates. */
  lemma {:induction false} GreedyUsesAvailable(rem: real, plates: seq<real>)
    requires AllPositive(plates)
    ensures forall x :: x in Greedy(rem, plates).chosen ==> x in plates
    decreases |plates|, if plates == [] then 0 else (rem / plates[0]).Floor
  {
    if plates != [] {
      if rem >= plates[0] {
        PlateStep(rem, plates[0]);
        GreedyUsesAvailable(rem - plates[0], plates);
      } else {
        GreedyUsesAvailable(rem, plates[1..]);
        assert forall x :: x in plates[1..] ==> x in plates;
      }
    }
  }

  /** From a non-negative weight, the leftover is non-negative, at most the
      weight, and lighter than every available plate. */
  lemma {:induction false} GreedyLeftoverSmall(rem: real, plates: seq<real>)
    requires AllPositive(plates) && rem >= 0.0
    ensures 0.0 <= Greedy(rem, plates).leftover <= rem
    ensures forall p :: p in plates ==> Greedy(rem, plates).leftover < p
    decreases |plates|, if plates == [] then 0 else (rem / plates[0]).Floor
  {
    if plates != [] {
      if rem >= plates[0] {
        PlateStep(rem, plates[0]);
        GreedyLeftoverSmall(rem - plates[0], plates);
      } else {
        GreedyLeftoverSmall(rem, plates[1..]);
        forall p | p in plates ensures Greedy(rem, plates).leftover < p {
          if p != plates[0] {
            assert p in plates[1..];
          }
        }
      }
    }
  }

  /** Heaviest-first plates give a heaviest-first loading, never heavier
      than the first available plate. */
  lemma {:induction false} GreedyNonIncreasing(rem: real, plates: seq<real>)
    requires AllPositive(plates) && NonIncreasing(plates)
    ensures NonIncreasing(Greedy(rem, plates).chosen)
    ensures plates != [] ==> forall x :: x in Greedy(rem, plates).chosen ==> x <= plates[0]
    decreases |plates|, if plates == [] then 0 else (rem / plates[0]).Floor
  {
    if plates != [] {
      if rem >= plates[0] {
        PlateStep(rem, plates[0]);
        GreedyNonIncreasing(rem - plates[0], plates);
        var c := Greedy(rem - plates[0], plates).chosen;
        forall i, j | 0 <= i < j < |[plates[0]] + c| ensures ([plates[0]] + c)[i] >= ([plates[0]] + c)[j] {
          if i == 0 {
            assert ([plates[0]] + c)[j] == c[j - 1];
            assert c[j - 1] in c;
          } else {
            assert ([plates[0]] + c)[i] == c[i - 1] && ([plates[0]] + c)[j] == c[j - 1];
          }
        }
      } else {
        GreedyNonIncreasing(rem, plates[1..]);
        if |plates| > 1 {
          assert plates[1..][0] == plates[1];
        } else {
          assert Greedy(rem, plates[1..]).chosen == [];
        }
      }
    }
  }

  // ---------------------------------------------------------------------
  // Exact loads: when every plate and the per-side weight are whole
  // multiples of the lightest plate, the greedy loading is exact.

  function Times(k: int, q: real): real
  {
    k as real * q
  }

  ghost predicate MultipleOf(x: real, q: real)
  {
    exists k: int :: x == Times(k, q)
  }

  lemma {:induction false} GreedyLeftoverMultiple(rem: real, plates: seq<real>, q: real)
    requires AllPositive(plates)
    requires MultipleOf(rem, q)
    requires forall p :: p in plates ==> MultipleOf(p, q)
    ensures MultipleOf(Greedy(rem, plates).leftover, q)
    decreases |plates|, if plates == [] then 0 else (rem / plates[0]).Floor
  {
    if plates != [] {
      if rem >= plates[0] {
        PlateStep(rem, plates[0]);
        var a :| rem == Times(a, q);
        assert plates[0] in plates;
        var b :| plates[0] == Times(b, q);
        assert rem - plates[0] == Times(a - b, q);
        GreedyLeftoverMultiple(rem - plates[0], plates, q);
      } else {
        GreedyLeftoverMultiple(rem, plates[1..], q);
      }
    }
  }

  lemma MulNonNegative(d: real, p: real)
    requires d >= 0.0 && p > 0.0
    ensures d * p >= 0.0
  {
    if d > 0.0 {
      MulPositive(d, p);
    }
  }

  /** The only whole multiple of a positive step below that step is zero. */
  lemma SmallMultipleIsZero(k: int, q: real)
    requires q > 0.0 && 0.0 <= Times(k, q) < q
    ensures k == 0
  {
    if k >= 1 {
      MulNonNegative(k as real - 1.0, q);
    } else if k <= -1 {
      MulPositive(-(k as real), q);
    }
  }

  lemma GreedyExact(rem: real, plates: seq<real>, q: real)
    requires AllPositive(plates) && rem >= 0.0
    requires q in plates
    requires MultipleOf(rem, q)
    requires forall p :: p in plates ==> MultipleOf(p, q)
    ensures Greedy(rem, plates).leftover == 0.0
    ensures SumReal(Greedy(rem, plates).chosen) == rem
  {
    GreedyLeftoverMultiple(rem, plates, q);
    GreedyLeftoverSmall(rem, plates);
    GreedyAccounts(rem, plates);
    var left := Greedy(rem, plates).leftover;
    var k :| left == Times(k, q);
    SmallMultipleIsZero(k, q);
  }

  /** With the default kilogram plates, any per-side load that is a whole
      number of 1.25 kg steps is met exactly. */
  lemma KgLoadsExact(n: nat)
    ensures Greedy(Times(n, 1.25), KG_CONFIG.availablePlates).leftover == 0.0
  {
    var plates := KG_CONFIG.availablePlates;
    DefaultConfigsWellFormed(Kg);
    assert plates[0] == Times(20, 1.25) && plates[1] == Times(16, 1.25) && plates[2] == Times(12, 1.25);
    assert plates[3] == Times(8, 1.25) && plates[4] == Times(4, 1.25) && plates[5] == Times(2, 1.25);
    assert plates[6] == Times(1, 1.25);
    assert 1.25 in plates;
    GreedyExact(Times(n, 1.25), plates, 1.25);
  }

  /** With the default pound plates, any per-side load that is a whole
      number of 2.5 lb steps is met exactly. */
  lemma LbsLoadsExact(n: nat)
    ensures Greedy(Times(n, 2.5), LBS_CONFIG.availablePlates).leftover == 0.0
  {
    var plates := LBS_CONFIG.availablePlates;
    DefaultConfigsWellFormed(Lbs);
    assert plates[0] == Times(18, 2.5) && plates[1] == Times(14, 2.5) && plates[2] == Times(10, 2.5);
    assert plates[3] == Times(4, 2.5) && plates[4] == Times(2, 2.5) && plates[5] == Times(1, 2.5);
    assert 2.5 in plates;
    GreedyExact(Times(n, 2.5), plates, 2.5);
  }

  // ---------------------------------------------------------------------

  /** `calculatePlates`. Plates must be positive weights: with a zero or
      negative plate the source's inner `while` never ends. */
  method CalculatePlates(targetWeight: real, config: PlateConfig) returns (sol: PlateSolution)
    requires AllPositive(config.availablePlates)
    ensures var perSide := (targetWeight - config.barWeight) / 2.0;
      && (perSide < 0.0 ==> sol == PlateSolution([], config.barWeight, Some(BelowBar)))
      && (perSide == 0.0 ==> sol == PlateSolution([], config.barWeight, Some(EmptyBar)))
      && (perSide > 0.0 ==>
        var left := perSide - SumReal(sol.platesPerSide);
        && sol.platesPerSide == Greedy(perSide, config.availablePlates).chosen
        && (forall p :: p in sol.platesPerSide ==> p in config.availablePlates)
        && SumReal(sol.platesPerSide) <= perSide
        && 0.0 <= left
        && (forall p :: p in config.availablePlates ==> left < p)
        && sol.totalWeight == config.barWeight + 2.0 * SumReal(sol.platesPerSide)
        && (sol.message.Some? <==> left > TOLERANCE)
        && (sol.message.Some? ==> sol.message.value == ClosestMatch(sol.totalWeight, config.unit)))
    ensures NonIncreasing(config.availablePlates) ==> NonIncreasing(sol.platesPerSide)
  {
    var bar := config.barWeight;
    var available := config.availablePlates;
    var perSide := (targetWeight - bar) / 2.0;
    if perSide < 0.0 {
      return PlateSolution([], bar, Some(BelowBar));
    }
    if perSide == 0.0 {
      return PlateSolution([], bar, Some(EmptyBar));
    }
    var plates: seq<real> := [];
    var remaining := perSide;
    for i := 0 to |available|
      invariant Greedy(perSide, available)
        == Fill(plates + Greedy(remaining, available[i..]).chosen, Greedy(remaining, available[i..]).leftover)
    {
      var plate := available[i];
      while remaining >= plate
        invariant Greedy(perSide, available)
          == Fill(plates + Greedy(remaining, available[i..]).chosen, Greedy(remaining, available[i..]).leftover)
        decreases (remaining / plate).Floor
      {
        PlateStep(remaining, plate);
        ghost var rest := Greedy(remaining - plate, available[i..]);
        assert Greedy(remaining, available[i..]) == Fill([plate] + rest.chosen, rest.leftover);
        assert plates + ([plate] + rest.chosen) == (plates + [plate]) + rest.chosen;
        plates := plates + [plate];
        remaining := remaining - plate;
      }
      assert available[i..][1..] == available[i + 1..];
    }
    assert Greedy(perSide, available) == Fill(plates, remaining);
    GreedyAccounts(perSide, available);
    GreedyUsesAvailable(perSide, available);
    GreedyLeftoverSmall(perSide, available);
    if NonIncreasing(available) {
      GreedyNonIncreasing(perSide, available);
    }
    var actualWeight := bar + 2.0 * SumReal(plates);
    if remaining > TOLERANCE {
      return PlateSolution(plates, actualWeight, Some(ClosestMatch(actualWeight, config.unit)));
    }
    return PlateSolution(plates, actualWeight, None);
  }
}
