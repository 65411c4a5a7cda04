/** The six threshold checks of the rule-based soil-health classifier and the
    score they add up to (app.py, predict_soil). */
module SoilChecks {

  /** The six soil measurements the form supplies; each also names the one
      check made on it. */
  datatype Field = Ph | Nitrogen | Phosphorus | Potassium | OrganicCarbon | Moisture

  /** The fields in the order the handler reads and checks them. */
  const Fields: seq<Field> := [Ph, Nitrogen, Phosphorus, Potassium, OrganicCarbon, Moisture]

  /** Position of a field in `Fields`. */
  function Position(f: Field): (i: nat)
    ensures i < |Fields| && Fields[i] == f
  {
    match f
    case Ph => 0
    case Nitrogen => 1
    case Phosphorus => 2
    case Potassium => 3
    case OrganicCarbon => 4
    case Moisture => 5
  }

  /** No field is listed twice. */
  predicate Distinct(cs: seq<Field>) {
    forall i, j :: 0 <= i < j < |cs| ==> cs[i] != cs[j]
  }

  lemma FieldsAreDistinctAndComplete()
    ensures Distinct(Fields)
    ensures forall f: Field :: f in Fields
  {
    forall f: Field ensures f in Fields {
      assert Fields[Position(f)] == f;
    }
  }

  /** One soil sample, each measurement being the value of the parsed float. */
  datatype Reading = Reading(ph: real, nitrogen: real, phosphorus: real,
                             potassium: real, organicCarbon: real, moisture: real)
  {
    /** The measurement of field f. */
    function Get(f: Field): real {
      match f
      case Ph => ph
      case Nitrogen => nitrogen
      case Phosphorus => phosphorus
      case Potassium => potassium
      case OrganicCarbon => organicCarbon
      case Moisture => moisture
    }

    /** This reading with the measurement of field f replaced by v. */
    function With(f: Field, v: real): (r: Reading)
      ensures r.Get(f) == v
      ensures forall g: Field :: g != f ==> r.Get(g) == Get(g)
    {
      match f
      case Ph => this.(ph := v)
      case Nitrogen => this.(nitrogen := v)
      case Phosphorus => this.(phosphorus := v)
      case Potassium => this.(potassium := v)
      case OrganicCarbon => this.(organicCarbon := v)
      case Moisture => this.(moisture := v)
    }
  }

  // Inclusive bands.
  const PhLow: real := 6.0
  const PhHigh: real := 7.5
  const CarbonLow: real := 0.5
  const CarbonHigh: real := 1.0
  const MoistureLow: real := 20.0
  const MoistureHigh: real := 40.0

  // Strict lower thresholds.
  const NitrogenMin: real := 80.0
  const PhosphorusMin: real := 30.0
  const PotassiumMin: real := 150.0

  /** Fields checked against an inclusive band; the others against a strict
      lower threshold. */
  predicate IsBand(f: Field) {
    f == Ph || f == OrganicCarbon || f == Moisture
  }

  function Low(f: Field): real {
    match f
    case Ph => PhLow
    case Nitrogen => NitrogenMin
    case Phosphorus => PhosphorusMin
    case Potassium => PotassiumMin
    case OrganicCarbon => CarbonLow
    case Moisture => MoistureLow
  }

  /** Upper end of the band of a band field. */
  function High(f: Field): real
    requires IsBand(f)
  {
    match f
    case Ph => PhHigh
    case OrganicCarbon => CarbonHigh
    case Moisture => MoistureHigh
  }

  /** Whether the check on field f passes for the measurement v. */
  predicate PassesValue(f: Field, v: real) {
    if IsBand(f) then Low(f) <= v <= High(f) else v > Low(f)
  }

  predicate Passes(f: Field, r: Reading) {
    PassesValue(f, r.Get(f))
  }

  /** How far v lies outside the band of a band field; zero inside it. */
  function BandDistance(f: Field, v: real): (d: real)
    requires IsBand(f)
    ensures d >= 0.0
    ensures d == 0.0 <==> PassesValue(f, v)
  {
    if v < Low(f) then Low(f) - v else if v > High(f) then v - High(f) else 0.0
  }

  function Point(b: bool): nat {
    if b then 1 else 0
  }

  /** Points the checks named in cs award to r, one per passing check. */
  function Tally(cs: seq<Field>, r: Reading): (n: nat)
    ensures n <= |cs|
    ensures n == |cs| <==> forall i :: 0 <= i < |cs| ==> Passes(cs[i], r)
    ensures n == 0 <==> forall i :: 0 <= i < |cs| ==> !Passes(cs[i], r)
  {
    if cs == [] then 0 else Point(Passes(cs[0], r)) + Tally(cs[1..], r)
  }

  /** The soil score: one point for every check that passes. */
  function Score(r: Reading): (s: nat)
    ensures s <= 6
    ensures s == 6 <==> forall f: Field :: Passes(f, r)
    ensures s == 0 <==> forall f: Field :: !Passes(f, r)
  {
    FieldsListEveryCheck(r);
    Tally(Fields, r)
  }

  /** A statement about every entry of `Fields` is one about every field. */
  lemma FieldsListEveryCheck(r: Reading)
    ensures (forall i :: 0 <= i < |Fields| ==> Passes(Fields[i], r)) <==> (forall f: Field :: Passes(f, r))
    ensures (forall i :: 0 <= i < |Fields| ==> !Passes(Fields[i], r)) <==> (forall f: Field :: !Passes(f, r))
  {
    if forall i :: 0 <= i < |Fields| ==> Passes(Fields[i], r) {
      forall f: Field ensures Passes(f, r) {
        assert Passes(Fields[Position(f)], r);
      }
    }
    if forall i :: 0 <= i < |Fields| ==> !Passes(Fields[i], r) {
      forall f: Field ensures !Passes(f, r) {
        assert !Passes(Fields[Position(f)], r);
      }
    }
  }

  /** Summed check by check, the score is one point per passing check. */
  lemma ScoreIsSumOfPoints(r: Reading)
    ensures Score(r) == Point(Passes(Ph, r)) + Point(Passes(Nitrogen, r))
                      + Point(Passes(Phosphorus, r)) + Point(Passes(Potassium, r))
                      + Point(Passes(OrganicCarbon, r)) + Point(Passes(Moisture, r))
  {
    var s1 := [Nitrogen, Phosphorus, Potassium, OrganicCarbon, Moisture];
    var s2 := [Phosphorus, Potassium, OrganicCarbon, Moisture];
    var s3 := [Potassium, OrganicCarbon, Moisture];
    var s4 := [OrganicCarbon, Moisture];
    var s5 := [Moisture];
    assert Fields[1..] == s1 && s1[1..] == s2 && s2[1..] == s3;
    assert s3[1..] == s4 && s4[1..] == s5 && s5[1..] == [];
    assert Tally(s5, r) == Point(Passes(Moisture, r));
    assert Tally(s4, r) == Point(Passes(OrganicCarbon, r)) + Tally(s5, r);
    assert Tally(s3, r) == Point(Passes(Potassium, r)) + Tally(s4, r);
    assert Tally(s2, r) == Point(Passes(Phosphorus, r)) + Tally(s3, r);
    assert Tally(s1, r) == Point(Passes(Nitrogen, r)) + Tally(s2, r);
    assert Tally(Fields, r) == Point(Passes(Ph, r)) + Tally(s1, r);
  }

  /** The checks r passes. */
  function PassingChecks(r: Reading): set<Field> {
    set f | f in Fields && Passes(f, r)
  }

  /** Tally counts each passing check of a duplicate-free list exactly once. */
  lemma {:induction false} TallyCountsPassingChecks(cs: seq<Field>, r: Reading)
    requires Distinct(cs)
    ensures Tally(cs, r) == |set f | f in cs && Passes(f, r)|
  {
    if cs != [] {
      var rest := cs[1..];
      assert Distinct(rest) by {
        forall i, j | 0 <= i < j < |rest| ensures rest[i] != rest[j] {
          assert rest[i] == cs[i + 1] && rest[j] == cs[j + 1];
        }
      }
      TallyCountsPassingChecks(rest, r);
      var after := set f | f in rest && Passes(f, r);
      var all := set f | f in cs && Passes(f, r);
      assert cs[0] !in rest by {
        forall j | 0 <= j < |rest| ensures rest[j] != cs[0] {
          assert rest[j] == cs[j + 1];
        }
      }
      assert forall f :: f in cs <==> f == cs[0] || f in rest;
      if Passes(cs[0], r) {
        assert all == after + {cs[0]};
      } else {
        assert all == after;
      }
    }
  }

  /** The score is the number of distinct checks that pass. */
  lemma ScoreCountsPassingChecks(r: Reading)
    ensures Score(r) == |PassingChecks(r)|
  {
    FieldsAreDistinctAndComplete();
    TallyCountsPassingChecks(Fields, r);
  }

  /** The straight-line accumulation the handler performs, one `if` per check
      in source order. */
  method ComputeScore(r: Reading) returns (score: int)
    ensures score == |PassingChecks(r)|
    ensures 0 <= score <= 6
  {
    score := 0;
    if PhLow <= r.ph <= PhHigh {
      score := score + 1;
    }
    if r.nitrogen > NitrogenMin {
      score := score + 1;
    }
    if r.phosphorus > PhosphorusMin {
      score := score + 1;
    }
    if r.potassium > PotassiumMin {
      score := score + 1;
    }
    if CarbonLow <= r.organicCarbon <= CarbonHigh {
      score := score + 1;
    }
    if MoistureLow <= r.moisture <= MoistureHigh {
      score := score + 1;
    }
    ScoreIsSumOfPoints(r);
    ScoreCountsPassingChecks(r);
  }

  /** Changing one measurement changes the score by exactly that check's
      change of point: nothing else moves. */
  lemma ChangingOneFieldMovesOnlyItsPoint(r: Reading, f: Field, v: real)
    ensures Score(r.With(f, v)) + Point(Passes(f, r)) == Score(r) + Point(PassesValue(f, v))
  {
    ScoreIsSumOfPoints(r);
    ScoreIsSumOfPoints(r.With(f, v));
  }

  /** Moving one measurement from failing its check to passing it, the others
      fixed, raises the score by exactly one. */
  lemma PassingOneMoreCheckAddsOnePoint(r: Reading, f: Field, v: real)
    requires !Passes(f, r) && PassesValue(f, v)
    ensures Score(r.With(f, v)) == Score(r) + 1
  {
    ChangingOneFieldMovesOnlyItsPoint(r, f, v);
  }

  /** A reading that passes every check another passes scores at least as much. */
  lemma MorePassingChecksNeverLowerScore(r: Reading, r': Reading)
    requires forall f: Field :: Passes(f, r) ==> Passes(f, r')
    ensures Score(r) <= Score(r')
  {
    ScoreCountsPassingChecks(r);
    ScoreCountsPassingChecks(r');
    assert PassingChecks(r) <= PassingChecks(r');
    SubsetCardinality(PassingChecks(r), PassingChecks(r'));
  }

  lemma {:induction false} SubsetCardinality<T>(a: set<T>, b: set<T>)
    requires a <= b
    ensures |a| <= |b|
  {
    if a != {} {
      var x :| x in a;
      SubsetCardinality(a - {x}, b - {x});
    }
  }

  /** Raising nitrogen, phosphorus or potassium, the others fixed, never lowers
      the score. */
  lemma RaisingNutrientNeverLowersScore(r: Reading, f: Field, v: real)
    requires !IsBand(f) && r.Get(f) <= v
    ensures Score(r) <= Score(r.With(f, v))
  {
    ChangingOneFieldMovesOnlyItsPoint(r, f, v);
  }

  /** Moving pH, organic carbon or moisture no further from its band, the
      others fixed, never lowers the score. */
  lemma ApproachingBandNeverLowersScore(r: Reading, f: Field, v: real)
    requires IsBand(f) && BandDistance(f, v) <= BandDistance(f, r.Get(f))
    ensures Score(r) <= Score(r.With(f, v))
  {
    ChangingOneFieldMovesOnlyItsPoint(r, f, v);
  }

  /** The band ends are inclusive and the nutrient thresholds strict. */
  lemma CheckBoundaries()
    ensures PassesValue(Ph, 6.0) && PassesValue(Ph, 7.5)
    ensures !PassesValue(Ph, 5.99) && !PassesValue(Ph, 7.51)
    ensures PassesValue(OrganicCarbon, 0.5) && PassesValue(OrganicCarbon, 1.0)
    ensures !PassesValue(OrganicCarbon, 0.49) && !PassesValue(OrganicCarbon, 1.01)
    ensures PassesValue(Moisture, 20.0) && PassesValue(Moisture, 40.0)
    ensures !PassesValue(Moisture, 19.99) && !PassesValue(Moisture, 40.01)
    ensures !PassesValue(Nitrogen, 80.0) && PassesValue(Nitrogen, 80.01)
    ensures !PassesValue(Phosphorus, 30.0) && PassesValue(Phosphorus, 30.01)
    ensures !PassesValue(Potassium, 150.0) && PassesValue(Potassium, 150.01)
  {
  }
}
