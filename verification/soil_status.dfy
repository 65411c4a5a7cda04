/** The score-to-status classification and the advisory sentence of each
    status (app.py, predict_soil). */
module SoilStatus {

  /** Soil health, from worst to best. */
  datatype Status = Poor | Moderate | Good

  /** Position of a status in the order Poor < Moderate < Good. */
  function Rank(s: Status): nat {
    match s
    case Poor => 0
    case Moderate => 1
    case Good => 2
  }

  // Lowest scores that reach each status above Poor.
  const GoodMinScore: int := 5
  const ModerateMinScore: int := 3

  /** The lowest score that reaches status s. */
  function MinScore(s: Status): int {
    match s
    case Poor => 0
    case Moderate => ModerateMinScore
    case Good => GoodMinScore
  }

  /** The status of a score: Good from 5, Moderate for 3 and 4, Poor otherwise. */
  function Classify(score: int): (s: Status)
    ensures s == Good <==> score >= 5
    ensures s == Moderate <==> 3 <= score <= 4
    ensures s == Poor <==> score <= 2
  {
    if score >= GoodMinScore then Good
    else if ModerateMinScore <= score < GoodMinScore then Moderate
    else Poor
  }

  /** For a score in range, its status is the best one whose lowest score it
      reaches. */
  lemma ClassifyIsBestStatusReached(score: nat, s: Status)
    ensures Rank(s) <= Rank(Classify(score)) <==> MinScore(s) <= score
  {
  }

  /** A higher score never gives a worse status. */
  lemma ClassifyIsMonotone(a: int, b: int)
    requires a <= b
    ensures Rank(Classify(a)) <= Rank(Classify(b))
  {
  }

  /** The boundary scores of each status. */
  lemma ClassifyBoundaries()
    ensures Classify(0) == Poor && Classify(2) == Poor
    ensures Classify(3) == Moderate && Classify(4) == Moderate
    ensures Classify(5) == Good && Classify(6) == Good
  {
  }

  /** The word the message shows for a status. */
  function Name(s: Status): (w: string)
    ensures |w| > 0
  {
    match s
    case Poor => "Poor"
    case Moderate => "Moderate"
    case Good => "Good"
  }

  /** The symbol that opens the suggestion line of each status. */
  function Symbol(s: Status): char {
    match s
    case Poor => '\U{1F527}'
    case Moderate => '\U{2728}'
    case Good => '\U{2705}'
  }

  /** The advice each status carries. */
  function Advice(s: Status): string {
    match s
    case Poor => "Add compost, reduce chemical use, rotate with legumes."
    case Moderate => "Monitor nitrogen and organic content, improve drainage."
    case Good => "Maintain current practices and test soil quarterly."
  }

  /** The one suggestion line shown for each status. */
  function Suggestion(s: Status): (line: string)
    ensures |line| > 0 && line[0] == Symbol(s)
  {
    [Symbol(s)] + " Suggestion: " + Advice(s)
  }

  /** Different statuses get different names and different sentences, so both
      identify the status. */
  lemma NameAndSuggestionIdentifyStatus(s: Status, t: Status)
    ensures Name(s) == Name(t) <==> s == t
    ensures Suggestion(s) == Suggestion(t) <==> s == t
  {
  }
}
