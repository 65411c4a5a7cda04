/** The `/predict-soil` handler (app.py, predict_soil): read six numeric form
    fields, score them, classify the score and attach the status's suggestion,
    or report an error and nothing else when a field is missing or not a
    number. */
module PredictSoil {
  import opened Options
  import opened SoilChecks
  import opened SoilStatus

  /** The form key each field is read from. */
  function Key(f: Field): string {
    match f
    case Ph => "ph"
    case Nitrogen => "nitrogen"
    case Phosphorus => "phosphorus"
    case Potassium => "potassium"
    case OrganicCarbon => "organic_carbon"
    case Moisture => "moisture"
  }

  /** Each field has its own key. */
  lemma KeysAreDistinct(f: Field, g: Field)
    ensures Key(f) == Key(g) <==> f == g
  {
  }

  /** The submitted form after float conversion: None for a field whose key is
      missing or whose text is not a number. */
  datatype Form = Form(ph: Option<real>, nitrogen: Option<real>, phosphorus: Option<real>,
                       potassium: Option<real>, organicCarbon: Option<real>, moisture: Option<real>)
  {
    function Get(f: Field): Option<real> {
      match f
      case Ph => ph
      case Nitrogen => nitrogen
      case Phosphorus => phosphorus
      case Potassium => potassium
      case OrganicCarbon => organicCarbon
      case Moisture => moisture
    }
  }

  /** The form seen by the handler, given the fields whose text converted to a
      number, keyed by form key; every other key is missing or unparsable. */
  function FormOf(parsed: map<string, real>): (form: Form)
    ensures forall f: Field :: form.Get(f) == (if Key(f) in parsed then Some(parsed[Key(f)]) else None)
  {
    Form(Lookup(parsed, Key(Ph)), Lookup(parsed, Key(Nitrogen)), Lookup(parsed, Key(Phosphorus)),
         Lookup(parsed, Key(Potassium)), Lookup(parsed, Key(OrganicCarbon)), Lookup(parsed, Key(Moisture)))
  }

  function Lookup(parsed: map<string, real>, key: string): Option<real> {
    if key in parsed then Some(parsed[key]) else None
  }

  /** The form a client submits for a reading, every field present and numeric. */
  function Submit(r: Reading): (form: Form)
    ensures forall f: Field :: form.Get(f) == Some(r.Get(f))
  {
    Form(Some(r.ph), Some(r.nitrogen), Some(r.phosphorus),
         Some(r.potassium), Some(r.organicCarbon), Some(r.moisture))
  }

  /** The converted fields a client sends for a reading, keyed by form key. */
  function Submitted(r: Reading): map<string, real> {
    map[Key(Ph) := r.ph, Key(Nitrogen) := r.nitrogen, Key(Phosphorus) := r.phosphorus,
        Key(Potassium) := r.potassium, Key(OrganicCarbon) := r.organicCarbon, Key(Moisture) := r.moisture]
  }

  /** Looking each field up under its own key in the submitted fields gives
      the form of the reading, every field present and numeric. */
  lemma SubmittedFormIsSubmit(r: Reading)
    ensures FormOf(Submitted(r)) == Submit(r)
  {
  }

  /** Converts the six fields in source order, stopping at the first one that
      is missing or not a number. */
  function ParseReading(form: Form): (res: Result<Reading, Field>)
    ensures res.Ok? <==> forall f: Field :: form.Get(f).Some?
    ensures res.Ok? ==> forall f: Field :: form.Get(f) == Some(res.value.Get(f))
    ensures res.Err? ==> form.Get(res.error).None?
    ensures res.Err? ==> forall g: Field :: Position(g) < Position(res.error) ==> form.Get(g).Some?
  {
    if form.ph.None? then assert form.Get(Ph).None?; Err(Ph)
    else if form.nitrogen.None? then assert form.Get(Nitrogen).None?; Err(Nitrogen)
    else if form.phosphorus.None? then assert form.Get(Phosphorus).None?; Err(Phosphorus)
    else if form.potassium.None? then assert form.Get(Potassium).None?; Err(Potassium)
    else if form.organicCarbon.None? then assert form.Get(OrganicCarbon).None?; Err(OrganicCarbon)
    else if form.moisture.None? then assert form.Get(Moisture).None?; Err(Moisture)
    else Ok(Reading(form.ph.value, form.nitrogen.value, form.phosphorus.value,
                    form.potassium.value, form.organicCarbon.value, form.moisture.value))
  }

  /** A key missing from the converted fields makes the whole request fail,
      and the field reported is the first missing one in source order. */
  lemma MissingKeyFails(parsed: map<string, real>, f: Field)
    requires Key(f) !in parsed
    ensures Predict(FormOf(parsed)).Failed?
    ensures Key(Predict(FormOf(parsed)).field) !in parsed
    ensures Position(Predict(FormOf(parsed)).field) <= Position(f)
  {
  }

  /** Parsing the form submitted for a reading gives that reading back. */
  lemma ParseSubmitRoundTrip(r: Reading)
    ensures ParseReading(Submit(r)) == Ok(r)
  {
  }

  /** Reading the six keys of a submission and converting them gives back the
      reading that was sent. */
  lemma ParseSubmittedKeysRoundTrip(r: Reading)
    ensures ParseReading(FormOf(Submitted(r))) == Ok(r)
  {
    SubmittedFormIsSubmit(r);
  }

  /** What the handler computes: a score, its status and the status's
      suggestion, or the field that stopped conversion and nothing else. */
  datatype Outcome =
    | Assessed(score: nat, status: Status, suggestion: string)
    | Failed(field: Field)

  /** The fields of a form that are numbers and pass their checks. */
  function PassingFields(form: Form): set<Field> {
    set f | f in Fields && form.Get(f).Some? && PassesValue(f, form.Get(f).value)
  }

  /** The handler's decision for a submitted form. */
  function Predict(form: Form): (o: Outcome)
    ensures o.Failed? <==> exists f: Field :: form.Get(f).None?
    ensures o.Failed? ==> form.Get(o.field).None?
    ensures o.Failed? ==> forall g: Field :: Position(g) < Position(o.field) ==> form.Get(g).Some?
    ensures o.Assessed? ==> o.score == |PassingFields(form)| && o.score <= 6
    ensures o.Assessed? ==> o.status == Classify(o.score)
    ensures o.Assessed? ==> o.suggestion == Suggestion(o.status)
  {
    match ParseReading(form)
    case Err(f) => Failed(f)
    case Ok(r) =>
      ScoreCountsPassingChecks(r);
      assert PassingChecks(r) == PassingFields(form);
      var score := Score(r);
      var status := Classify(score);
      Assessed(score, status, Suggestion(status))
  }

  /** The status is the best one the score reaches, so a higher score never
      gives a worse status and the order Poor < Moderate < Good is kept. */
  lemma PredictStatusIsBestReached(form: Form, s: Status)
    requires form.ph.Some? && form.nitrogen.Some? && form.phosphorus.Some?
    requires form.potassium.Some? && form.organicCarbon.Some? && form.moisture.Some?
    ensures Rank(s) <= Rank(Predict(form).status) <==> MinScore(s) <= Predict(form).score
  {
  }

  /** Improving one measurement from failing to passing its check, the other
      fields fixed, never lowers the status. */
  lemma ImprovingOneFieldNeverLowersStatus(r: Reading, f: Field, v: real)
    requires !Passes(f, r) && PassesValue(f, v)
    ensures Rank(Classify(Score(r))) <= Rank(Classify(Score(r.With(f, v))))
  {
    PassingOneMoreCheckAddsOnePoint(r, f, v);
    ClassifyIsMonotone(Score(r), Score(r.With(f, v)));
  }

  /** The status the handler shows for a reading never drops when one
      failing measurement is made to pass, the other fields fixed. */
  lemma ImprovingOneFieldNeverLowersShownStatus(r: Reading, f: Field, v: real)
    requires !Passes(f, r) && PassesValue(f, v)
    ensures Predict(Submit(r)).Assessed? && Predict(Submit(r.With(f, v))).Assessed?
    ensures Rank(Predict(Submit(r)).status) <= Rank(Predict(Submit(r.With(f, v))).status)
  {
    var r' := r.With(f, v);
    ScoreCountsPassingChecks(r);
    ScoreCountsPassingChecks(r');
    assert PassingChecks(r) == PassingFields(Submit(r));
    assert PassingChecks(r') == PassingFields(Submit(r'));
    ImprovingOneFieldNeverLowersStatus(r, f, v);
  }

  /** A worked example in which every check passes. */
  lemma WorkedExample()
    ensures Predict(Form(Some(6.5), Some(90.0), Some(40.0), Some(160.0), Some(0.7), Some(30.0)))
         == Assessed(6, Good, Suggestion(Good))
  {
  }

  // The symbols that open the two kinds of message.
  const Sprout: char := '\U{1F331}'
  const CrossMark: char := '\U{274C}'

  const StatusPrefix: string := [Sprout] + " Soil Health Status: "
  const LineBreak: string := "<br>"

  /** The message the result page shows. `errorText` is the text of the
      exception that stopped conversion, which the model does not produce. */
  function Message(o: Outcome, errorText: string): (m: string)
    ensures |m| > 0
    ensures m[0] == Sprout <==> o.Assessed?
    ensures o.Failed? ==> m[0] == CrossMark
    ensures o.Assessed? ==> |o.suggestion| <= |m| && m[|m| - |o.suggestion|..] == o.suggestion
    ensures o.Failed? ==> |errorText| <= |m| && m[|m| - |errorText|..] == errorText
  {
    match o
    case Assessed(_, status, suggestion) => StatusPrefix + Name(status) + LineBreak + suggestion
    case Failed(_) => [CrossMark] + " Error: " + errorText
  }

  /** Reads the status back from a shown message; None for an error message. */
  function ReadStatus(m: string): Option<Status> {
    if StatusPrefix <= m then
      var rest := m[|StatusPrefix|..];
      if Name(Good) + LineBreak <= rest then Some(Good)
      else if Name(Moderate) + LineBreak <= rest then Some(Moderate)
      else if Name(Poor) + LineBreak <= rest then Some(Poor)
      else None
    else None
  }

  /** The shown message tells exactly the status, and an error message shows
      none. */
  lemma {:induction false} MessageShowsStatus(o: Outcome, errorText: string)
    ensures ReadStatus(Message(o, errorText)) == if o.Assessed? then Some(o.status) else None
  {
    var m := Message(o, errorText);
    match o
    case Failed(_) =>
      assert m[0] != StatusPrefix[0];
    case Assessed(_, status, suggestion) =>
      var tail := Name(status) + LineBreak + suggestion;
      assert m == StatusPrefix + tail;
      assert StatusPrefix <= m;
      assert m[|StatusPrefix|..] == tail;
      assert Name(status) + LineBreak <= tail;
      assert tail[0] == Name(status)[0];
  }
}
