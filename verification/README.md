# Soil-health classifier of the agricultural advice web app

This project models, in Dafny, the rule-based soil-health classifier behind the
`/predict-soil` form handler (`predict_soil` in `app.py`). The handler reads six
numeric form fields: pH, nitrogen, phosphorus, potassium, organic carbon and
moisture. It scores one point for each of six threshold checks and maps the score
to the status Good, Moderate or Poor. It then shows the status with one fixed
suggestion sentence. If any field is missing or not a number, it shows an error
message and no score or status.

Modules, one per part of the handler:

- `Options` (`options.dfy`): `Option` and `Result`.
- `SoilChecks` (`soil_checks.dfy`): the fields, a `Reading`, the six checks with
  their constants, the score, and the score's properties: bounds, counting and
  monotonicity. `PassesValue` defines the six checks (app.py:71-82).
- `SoilStatus` (`soil_status.dfy`): the `Status` datatype, the score cutoffs,
  and the name and suggestion line of each status. `Name` gives the word each
  status is shown as (app.py:85-89).
- `PredictSoil` (`predict_soil.dfy`): the converted form, parsing it in source
  order, the handler's outcome (assessment or error), and the shown message.
  `Key` gives the form key each field is read from (app.py:61-66). `FormOf`
  stands for the six `request.form` lookups followed by `float()`: it takes
  the fields that converted, keyed by form key, and gives the form the
  handler sees.

Measurements are `real`. Each one is the exact value of the double that Python's
`float()` produced. The handler only compares them with the literals 6, 7.5, 80,
30, 150, 0.5, 1.0, 20 and 40. All of these are exact in binary floating point, so
comparing reals gives the same answers as comparing doubles.

## Model

| member | source | states |
|---|---|---|
| SoilChecks.BandDistance | app.py:71-82 | the distance of a pH, organic-carbon or moisture value from its band is zero exactly when its check passes, so the band ends are inclusive |
| SoilChecks.Tally | app.py:69-82 | a run of checks awards at most one point per check; it awards full marks exactly when all pass and zero exactly when none pass |
| SoilChecks.Score | app.py:69-82 | the score is an integer in [0, 6]; it is 6 exactly when every check passes and 0 exactly when none does |
| SoilChecks.ScoreIsSumOfPoints | app.py:69-82 | the score is the sum over the six checks of one point if the check passes and zero otherwise |
| SoilChecks.TallyCountsPassingChecks | app.py:69-82 | over a list of distinct checks, the points equal the number of distinct passing checks, so no check counts twice |
| SoilChecks.ScoreCountsPassingChecks | app.py:69-82 | the score is the number of distinct checks the reading passes |
| SoilChecks.ComputeScore | app.py:69-82 | the handler's straight-line sequence of six `if ... score += 1` steps yields the number of passing checks, a value in [0, 6] |
| SoilChecks.ChangingOneFieldMovesOnlyItsPoint | app.py:69-82 | changing one measurement changes the score only by that check's own change of point; the other five checks are unaffected |
| SoilChecks.PassingOneMoreCheckAddsOnePoint | app.py:69-82 | moving one measurement from failing its check to passing it, others fixed, raises the score by exactly 1 |
| SoilChecks.MorePassingChecksNeverLowerScore | app.py:69-82 | a reading that passes every check another reading passes scores at least as much |
| SoilChecks.RaisingNutrientNeverLowersScore | app.py:73-78 | raising nitrogen, phosphorus or potassium, others fixed, never lowers the score |
| SoilChecks.ApproachingBandNeverLowersScore | app.py:71-82 | moving pH, organic carbon or moisture no further from its band, others fixed, never lowers the score |
| SoilChecks.CheckBoundaries | app.py:71-82 | pH 6 and 7.5, organic carbon 0.5 and 1.0, and moisture 20 and 40 pass, while values just outside each band fail; nitrogen 80, phosphorus 30 and potassium 150 fail, and values just above them pass |
| SoilStatus.Classify | app.py:84-89 | the status is Good iff the score is at least 5, Moderate iff it is 3 or 4, and Poor iff it is at most 2 |
| SoilStatus.ClassifyIsBestStatusReached | app.py:84-89 | for a score in range, the status is the best one whose lowest score (Poor 0, Moderate 3, Good 5) the score reaches |
| SoilStatus.ClassifyIsMonotone | app.py:84-89 | a higher score never gives a lower status in the order Poor < Moderate < Good |
| SoilStatus.ClassifyBoundaries | app.py:84-89 | scores 0 and 2 are Poor, 3 and 4 are Moderate, 5 and 6 are Good |
| SoilStatus.Suggestion | app.py:93-98 | each status has exactly one suggestion line, which opens with that status's own symbol |
| SoilStatus.NameAndSuggestionIdentifyStatus | app.py:85-98 | two statuses share a name, or share a suggestion line, only when they are the same status |
| PredictSoil.KeysAreDistinct | app.py:61-66 | the six fields are read from six different form keys |
| PredictSoil.ParseReading | app.py:60-66 | conversion succeeds iff all six fields are numbers, and then yields exactly their values; otherwise it reports a field that failed, all earlier fields having converted |
| PredictSoil.SubmittedFormIsSubmit | app.py:61-66 | looking each field up under its own form key in a submission of all six values gives the fully numeric form of that reading |
| PredictSoil.ParseSubmittedKeysRoundTrip | app.py:60-66 | reading the six keys of a submission and converting them gives back exactly the reading that was sent |
| PredictSoil.ParseSubmitRoundTrip | app.py:60-66 | parsing the form submitted for a reading gives that reading back |
| PredictSoil.MissingKeyFails | app.py:60-66 | one missing key fails the whole request; the reported field is missing and no later than it |
| PredictSoil.Predict | app.py:58-101 | the outcome is an error, with no score or status, iff some field is missing or not numeric; otherwise the score is the number of passing checks (at most 6), the status is the score's class, and the suggestion is that status's line |
| PredictSoil.PredictStatusIsBestReached | app.py:69-89 | for an assessed form, a status is at or below the shown one exactly when the score reaches that status's lowest score |
| PredictSoil.ImprovingOneFieldNeverLowersStatus | app.py:69-89 | making one failing measurement pass, others fixed, never moves the status down the order Poor < Moderate < Good |
| PredictSoil.ImprovingOneFieldNeverLowersShownStatus | app.py:58-98 | for the form submitted for a reading, making one failing measurement pass, others fixed, never lowers the status the handler shows |
| PredictSoil.WorkedExample | app.py:71-98 | pH 6.5, N 90, P 40, K 160, organic carbon 0.7 and moisture 30 give score 6, status Good and the maintain-practices suggestion |
| PredictSoil.Message | app.py:91-101 | the shown message opens with the sprout symbol exactly when the form was assessed, and an error message opens with the cross mark; an assessed message ends with the status's suggestion line and an error message ends with the exception text |
| PredictSoil.MessageShowsStatus | app.py:91-101 | the status can be read back from a shown assessment message, and an error message shows no status |

## Left out

- Flask routing, template rendering and the static-page routes: framework I/O.
- Reading `request.form` and calling `float()` on the text. The model starts from the converted form, where each field is a number or `None`. `None` means the key is missing or its text is not a number.
- Python `float()` also accepts `nan`, `inf` and `-inf`. The model's `real` has no such values. With them, NaN would fail every check and +inf would pass the three nutrient checks.
- The text of the exception shown after "Error:". It comes from the web framework or from `float()`, so `Message` takes it as a parameter.
- PredictSoil.ParseReading: the field it reports is an abstraction of where conversion stopped; the handler itself shows only the exception text, which is not modelled and need not name the field.
- `recommend_crop`: a wrapper over an external classifier that refers to names not defined in the file.
- `rotation_result` and the pickle load: calls into scikit-learn encoders and a classifier whose behaviour is not visible.
- `weather`: returns a fixed placeholder string, so there is no logic to model.
- `intercropping_pairs`: a static table that no function uses.
- `split.py` and `train_crop_data.py`: filesystem walking, random shuffling, CSV reading and model training, with no pure logic worth modelling.
