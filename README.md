# IELTS band scoring, modelled in Dafny

This project models the scoring core of a backend for IELTS-style mock exams.

A `TestResult` records one attempt. It holds the number of correct answers in reading and in listening, plus a speaking score and a writing score with one decimal place. Its `OverallScore` is linked to it one to one. The score stores a reading band and a listening band, each looked up from a count (`calculate_band`). It also stores an overall band: the mean of the four skill bands, rounded to a whole or half band (`round_band`). The speaking and writing bands are never stored; they are read through from the result. A `post_save` handler on `TestResult` keeps the score in step with its result. For a new result it creates the score, and for an existing result it saves the score again, which recomputes its bands.

Units. Every band and score has one decimal place, so it is an integer number of tenths (6.5 is `65`). The mean of four such values is their sum in tenths divided by 4, so that sum is the mean in fortieths (6.25 is `250`). All arithmetic is exact. `round_band` takes the fractional part of `float(score)`, which for a mean such as 6.225 is not exact (0.22499999999999964…). But every mean is a multiple of 1/40. The float error is far below 1/40, and .25 and .75 are exact binary fractions. So no comparison against 0.25 or 0.75 comes out differently than on the exact value, which is what the model uses. The values returned, `float(round(...))` and `float(round(score * 2) / 2)`, are whole or half numbers and so are exact floats.

Files:

- `banding.dfy` (module `Banding`): the pure parts of `users/models.py`. These are `calculate_band`, `round_band` (with Python's half-even `round` on a `Decimal`), and the derivation that `save` performs, as the function `ComputeBands`.
- `models.dfy` (module `Models`): the classes `TestResult` and `OverallScore`. `OverallScore.Save` assigns the three stored bands in place. `SpeakingBand` and `WritingBand` are the read-through properties.
- `signals.dfy` (module `Signals`): a store that maps result ids to results and result ids to scores. `CreateOrUpdateOverallScore` is the handler. `SaveTestResult` shows the handler as Django runs it after a result's row is written. `CorrectionScenario` is a worked example of the update path (users/signals.py:9-11), with no contract of its own. A result saved with counts 30 and 26, speaking 6.5 and writing 6.0 gets 7.0 / 6.5 / overall 6.5. After its reading count is corrected to 35 and it is saved again, the same score row shows 8.0 and overall 7.0.

Rounding at .25. In the middle branch of `round_band`, `round(score * 2)` is Python's `round` on a `Decimal`, which rounds half to even. So a mean of exactly 6.25 gives `round(12.5) == 12`, that is 6.0, not 6.5. The usual IELTS convention rounds a mean of 6.25 up to 6.5; this code does not. This model follows the code (`RoundBandExamples`, `RoundBandIsNearestHalfStep`).

## Model

| member | source | states |
|---|---|---|
| `Banding.CalculateBand` | users/models.py:44-68 | The band is one of the twelve half steps 3.5 … 9.0. It is 9.0 exactly when the count is at least 39. It is 3.5 exactly when the count is below 10, negative counts included. |
| `Banding.CalculateBandCountsThresholds` | users/models.py:44-68 | The if/elif chain equals an independent definition: 3.5 plus half a band for each of the thresholds 10, 13, 16, 18, 23, 26, 30, 32, 35, 37, 39 that the count reaches. |
| `Banding.CalculateBandAtThresholds` | users/models.py:45-68 | The result is the band of the highest threshold at most the count. From threshold k on, the band is at least 4.0 plus k half bands; below it, the band is at most 3.5 plus k half bands. |
| `Banding.CalculateBandMonotone` | users/models.py:44-68 | A higher count never gives a lower band. |
| `Banding.CalculateBandExamples` | users/models.py:45-68 | 40 and 39 give 9.0, 38 gives 8.5, 30 gives 7.0, 29 and 26 give 6.5, 25 gives 6.0, 10 gives 4.0, and 9, 0 and -3 give 3.5. |
| `Banding.RoundHalfEven` | users/models.py:73-77 | Python's `round` on a `Decimal`: the result is an integer nearest to n/d, and a tie goes to the even neighbour. |
| `Banding.RoundBand` | users/models.py:70-77 | The result is a whole or half band within a quarter band of the mean. A fractional part of at most .25 gives the floor; .25 itself gives the floor because of the half-even tie. A fractional part strictly between .25 and .75 gives floor + 0.5. A fractional part of .75 or more gives floor + 1. |
| `Banding.RoundBandIsNearestHalfStep` | users/models.py:70-77 | No half band is nearer to the mean than the result. When two are equally near (.25 or .75), the result is the whole band. |
| `Banding.RoundBandFixesHalfSteps` | users/models.py:70-77 | A mean that is already a whole or half band is returned unchanged. |
| `Banding.RoundBandIdempotent` | users/models.py:70-77 | Rounding a rounded band gives the same band. |
| `Banding.RoundBandMonotone` | users/models.py:70-77 | A higher mean never rounds to a lower band. |
| `Banding.RoundBandExamples` | users/models.py:71-77 | 6.0, 6.2, 6.225 and 6.25 give 6.0. 6.275, 6.3, 6.5 and 6.725 give 6.5. 6.75 and 6.975 give 7.0. -6.25 gives -6.0. |
| `Banding.ComputeBands` | users/models.py:79-88 | Speaking and writing are the result's scores verbatim. Reading and listening are half steps in 3.5 … 9.0. The overall band is a half step within a quarter band of the mean of the four. |
| `Banding.OverallBandBetweenSkillBands` | users/models.py:79-88 | For any speaking and writing scores, half steps or not (6.3, say), the overall band lies between the lowest and the highest of the four skill bands. |
| `Banding.OverallBandMonotone` | users/models.py:79-88 | More correct answers, or higher speaking or writing scores, never lower the overall band. |
| `Banding.ComputeBandsExamples` | users/models.py:79-88 | Counts 30 and 26 with speaking 6.5 and writing 6.0 give 7.0 / 6.5 / overall 6.5. Reading 35 instead gives 8.0 and overall 7.0. Bands 7.0, 7.0, 6.0, 6.0 give 6.5. |
| `Models.OverallScore.Save` | users/models.py:79-88 | Afterwards the stored reading, listening and overall bands, together with the read-through bands `Models.OverallScore.SpeakingBand` and `Models.OverallScore.WritingBand` (the `speaking_band` and `writing_band` properties, users/models.py:36-42), equal the computation from the result's current fields. The result is not changed. Saving a score that already agrees with its result leaves every band as it was. |
| `Models.OverallScore.Create` | users/models.py:30-34 | A new score is linked to the given result and, after its first save, agrees with it. |
| `Signals.ScoreStore.CreateOrUpdateOverallScore` | users/signals.py:6-11 | If `created` and the result has no score, a fresh score is created, linked and saved. If not `created` and a score exists, that same score is saved again; if none exists the handler fails with `RelatedObjectDoesNotExist`. A second score for a result fails with `IntegrityError`. On success, the saved result's score equals the computation from its current fields. No other score and no result changes, and on failure nothing changes. |
| `Signals.ScoreStore.SaveTestResult` | users/signals.py:5-11 | When a result is saved and the handler runs with `created` set to whether the row is new, the handler always succeeds. Afterwards every result still has exactly one score. A new result gets a fresh one, an existing result keeps its own, and that score agrees with the result. |

## Left out

- The exam-content models, the mock-exam views and the session lookup (testapp/models.py, testapp/views.py): these are schema and database queries with no scoring logic.
- A single-active-session rule or date-based expiry: testapp/views.py:19 filters mocks on `status="active"` and `exam_date=today`, but `Mock` (testapp/models.py:7-13) has no status or exam-date field and no save hook, so no such rule exists in the code to model.
- users/views.py, the admin classes, the serializers, the URL configuration and testapp/mm.py (commented out): request handling, UI and wiring only.
- The `User` model, `TestResult.user`, `TestResult.test_date` and the `__str__` methods: they play no part in scoring.
- Database persistence: `super().save`, transactions, cascade deletes, and the database's enforcement of the one-to-one link. The store keys scores by result id, so a second score for a result is reported as an `IntegrityError` outcome.
- `Banding.RoundBand`: takes the mean in fortieths, not an arbitrary `Decimal`. `round_band` is only called with the mean of four one-decimal values, which is always a whole number of fortieths. Inputs such as 6.74 or 6.99 can never occur and are not modelled.
- The range limit of the `DecimalField(max_digits=3, decimal_places=1)` columns (-99.9 to 99.9) is not enforced on scores; no value the core computes comes near it.
- A speaking or writing score assigned as a Python `float` and not yet reloaded from the database turns into an inexact `Decimal` in `save`. The model treats every score as an exact tenth, which is how the database stores it.
- `Signals.ScoreStore.SaveTestResult`: requires that one Python object stands for each result row. Django can load several objects for the same row; the model keeps one per id.
- The handler's `sender` and `**kwargs` arguments and the signal dispatch itself: `SaveTestResult` stands for Django calling the handler after the row is written.
