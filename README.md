# Heart-disease risk service: prediction post-processing and upload guard

This project is a Dafny model of the original logic in the heart-disease risk prediction backend:

- **Weekly streak** (`calculate_streak`). Starting at "now", the scan walks back in 7-day windows. Window *i* is `(now - 7(i+1) days, now - 7i days]`. It counts consecutive windows that hold at least one prediction, stops at the first empty window, and never counts more than 52 windows.
- **Prediction post-processing** (`predict`):
  - a readiness guard on the loaded artifacts;
  - alignment of the caller's attribute map to the model's column order, with 0 filled in for missing columns;
  - the Low / Medium / High risk bands at 0.3 and 0.7;
  - the attribution ranking: `dict(zip(columns, scores))`, stably sorted by descending absolute score;
  - the explanation loop, which keeps entries with |score| > 0.01 and writes an "increased" or "decreased" sentence for each;
  - the recommendation loop over the top four ranked factors, deduplicated through a set of features already advised.
- **Upload guard** (`allowed_file`). A filename is accepted when it contains a dot and the text after its last dot, lower-cased, is one of `png`, `jpg`, `jpeg`, `pdf`.

Modules:

- `Wrappers`: `Option` and `Result`.
- `Config`: the allowed-extension set.
- `Routes`: the upload guard.
- `PredictionService`: everything in the prediction service.

The classifier pipeline, its scaler and the attribution explainer are opaque third-party objects. They are modelled as datatypes of total functions (`Pipeline`, `Explainer`). The model therefore states which row each one is applied to and what is done with its outputs, but not what those outputs are.

Other modelling choices:

- `datetime.utcnow()` is the parameter `now`.
- Timestamps are integers counting microseconds, the resolution of a datetime.
- `str(input_value)` is a `render: real -> string` parameter.

Loops in the source are methods in the model, each proved equal to a specification function: `CalculateStreak`, `AlignColumns`, `BuildExplanations` and `BuildRecommendations`. The lemmas prove the promised properties about those functions. `Predict` ties its result to them.

The two specification functions for the loops, `Explanations` and `SelectRecommendations`, are defined over prefixes of their input. This follows the order in which the loops append.

## Model

| member | source | states |
|---|---|---|
| `PredictionService.CalculateStreak` | app/services/prediction_service.py:33-61 | The week-by-week loop with its early `break` returns exactly `Streak(timestamps, now)`. The result is at most 52, and it is 0 for an empty prediction list. |
| `PredictionService.StreakFrom` | app/services/prediction_service.py:45-59 | Counting active windows from window i never exceeds the 52 - i windows left before the one-year cap. |
| `PredictionService.Streak` | app/services/prediction_service.py:38-61 | The reported streak is always between 0 and 52. |
| `PredictionService.StreakFromWindows` | app/services/prediction_service.py:45-59 | Windows i..i+count-1 each hold a prediction. Unless the cap is reached, the window right after them holds none. |
| `PredictionService.StreakCharacterization` | app/services/prediction_service.py:45-59 | The streak equals k iff three things hold: k ≤ 52, windows 0..k-1 each hold a prediction, and window k holds none when k < 52. Both directions are proved, so the streak is the unique such k. |
| `PredictionService.StreakIgnoresOutsideWindows` | app/services/prediction_service.py:45-59 | Adding timestamps that are after `now`, or at or before the start of the window just past the streak, leaves the streak unchanged. |
| `PredictionService.WindowOfTimestamp` | app/services/prediction_service.py:46-52 | Every timestamp not after `now` lies in exactly one window: window number `(now - t) / 7 days`. So the half-open windows neither overlap nor leave gaps. |
| `PredictionService.WindowBoundary` | app/services/prediction_service.py:46-52 | A timestamp exactly 7i days before `now` belongs to window i, not to window i - 1. |
| `PredictionService.StreakOfPredictionNow` | app/services/prediction_service.py:38-61 | A single prediction made at `now` gives a streak of 1. |
| `PredictionService.StreakTwoWeeksThenGap` | app/services/prediction_service.py:45-59 | Activity this week and last week, then an empty week, gives a streak of 2. |
| `PredictionService.StreakCappedAtOneYear` | app/services/prediction_service.py:45 | 53 consecutive active weeks are still reported as 52. |
| `PredictionService.AlignColumns` | app/services/prediction_service.py:95-98 | The fill-then-select loops produce a row of length `len(model_columns)` in model-column order. Each entry holds `data[c]` when key c is present and 0 otherwise. |
| `PredictionService.AlignedRowIgnoresExtraKeys` | app/services/prediction_service.py:95-98 | Two attribute maps that agree on the model columns give the same aligned row. Keys outside `model_columns` are dropped. |
| `PredictionService.RiskCategory` | app/services/prediction_service.py:105-110 | The band is Low iff p < 0.3, Medium iff 0.3 ≤ p < 0.7, and High iff p ≥ 0.7. So 0.3 is Medium and 0.7 is High. |
| `PredictionService.RiskCategoryMonotone` | app/services/prediction_service.py:105-110 | A higher probability never yields a lower band. |
| `PredictionService.FeatureContributionsShape` | app/services/prediction_service.py:122 | `dict(zip(...))` gives items with pairwise distinct features, each one a model column. When the columns are distinct and there is one score per column, the items are exactly the column/score pairs in column order. |
| `PredictionService.SortByImpactCorrect` | app/services/prediction_service.py:125-129 | The ranking is sorted by non-increasing \|score\| and is a permutation of the contributions. It is stable: the items of each magnitude keep their relative order. |
| `PredictionService.BuildExplanations` | app/services/prediction_service.py:132-142 | The explanation loop returns exactly `Explanations(ranked, data, render)`. |
| `PredictionService.ExplanationsEntries` | app/services/prediction_service.py:133-142 | Every explanation has an impact of magnitude above 0.01. Its value, impact and sentence are the rendering of its own feature's aligned value and score. |
| `PredictionService.ExplanationsSubsequence` | app/services/prediction_service.py:133-142 | Read as (feature, impact) pairs, the explanations are a subsequence of the ranking, in ranked order. |
| `PredictionService.ExplanationsComplete` | app/services/prediction_service.py:133-142 | No ranked contribution with \|score\| > 0.01 is left out of the explanations. |
| `PredictionService.ExplanationsCorrect` | app/services/prediction_service.py:125-142 | Combines the three explanation lemmas above. It adds that explanations taken from a sorted ranking are sorted by \|impact\|. |
| `PredictionService.DirectionWordIff` | app/services/prediction_service.py:136 | The direction word is "increased" iff the impact is positive, and "decreased" otherwise. |
| `PredictionService.BuildRecommendations` | app/services/prediction_service.py:145-157 | The recommendation loop over the first four ranked contributions returns exactly `Recommendations(ranked)`. Its loop invariant keeps the `added_advice` set equal to the set of features advised so far. |
| `PredictionService.SelectRecommendationsEntries` | app/services/prediction_service.py:149-156 | There are no more recommendations than considered contributions. Each one carries its feature's advice from `RECOMMENDATION_MAP` and comes from a considered contribution with positive score. |
| `PredictionService.SelectRecommendationsDistinct` | app/services/prediction_service.py:146-157 | No feature is recommended twice. |
| `PredictionService.SelectRecommendationsComplete` | app/services/prediction_service.py:149-157 | A feature is advised iff it is a key of `RECOMMENDATION_MAP` and some considered contribution for it has a positive score. |
| `PredictionService.SelectRecommendationsOrdered` | app/services/prediction_service.py:149-157 | The recommended features appear in ranked order: they are a subsequence of the considered features. |
| `PredictionService.RecommendationsCorrect` | app/services/prediction_service.py:145-157 | At most 4 recommendations. Each is for a mapped feature and carries that feature's advice. Each is backed by a positive contribution among the top four by magnitude. No feature appears twice. Every qualifying top-four feature is advised. They appear in ranked order. |
| `PredictionService.FifthFactorNeverAdvised` | app/services/prediction_service.py:148-151 | The top four are chosen by magnitude, negatives included. When four larger factors lower the risk, a fifth, risk-raising factor with advice gets no recommendation. |
| `PredictionService.Predict` | app/services/prediction_service.py:84-168 | Fails with "models not loaded" iff the pipeline is unset, the columns are unset or empty, or the explainer is unset. Otherwise, label and probability come from the pipeline on the aligned row and the risk band from that probability. Explanations and recommendations come from the ranking of the explainer's scores on the scaled row. The base value is the explainer's expected value. There are at most 4 recommendations, and every explanation is material. |
| `Routes.LastIndexOf` | app/routes.py:22 | The result is -1 or an index holding the character, with no occurrence after it. |
| `Routes.RSplitOnce` | app/routes.py:22 | `rsplit('.', 1)` returns the whole string when there is no dot. Otherwise it returns two parts that rejoin around the dot to the original, and the second part has no dot. |
| `Routes.NoDotRejected` | app/routes.py:21 | A filename with no dot is rejected. |
| `Routes.AllowedFileCharacterization` | app/routes.py:20-22 | Both directions: a file is accepted iff some dot in it is followed by dot-free text whose lower-cased form is an allowed extension. |
| `Routes.LastExtensionDecides` | app/routes.py:22 | For a dot-free extension, `stem.ext` is accepted iff the lower-cased `ext` is allowed, whatever the stem holds, dots included. |
| `Routes.AllowedFileOfLower` | app/routes.py:22 | Lower-casing the whole filename never changes the verdict. |
| `Routes.CaseInsensitive` | app/routes.py:22 | Two filenames that are equal after lower-casing get the same verdict, so `X.PNG` is accepted exactly when `x.png` is. |
| `Routes.AcceptedExamples` | app/routes.py:20-22 | With the configured set, `scan.tar.pdf` is accepted because only `pdf` is examined, and the bare `.pdf` is accepted. |
| `Routes.UpperCaseExample` | app/routes.py:20-22 | With the configured set, `X.PNG` is accepted. |
| `Routes.RejectedExamples` | config.py:27 | With the configured set {png, jpg, jpeg, pdf}: `report.pdf.exe` is rejected because `exe` is examined, `archive.` (empty extension) is rejected, and `pdf` (no dot) is rejected. |

## Left out

- Inference inside the pipeline, the scaler and the explainer: `predict`, `predict_proba`, `transform`, `shap_values` and `expected_value`. These are floating-point library code. Their results are abstract function values, and the thresholds are compared as real numbers. IEEE rounding and NaN are not modelled.
- `str(input_value)` number formatting: it is the opaque `render` parameter.
- `load_models`: pickle and JSON file I/O. Only its outcome is modelled, as the artifact store's `None` fields and empty column list checked by `Ready`.
- Artifact validity: a pipeline without a `scaler` step, and a pipeline object that is falsy because it has no steps, are not modelled.
- Attribute values: they are real numbers. Non-numeric values, and the types pandas infers, are not modelled.
- `calculate_streak` input: it reads `p.timestamp` from ORM rows. The model takes the timestamps themselves, as a sequence of integers.
- `Routes.Lower`: folds only ASCII `A`-`Z`, while Python's `str.lower` also lower-cases non-ASCII letters. The verdict for the configured extension set is unaffected: no non-ASCII character lower-cases to one of the letters in `png`, `jpg`, `jpeg` or `pdf`. For other extension sets containing non-ASCII letters, the model can differ.
- `allowed_file`: `current_app.config['ALLOWED_EXTENSIONS']` is the `allowedExtensions` parameter. `AllowedUpload` fixes it to the configured set.
- The rest of the web layer: Flask resources, ORM queries, JWT checks, file saving, thumbnails and mail. Also left out: accounts and reset tokens, OCR and PDF services, training scripts, launchers and the front-end scripts. These are glue code over frameworks.
