# SRQ-20 depression screening service — Dafny model

The service accepts the twenty answers of an SRQ-20 questionnaire, feeds
them in a fixed order to a pre-trained binary classifier, and returns the
predicted class, the classifier's confidence in that class and a severity
label taken from a hand-written threshold table. This project models the
decision logic of `main.py` and proves its properties:

- `wrappers.dfy` — `Option` and `Result`, the error values of the model.
- `features.dfy` — the request record `SRQ20Input`, the `FEATURES` order,
  attribute lookup by name (`getattr`) and the projection of the record into
  the feature vector, with the fixed accessor list `AsVector` as its
  reference and `FromVector` as its inverse.
- `threshold.dfy` — `apply_threshold_logic`, checked against an independent
  reading of the rule table (count the bucket bounds reached, then look the
  count up in the class's severity scale), with totality, inclusive bounds,
  the mirror symmetry of the two rows and monotonicity in the confidence.
- `handler.dfy` — `predict_depression` without the classifier: the
  classifier's `predict` and `predict_proba` on the single row are function
  parameters, the class label is derived from the prediction, the confidence
  is `proba[prediction]` under Python/numpy indexing, and an index outside
  the probability vector is the HTTP 500 the handler's `except` produces.

The confidence is a Dafny `real`: the code only compares it with constants.
A confidence stands for the decimal value its double prints as, and the
bounds 0.85, 0.70 and 0.55 are the exact decimals; the doubles Python
compares are the nearest ones (the double nearest 0.85 lies just below 0.85,
so a probability equal to that double is Severe in Python, while the exact
real just below 0.85 is Moderate in the model).

main.py:84 maps every prediction other than 1, not only 0, to
"Not Depressed"; the model does the same.

## Model

| member | source | states |
|---|---|---|
| `Features.GetAttr` | main.py:77 | Field lookup by name: a value exactly for the twenty field names, `None` for a name that is not one of the fields. |
| `Features.Project` | main.py:77 | The by-name projection succeeds exactly when every name is a field; the vector then has one entry per name, entry i being the field named by names[i]. |
| `Features.FieldAt` | main.py:22-26 | The field named FEATURES[i] is entry i of the fixed accessor list headache, appetite, …, easily_tired. |
| `Features.FeaturesAreFields` | main.py:22-51 | There are twenty feature names, each one a field of the request record, no name listed twice. |
| `Features.ProjectFeatures` | main.py:22-26 | Projecting in FEATURES order never fails, has length 20, entry i is the field FEATURES[i], and equals the fixed accessor list headache, appetite, …, easily_tired. |
| `Features.ProjectionRoundTrip` | main.py:31-51 | The record is recovered from its twenty-entry vector: the projection loses no field. |
| `Features.ProjectionInjective` | main.py:77 | Two requests with the same feature vector are the same request. |
| `Threshold.ApplyThresholdLogic` | main.py:103-121 | Total: for every class string and every confidence the result is one of the four severity labels. |
| `Threshold.SeverityRank` | main.py:103-121 | The four labels, and only they, have a rank in 0..3 on the severity scale. |
| `Threshold.Mirror` | main.py:113-121 | Reflecting a label swaps Severe with No Depression and Moderate with Mild, so its rank becomes 3 minus the rank. |
| `Threshold.BoundsReached` | main.py:105-120 | The number of bucket bounds a confidence reaches is at most the number of bounds. |
| `Threshold.BoundsReachedIsBucket` | main.py:105-120 | Over ascending bounds, exactly the first k bounds are at most the confidence and the rest exceed it, k being the count (inclusive lower bounds). |
| `Threshold.BoundsReachedMonotone` | main.py:105-120 | A higher confidence never reaches fewer bounds. |
| `Threshold.ThresholdMatchesTable` | main.py:103-121 | The function agrees, for every class and confidence, with the rule table read as bounds reached then a lookup in the class's severity scale. |
| `Threshold.DepressedBuckets` | main.py:104-112 | For "Depressed": Severe iff c ≥ 0.85, Moderate iff 0.70 ≤ c < 0.85, Mild iff 0.55 ≤ c < 0.70, No Depression iff c < 0.55. |
| `Threshold.BoundaryValues` | main.py:105-119 | The values 0.85, 0.70 and 0.55 fall into the higher bucket in both rows. |
| `Threshold.MirrorSymmetry` | main.py:104-121 | Any class string other than exactly "Depressed" takes the "Not Depressed" row, and that row is the "Depressed" row mirrored. |
| `Threshold.DepressedRankIsBoundsReached` | main.py:104-112 | The severity rank in the "Depressed" row is the number of bounds 0.55, 0.70, 0.85 the confidence reaches. |
| `Threshold.Monotonicity` | main.py:104-121 | For "Depressed" a higher confidence never lowers the severity rank; for every other class it never raises it. |
| `Threshold.RowsAreInverse` | main.py:104-121 | For one confidence the two rows' ranks add up to 3: they cover the scale inversely. |
| `Handler.PredictedClass` | main.py:84 | The label is "Depressed" if and only if the prediction is 1, otherwise "Not Depressed". |
| `Handler.PyIndex` | main.py:85 | Indexing succeeds exactly for -len ≤ i < len; non-negative indices read s[i], negative ones count from the end. |
| `Handler.Respond` | main.py:84-98 | The response carries the prediction, its label, the probability at the prediction's index and the policy's severity for that label and confidence; an index outside the probabilities is a 500. |
| `Handler.PredictDepression` | main.py:74-98 | The handler answers exactly when the prediction indexes the probability vector, otherwise fails with a 500 carrying that index fault; an answer carries the prediction, the label main.py:84 derives from it, the probability at the prediction's index, and the policy applied to that label and confidence, one of the four labels. |
| `Handler.BinaryClassifierAnswers` | main.py:80-88 | With a class in {0, 1} and two probabilities, the handler always answers and the confidence is the probability of the predicted class. |
| `Handler.RespondExamples` | main.py:84-94 | Class 1 at 0.92 gives Severe, class 0 at 0.60 gives Moderate, class 1 at 0.50 gives No Depression; class 2 with two probabilities fails. |

## Left out

- Loading the classifier (main.py:11-17): file existence check, `open` and `pickle.load` are file I/O on an opaque artifact.
- `model.predict` and `model.predict_proba` (main.py:80-81): calls into a foreign classifier; they are arbitrary function parameters of `Handler.PredictDepression`.
- The FastAPI application, CORS middleware and route decorators (main.py:56-73): HTTP plumbing.
- `read_root` (main.py:67-71): returns a constant welcome message.
- Request validation of `SRQ20Input` (main.py:31-51): the 422 response comes from the validation library, not from this code; the model starts from a validated record.
- Handler.PredictDepression: `round(confidence, 4)` and the `float`/`int` conversions (main.py:85, main.py:91-93) are not modelled, because they are IEEE floating-point rounding; the response's confidence is the unrounded probability. The source computes `final_class` from the unrounded confidence (main.py:88) but returns the rounded one (main.py:93), so "final class = policy(label, confidence)" holds only for the unrounded value: a probability of 0.84996 comes back as confidence 0.85 with "Moderate Depression", although the table gives Severe at 0.85.
- Threshold.ApplyThresholdLogic: compares exact reals with the exact decimals 0.85, 0.70 and 0.55, not doubles with the nearest doubles, because floating point is not modelled; a confidence equal to one of those nearest doubles, read at its exact value, can land one bucket lower than in Python.
- Handler.PredictDepression: the 500 detail text is the fault value, not the exception's message string; an exception raised inside the classifier itself is not modelled, because its behaviour is not visible.
- NaN confidences: under float comparison NaN falls through to the last bucket of each row; a `real` has no NaN.
