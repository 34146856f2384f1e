# Earthquake alert classification: a Dafny model

This project models the deterministic logic of an earthquake-alert predictor:

- **AlertRule** (`alert_rule.dfy`): the rule that labels each generated
  observation with an alert level. It is a first-match chain of
  magnitude/MMI thresholds over four ordered levels, green < yellow < orange < red.
  The rule is also restated independently: the severity rank is the number of
  (magnitude, mmi) thresholds the observation meets. The two readings are proved
  equal, and monotonicity of the label follows from the counting reading.
- **Prediction** (`prediction.dfy`): the inference function. It computes the
  capped risk score and the clamped aftershock probability from the raw inputs.
  It takes the confidence as the largest entry of the classifier's probability
  row, and assembles the result tuple. The trained classifier is a parameter: a
  function from an observation to its predicted label and probability row.

All arithmetic is over Dafny `real`. Python's `min(a, b)` and `max(a, b)` are
written out as comparisons.

Facts about the code that the model follows:

- The code defines no error of its own for loading artifacts. `joblib.load` runs
  at import time (src/predict.py:5-6) and raises whatever the library raises.
  The feature record is always built from the five named inputs.
- The risk score is capped only from above (src/predict.py:24). The model proves
  it is non-negative under the condition that makes this hold: magnitude, mmi and
  sig are all non-negative.
- The aftershock depth term is exactly 0 from 300 km on (src/predict.py:30).
- The one error the modelled code can raise is taking the maximum of an empty
  probability row (src/predict.py:51). The model returns
  `Err(EmptyProbabilityRow)` for it.

## Model

| member | source | states |
|---|---|---|
| AlertRule.Name | generate_usgs_dataset.py:21-27 | the label string is one of "green", "yellow", "orange", "red"; NamesAndRanksDistinct shows distinct levels get distinct strings |
| AlertRule.AssignAlert | generate_usgs_dataset.py:19-27 | the first-match chain; its severity is at least yellow, at least orange, or red exactly when the yellow, orange or red test passes. The lemmas below characterise each label in both directions, show the chain equals a threshold count, and prove it monotone and independent of depth, cdi and sig |
| AlertRule.Rank | generate_usgs_dataset.py:19-27 | the severity rank lies in 0..3; it is 0 exactly for green and 3 exactly for red |
| AlertRule.ThresholdsNested | generate_usgs_dataset.py:20-25 | meeting a more severe threshold pair implies meeting every less severe one |
| AlertRule.RankIsTiersMet | generate_usgs_dataset.py:19-27 | the first-match chain's rank equals the number of threshold pairs the observation meets |
| AlertRule.TiersMetMonotone | generate_usgs_dataset.py:20-25 | raising magnitude and mmi never decreases the number of thresholds met |
| AlertRule.AlertMonotone | generate_usgs_dataset.py:19-27 | raising magnitude or mmi, or both, never lowers the label's severity rank |
| AlertRule.RedExactly | generate_usgs_dataset.py:20-21 | the label is red if and only if magnitude >= 7.5 or mmi >= 8 |
| AlertRule.OrangeExactly | generate_usgs_dataset.py:20-23 | the label is orange iff the red test fails and (magnitude >= 6.5 or mmi >= 6) holds |
| AlertRule.YellowExactly | generate_usgs_dataset.py:20-25 | the label is yellow iff the red and orange tests fail and (magnitude >= 5.5 or mmi >= 4) holds |
| AlertRule.GreenExactly | generate_usgs_dataset.py:20-27 | the label is green iff magnitude < 5.5 and mmi < 4 |
| AlertRule.RegionsPartition | generate_usgs_dataset.py:19-27 | the four input regions of the chain (red test; orange test without red; yellow test without orange; no yellow test) partition the plane: every observation lies in exactly one |
| AlertRule.NamesAndRanksDistinct | generate_usgs_dataset.py:21-27 | the four labels have pairwise distinct names and pairwise distinct ranks |
| AlertRule.DependsOnlyOnMagnitudeAndMmi | generate_usgs_dataset.py:19-27 | observations that agree on magnitude and mmi get the same label, whatever their depth, cdi and sig |
| AlertRule.WorkedExamples | generate_usgs_dataset.py:20-27 | (7.5, mmi 5) is red, (5.0, mmi 9) is red, (4.0, mmi 2) is green |
| Prediction.DepthRiskTerm | src/predict.py:19 | the depth term is never negative, is at most 10 for non-negative depth, and is 0 from 1000 km down |
| Prediction.UncappedRisk | src/predict.py:17-22 | the weighted sum is at least 8·magnitude + 4·mmi + sig/200, at most 40 more than that for non-negative depth, and non-negative when magnitude, mmi and sig are |
| Prediction.RiskScore | src/predict.py:17-24 | the risk is at most 100, equals either 100 or the uncapped sum and never exceeds it, and is non-negative when magnitude, mmi and sig are |
| Prediction.RiskMonotone | src/predict.py:17-24 | the risk is non-decreasing in magnitude and mmi and non-increasing in depth |
| Prediction.RiskDepthSaturates | src/predict.py:19-24 | at depths of 1000 km and more, depth has no effect on the risk and the depth term contributes 0 |
| Prediction.DepthAftershockTerm | src/predict.py:30 | the depth term is never negative, is at most 1 for non-negative depth, and is 0 from 300 km down |
| Prediction.Clamp01 | src/predict.py:34 | the result lies in [0, 1]; inputs in [0, 1] are unchanged, lower ones become 0 and higher ones become 1 |
| Prediction.AftershockProbability | src/predict.py:28-34 | the aftershock probability lies in [0, 1] |
| Prediction.AftershockMonotone | src/predict.py:28-34 | the aftershock probability is non-decreasing in magnitude and non-increasing in depth |
| Prediction.AftershockDepthSaturates | src/predict.py:28-34 | from 300 km down the aftershock probability is the clamp of (magnitude / 9) * 0.6 |
| Prediction.MaxEntry | src/predict.py:51 | the result is an entry of the probability row and no entry exceeds it |
| Prediction.Predict | src/predict.py:9-59 | fails exactly when the probability row is empty; otherwise the alert is the classifier's label, the risk is RiskScore of the inputs (so at most 100), the aftershock is 100 times AftershockProbability of the inputs, the aftershock percentage lies in [0, 100], the confidence is 100 times the row's maximum entry and lies in [0, 100] when every entry is a probability |
| Prediction.ScoresIndependentOfClassifier | src/predict.py:17-34 | risk and aftershock do not depend on the classifier or on cdi |
| Prediction.WorkedExample | src/predict.py:17-59 | magnitude 6.5, depth 50, mmi 5, sig 100: uncapped sum 110.5, risk exactly 100, aftershock exactly 230/3 percent, inside the interval that rounds to 76.7 |

## Left out

- Prediction.Predict: returns the three scores before Python's `round(x, 1)`, so it does not model decimal rounding. The worked example bounds the aftershock value to the interval that rounds to 76.7.
- IEEE-754 floating point: no NaN, infinities or rounding error. Everything is exact `real` arithmetic.
- Loading the trained pipeline and the label encoder with `joblib.load` at import time (src/predict.py:5-6). These are file I/O.
- `model.predict`, `model.predict_proba` and `label_encoder.inverse_transform` (src/predict.py:47-50) are foreign library calls. They are the `classify` parameter, whose predicted label is assumed to be one of the four alert levels.
- The single-row pandas DataFrame built at src/predict.py:38-44. Only the Observation it carries is modelled.
- Random generation of the dataset with a seeded NumPy RNG, `np.round`, `df.apply` and the CSV write (generate_usgs_dataset.py:4-16, 29-33). These are library behaviour and I/O.
- Training (src/train_model.py): label encoding, the train/test split, grid search with cross-validation, the random forest and the artifact dump are sklearn calls. Its feature-engineering block is dead code because the features are taken before it runs.
- The web UI, the CSV user store and login/session state (app.py).
