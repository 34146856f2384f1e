/** The inference step: two closed-form derived scores (risk and aftershock
    probability) computed from the raw inputs, combined with the trained
    classifier's predicted label and probability row into one result. */
module Prediction {
  import opened AlertRule

  function Min(a: real, b: real): real { if b < a then b else a }
  function Max(a: real, b: real): real { if b > a then b else a }

  // ---------------- Risk score ----------------

  /** Depth contribution before weighting: 10 at the surface, falling by one
      per 100 km, and exactly 0 from 1000 km down. */
  function DepthRiskTerm(depth: real): (t: real)
    ensures t >= 0.0
    ensures depth >= 1000.0 ==> t == 0.0
    ensures depth >= 0.0 ==> t <= 10.0
  {
    10.0 - Min(depth / 100.0, 10.0)
  }

  /** The weighted sum before the cap. */
  function UncappedRisk(magnitude: real, depth: real, mmi: real, sig: real): (r: real)
    ensures r >= magnitude * 8.0 + mmi * 4.0 + sig / 200.0
    ensures depth >= 0.0 ==> r <= magnitude * 8.0 + mmi * 4.0 + sig / 200.0 + 40.0
    ensures magnitude >= 0.0 && mmi >= 0.0 && sig >= 0.0 ==> r >= 0.0
  {
    magnitude * 8.0 + DepthRiskTerm(depth) * 4.0 + mmi * 4.0 + sig / 200.0
  }

  /** The risk score: the weighted sum capped at 100. */
  function RiskScore(magnitude: real, depth: real, mmi: real, sig: real): (r: real)
    ensures r <= 100.0
    ensures magnitude >= 0.0 && mmi >= 0.0 && sig >= 0.0 ==> r >= 0.0
    ensures r == 100.0 || r == UncappedRisk(magnitude, depth, mmi, sig)
    ensures r <= UncappedRisk(magnitude, depth, mmi, sig)
  {
    Min(UncappedRisk(magnitude, depth, mmi, sig), 100.0)
  }

  /** Raising magnitude or mmi never lowers the risk score; going deeper never
      raises it. */
  lemma RiskMonotone(m1: real, m2: real, d1: real, d2: real, i1: real, i2: real, sig: real)
    requires m1 <= m2 && i1 <= i2 && d2 <= d1
    ensures RiskScore(m1, d1, i1, sig) <= RiskScore(m2, d2, i2, sig)
  {
  }

  /** Below 1000 km depth has no further effect on the risk score. */
  lemma RiskDepthSaturates(magnitude: real, d1: real, d2: real, mmi: real, sig: real)
    requires d1 >= 1000.0 && d2 >= 1000.0
    ensures RiskScore(magnitude, d1, mmi, sig) == RiskScore(magnitude, d2, mmi, sig)
    ensures UncappedRisk(magnitude, d1, mmi, sig) == magnitude * 8.0 + mmi * 4.0 + sig / 200.0
  {
  }

  // ---------------- Aftershock probability ----------------

  /** Depth contribution before weighting: 1 at the surface, 0 from 300 km. */
  function DepthAftershockTerm(depth: real): (t: real)
    ensures t >= 0.0
    ensures depth >= 300.0 ==> t == 0.0
    ensures depth >= 0.0 ==> t <= 1.0
  {
    1.0 - Min(depth / 300.0, 1.0)
  }

  /** Clamp into [0, 1], as `max(0, min(x, 1))`. */
  function Clamp01(x: real): (r: real)
    ensures 0.0 <= r <= 1.0
    ensures 0.0 <= x <= 1.0 ==> r == x
    ensures x < 0.0 ==> r == 0.0
    ensures x > 1.0 ==> r == 1.0
  {
    Max(0.0, Min(x, 1.0))
  }

  /** The aftershock probability: weighted sum clamped into [0, 1]. */
  function AftershockProbability(magnitude: real, depth: real): (p: real)
    ensures 0.0 <= p <= 1.0
  {
    Clamp01((magnitude / 9.0) * 0.6 + DepthAftershockTerm(depth) * 0.4)
  }

  /** Larger magnitude never lowers the aftershock probability; greater depth
      never raises it. */
  lemma AftershockMonotone(m1: real, m2: real, d1: real, d2: real)
    requires m1 <= m2 && d2 <= d1
    ensures AftershockProbability(m1, d1) <= AftershockProbability(m2, d2)
  {
  }

  /** From 300 km down only magnitude matters. */
  lemma AftershockDepthSaturates(magnitude: real, depth: real)
    requires depth >= 300.0
    ensures AftershockProbability(magnitude, depth) == Clamp01((magnitude / 9.0) * 0.6)
  {
  }

  // ---------------- Confidence ----------------

  /** The largest entry of a non-empty probability row. */
  function MaxEntry(row: seq<real>): (m: real)
    requires |row| > 0
    ensures m in row
    ensures forall i :: 0 <= i < |row| ==> row[i] <= m
  {
    if |row| == 1 then row[0]
    else Max(row[0], MaxEntry(row[1..]))
  }

  predicate AllProbabilities(row: seq<real>) {
    forall i :: 0 <= i < |row| ==> 0.0 <= row[i] <= 1.0
  }

  // ---------------- Assembling the result ----------------

  /** What the trained classifier reports for one observation: the decoded
      predicted label and the class-probability row. */
  datatype Classification = Classification(predicted: Alert, probabilities: seq<real>)

  /** The result tuple, with the three scores as percentages / out of 100. */
  datatype PredictionResult = PredictionResult(alert: Alert, risk: real, confidence: real, aftershock: real)

  /** Taking the maximum of an empty probability row is an error. */
  datatype PredictError = EmptyProbabilityRow

  datatype Result<T, E> = Ok(value: T) | Err(error: E)

  /** The inference function: derived scores from the raw inputs, alert and
      confidence from the classifier's output on the same five features. */
  function Predict(o: Observation, classify: Observation -> Classification): (r: Result<PredictionResult, PredictError>)
    ensures r.Err? <==> |classify(o).probabilities| == 0
    ensures r.Ok? ==> r.value.alert == classify(o).predicted
    ensures r.Ok? ==> r.value.risk == RiskScore(o.magnitude, o.depth, o.mmi, o.sig)
    ensures r.Ok? ==> r.value.aftershock == 100.0 * AftershockProbability(o.magnitude, o.depth)
    ensures r.Ok? ==> r.value.risk <= 100.0 && 0.0 <= r.value.aftershock <= 100.0
    ensures r.Ok? ==> r.value.confidence / 100.0 in classify(o).probabilities
    ensures r.Ok? ==> forall i :: 0 <= i < |classify(o).probabilities| ==>
      100.0 * classify(o).probabilities[i] <= r.value.confidence
    ensures r.Ok? && AllProbabilities(classify(o).probabilities) ==> 0.0 <= r.value.confidence <= 100.0
  {
    var c := classify(o);
    if |c.probabilities| == 0 then Err(EmptyProbabilityRow)
    else
      Ok(PredictionResult(
        c.predicted,
        RiskScore(o.magnitude, o.depth, o.mmi, o.sig),
        MaxEntry(c.probabilities) * 100.0,
        AftershockProbability(o.magnitude, o.depth) * 100.0))
  }

  /** The derived scores do not depend on the classifier, nor on CDI. */
  lemma ScoresIndependentOfClassifier(o1: Observation, o2: Observation,
                                      f: Observation -> Classification, g: Observation -> Classification)
    requires o1.magnitude == o2.magnitude && o1.depth == o2.depth
    requires o1.mmi == o2.mmi && o1.sig == o2.sig
    requires Predict(o1, f).Ok? && Predict(o2, g).Ok?
    ensures Predict(o1, f).value.risk == Predict(o2, g).value.risk
    ensures Predict(o1, f).value.aftershock == Predict(o2, g).value.aftershock
  {
  }

  /** Worked example: magnitude 6.5, depth 50, mmi 5, sig 100 gives an
      uncapped sum of 110.5, so risk 100; aftershock 23/30, i.e. 76.66...%,
      which lies in the interval that rounds to 76.7. */
  lemma WorkedExample(cdi: real, classify: Observation -> Classification)
    requires |classify(Observation(6.5, 50.0, cdi, 5.0, 100.0)).probabilities| > 0
    ensures UncappedRisk(6.5, 50.0, 5.0, 100.0) == 110.5
    ensures var r := Predict(Observation(6.5, 50.0, cdi, 5.0, 100.0), classify);
      r.Ok? && r.value.risk == 100.0 && r.value.aftershock == 230.0 / 3.0
      && 76.65 <= r.value.aftershock < 76.75
  {
  }
}
