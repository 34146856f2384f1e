/** The alert-level rule used to label every generated earthquake observation:
    a first-match chain of magnitude/MMI thresholds yielding one of four
    severity levels. */
module AlertRule {

  /** The four alert levels, in increasing order of severity. */
  datatype Alert = Green | Yellow | Orange | Red

  /** Severity rank: green < yellow < orange < red. */
  function Rank(a: Alert): (r: nat)
    ensures r <= 3
    ensures r == 0 <==> a == Green
    ensures r == 3 <==> a == Red
  {
    match a
    case Green => 0
    case Yellow => 1
    case Orange => 2
    case Red => 3
  }

  /** The label string the rule writes into the dataset's `alert` column. */
  function Name(a: Alert): (s: string)
    ensures s in {"green", "yellow", "orange", "red"}
  {
    match a
    case Green => "green"
    case Yellow => "yellow"
    case Orange => "orange"
    case Red => "red"
  }

  /** One seismic event: magnitude, depth (km), CDI, MMI and significance. */
  datatype Observation = Observation(magnitude: real, depth: real, cdi: real, mmi: real, sig: real)

  /** The three tests of the chain, from the most to the least severe. */
  predicate RedTest(o: Observation) { o.magnitude >= 7.5 || o.mmi >= 8.0 }
  predicate OrangeTest(o: Observation) { o.magnitude >= 6.5 || o.mmi >= 6.0 }
  predicate YellowTest(o: Observation) { o.magnitude >= 5.5 || o.mmi >= 4.0 }

  /** The rule as written: tests checked in priority order, first match wins.
      The severity reaches each level exactly when that level's own test
      passes, whatever the more severe tests say. */
  function AssignAlert(o: Observation): (a: Alert)
    ensures Rank(a) >= 1 <==> YellowTest(o)
    ensures Rank(a) >= 2 <==> OrangeTest(o)
    ensures Rank(a) == 3 <==> RedTest(o)
  {
    if RedTest(o) then Red
    else if OrangeTest(o) then Orange
    else if YellowTest(o) then Yellow
    else Green
  }

  // An independent reading of the same rule: each level above green has a
  // (magnitude, mmi) threshold pair, and the severity is the number of
  // thresholds the observation meets.

  /** (magnitude, mmi) lower bounds of yellow, orange and red. */
  const THRESHOLDS: seq<(real, real)> := [(5.5, 4.0), (6.5, 6.0), (7.5, 8.0)]

  predicate Meets(o: Observation, t: (real, real)) {
    o.magnitude >= t.0 || o.mmi >= t.1
  }

  /** How many of the thresholds in ts the observation meets. */
  function TiersMet(o: Observation, ts: seq<(real, real)>): (n: nat)
    ensures n <= |ts|
  {
    if ts == [] then 0
    else (if Meets(o, ts[0]) then 1 else 0) + TiersMet(o, ts[1..])
  }

  /** The thresholds are nested: meeting a more severe one implies meeting
      every less severe one. This stand-alone fact explains why the first
      match of the chain coincides with the count of thresholds met. */
  lemma ThresholdsNested(o: Observation, i: nat, j: nat)
    requires i <= j < |THRESHOLDS|
    ensures Meets(o, THRESHOLDS[j]) ==> Meets(o, THRESHOLDS[i])
  {
  }

  /** The first-match chain agrees with the counting definition. */
  lemma {:induction false} RankIsTiersMet(o: Observation)
    ensures Rank(AssignAlert(o)) == TiersMet(o, THRESHOLDS)
  {
    var ts := THRESHOLDS;
    assert ts[1..][1..][1..] == [];
    assert TiersMet(o, ts[1..][1..]) == if Meets(o, (7.5, 8.0)) then 1 else 0;
    assert TiersMet(o, ts[1..]) == (if Meets(o, (6.5, 6.0)) then 1 else 0) + TiersMet(o, ts[1..][1..]);
  }

  /** Meeting-count is monotone in both magnitude and mmi. */
  lemma {:induction false} TiersMetMonotone(o1: Observation, o2: Observation, ts: seq<(real, real)>)
    requires o1.magnitude <= o2.magnitude && o1.mmi <= o2.mmi
    ensures TiersMet(o1, ts) <= TiersMet(o2, ts)
  {
    if ts != [] {
      TiersMetMonotone(o1, o2, ts[1..]);
    }
  }

  /** Raising magnitude or mmi (or both) never lowers the alert's severity. */
  lemma AlertMonotone(o1: Observation, o2: Observation)
    requires o1.magnitude <= o2.magnitude && o1.mmi <= o2.mmi
    ensures Rank(AssignAlert(o1)) <= Rank(AssignAlert(o2))
  {
    RankIsTiersMet(o1);
    RankIsTiersMet(o2);
    TiersMetMonotone(o1, o2, THRESHOLDS);
  }

  /** Each label, both directions: exactly when the rule gives it. */
  lemma RedExactly(o: Observation)
    ensures AssignAlert(o) == Red <==> (o.magnitude >= 7.5 || o.mmi >= 8.0)
  {
  }

  lemma OrangeExactly(o: Observation)
    ensures AssignAlert(o) == Orange <==>
      !(o.magnitude >= 7.5 || o.mmi >= 8.0) && (o.magnitude >= 6.5 || o.mmi >= 6.0)
  {
  }

  lemma YellowExactly(o: Observation)
    ensures AssignAlert(o) == Yellow <==>
      !(o.magnitude >= 7.5 || o.mmi >= 8.0) && !(o.magnitude >= 6.5 || o.mmi >= 6.0)
      && (o.magnitude >= 5.5 || o.mmi >= 4.0)
  {
  }

  lemma GreenExactly(o: Observation)
    ensures AssignAlert(o) == Green <==> o.magnitude < 5.5 && o.mmi < 4.0
  {
  }

  /** Totality and exclusivity: the four input regions of the chain
      partition the (magnitude, mmi) plane, so every observation falls in
      exactly one of them. */
  lemma RegionsPartition(o: Observation)
    ensures (if RedTest(o) then 1 else 0)
      + (if !RedTest(o) && OrangeTest(o) then 1 else 0)
      + (if !OrangeTest(o) && YellowTest(o) then 1 else 0)
      + (if !YellowTest(o) then 1 else 0) == 1
  {
  }

  /** Distinct levels have distinct names and distinct ranks. */
  lemma NamesAndRanksDistinct(a: Alert, b: Alert)
    ensures Name(a) == Name(b) <==> a == b
    ensures Rank(a) == Rank(b) <==> a == b
  {
  }

  /** Depth, CDI and significance play no part in the label. */
  lemma DependsOnlyOnMagnitudeAndMmi(o1: Observation, o2: Observation)
    requires o1.magnitude == o2.magnitude && o1.mmi == o2.mmi
    ensures AssignAlert(o1) == AssignAlert(o2)
  {
  }

  /** Worked examples: the magnitude threshold alone, the mmi threshold alone,
      and a quiet event. */
  lemma WorkedExamples(depth: real, cdi: real, sig: real)
    ensures AssignAlert(Observation(7.5, depth, cdi, 5.0, sig)) == Red
    ensures AssignAlert(Observation(5.0, depth, cdi, 9.0, sig)) == Red
    ensures AssignAlert(Observation(4.0, depth, cdi, 2.0, sig)) == Green
    ensures Name(AssignAlert(Observation(4.0, depth, cdi, 2.0, sig))) == "green"
  {
  }
}
