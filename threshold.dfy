/**
 * The hand-authored severity policy: a predicted class label and the
 * classifier's confidence in it are mapped to one of four severity labels.
 */
module Threshold {

  const SEVERE := "Severe Depression"
  const MODERATE := "Moderate Depression"
  const MILD := "Mild Depression"
  const NO_DEPRESSION := "No Depression"

  /** The four labels the policy can produce. */
  const SEVERITY_LABELS: set<string> := {SEVERE, MODERATE, MILD, NO_DEPRESSION}

  /**
   * `apply_threshold_logic`: every bucket's lower bound is inclusive, any
   * class other than exactly "Depressed" takes the mirrored branch, and the
   * function is total over all strings and all confidences.
   */
  function ApplyThresholdLogic(predictedClass: string, confidence: real): (r: string)
    ensures r in SEVERITY_LABELS
  {
    if predictedClass == "Depressed" then
      if confidence >= 0.85 then SEVERE
      else if 0.70 <= confidence < 0.85 then MODERATE
      else if 0.55 <= confidence < 0.70 then MILD
      else NO_DEPRESSION
    else
      if confidence >= 0.85 then NO_DEPRESSION
      else if 0.70 <= confidence < 0.85 then MILD
      else if 0.55 <= confidence < 0.70 then MODERATE
      else SEVERE
  }

  /** Severity on an ordinal scale: no depression 0 up to severe 3. */
  function SeverityRank(severity: string): (k: int)
    ensures severity in SEVERITY_LABELS <==> 0 <= k <= 3
  {
    if severity == SEVERE then 3
    else if severity == MODERATE then 2
    else if severity == MILD then 1
    else if severity == NO_DEPRESSION then 0
    else -1
  }

  /** Reflects a label on the severity scale: severe with none, moderate with mild. */
  function Mirror(severity: string): (m: string)
    requires severity in SEVERITY_LABELS
    ensures m in SEVERITY_LABELS
    ensures SeverityRank(m) == 3 - SeverityRank(severity)
  {
    if severity == SEVERE then NO_DEPRESSION
    else if severity == MODERATE then MILD
    else if severity == MILD then MODERATE
    else SEVERE
  }

  // ---------------------------------------------------------------------------
  // Reference definition: the rule table, read as "how many bucket bounds has
  // the confidence reached" followed by a lookup in the class's severity scale.
  // ---------------------------------------------------------------------------

  /** The bucket lower bounds, ascending. */
  const BOUNDS: seq<real> := [0.55, 0.70, 0.85]

  /** The severity scale of the "Depressed" row, indexed by bounds reached. */
  const DEPRESSED_SCALE: seq<string> := [NO_DEPRESSION, MILD, MODERATE, SEVERE]

  /** The severity scale of the "Not Depressed" row: the same scale reversed. */
  const NOT_DEPRESSED_SCALE: seq<string> := [SEVERE, MODERATE, MILD, NO_DEPRESSION]

  ghost predicate Ascending(bounds: seq<real>)
  {
    forall i, j :: 0 <= i < j < |bounds| ==> bounds[i] <= bounds[j]
  }

  /** Number of bounds the confidence has reached (a bound is reached when it is at most the confidence). */
  function BoundsReached(bounds: seq<real>, confidence: real): (k: nat)
    ensures k <= |bounds|
  {
    if bounds == [] then 0
    else (if bounds[0] <= confidence then 1 else 0) + BoundsReached(bounds[1..], confidence)
  }

  /** The rule table as a lookup. */
  function TableLookup(predictedClass: string, confidence: real): string
  {
    var k := BoundsReached(BOUNDS, confidence);
    if predictedClass == "Depressed" then DEPRESSED_SCALE[k] else NOT_DEPRESSED_SCALE[k]
  }

  /** Over ascending bounds, exactly the first k bounds are reached, k being the count. */
  lemma {:induction false} BoundsReachedIsBucket(bounds: seq<real>, confidence: real)
    requires Ascending(bounds)
    ensures var k := BoundsReached(bounds, confidence);
      (forall i :: 0 <= i < k ==> bounds[i] <= confidence) &&
      (forall i :: k <= i < |bounds| ==> confidence < bounds[i])
  {
    if bounds != [] {
      var rest := bounds[1..];
      assert Ascending(rest) by {
        forall i, j | 0 <= i < j < |rest| ensures rest[i] <= rest[j] {
          assert rest[i] == bounds[i + 1] && rest[j] == bounds[j + 1];
        }
      }
      BoundsReachedIsBucket(rest, confidence);
      var k := BoundsReached(bounds, confidence);
      var k' := BoundsReached(rest, confidence);
      if bounds[0] <= confidence {
        assert k == k' + 1;
        forall i | 0 <= i < k ensures bounds[i] <= confidence {
          if i > 0 { assert bounds[i] == rest[i - 1]; }
        }
        forall i | k <= i < |bounds| ensures confidence < bounds[i] {
          assert bounds[i] == rest[i - 1];
        }
      } else {
        assert k == k';
        forall i | k <= i < |bounds| ensures confidence < bounds[i] {
          assert bounds[0] <= bounds[i];
        }
      }
    }
  }

  /** A higher confidence never reaches fewer bounds. */
  lemma {:induction false} BoundsReachedMonotone(bounds: seq<real>, c1: real, c2: real)
    requires c1 <= c2
    ensures BoundsReached(bounds, c1) <= BoundsReached(bounds, c2)
  {
    if bounds != [] {
      BoundsReachedMonotone(bounds[1..], c1, c2);
    }
  }

  /** `apply_threshold_logic` agrees with the rule table for every class and confidence. */
  lemma ThresholdMatchesTable(predictedClass: string, confidence: real)
    ensures ApplyThresholdLogic(predictedClass, confidence) == TableLookup(predictedClass, confidence)
  {
    assert BOUNDS[0] == 0.55 && BOUNDS[1] == 0.70 && BOUNDS[2] == 0.85;
    assert Ascending(BOUNDS);
    BoundsReachedIsBucket(BOUNDS, confidence);
    var k := BoundsReached(BOUNDS, confidence);
    assert k == 3 <==> confidence >= 0.85;
    assert k == 2 <==> 0.70 <= confidence < 0.85;
    assert k == 1 <==> 0.55 <= confidence < 0.70;
  }

  // ---------------------------------------------------------------------------
  // Properties of the policy.
  // ---------------------------------------------------------------------------

  /** The "Depressed" row, bucket by bucket, with inclusive lower bounds. */
  lemma DepressedBuckets(confidence: real)
    ensures ApplyThresholdLogic("Depressed", confidence) == SEVERE <==> confidence >= 0.85
    ensures ApplyThresholdLogic("Depressed", confidence) == MODERATE <==> 0.70 <= confidence < 0.85
    ensures ApplyThresholdLogic("Depressed", confidence) == MILD <==> 0.55 <= confidence < 0.70
    ensures ApplyThresholdLogic("Depressed", confidence) == NO_DEPRESSION <==> confidence < 0.55
  {
  }

  /** The bounds themselves fall into the higher bucket. */
  lemma BoundaryValues()
    ensures ApplyThresholdLogic("Depressed", 0.85) == SEVERE
    ensures ApplyThresholdLogic("Depressed", 0.70) == MODERATE
    ensures ApplyThresholdLogic("Depressed", 0.55) == MILD
    ensures ApplyThresholdLogic("Not Depressed", 0.85) == NO_DEPRESSION
    ensures ApplyThresholdLogic("Not Depressed", 0.70) == MILD
    ensures ApplyThresholdLogic("Not Depressed", 0.55) == MODERATE
  {
  }

  /**
   * Every class string other than exactly "Depressed" is treated as
   * "Not Depressed", and that row is the "Depressed" row mirrored.
   */
  lemma MirrorSymmetry(predictedClass: string, confidence: real)
    requires predictedClass != "Depressed"
    ensures ApplyThresholdLogic(predictedClass, confidence) == ApplyThresholdLogic("Not Depressed", confidence)
    ensures ApplyThresholdLogic(predictedClass, confidence) == Mirror(ApplyThresholdLogic("Depressed", confidence))
  {
  }

  /** The severity rank of the "Depressed" row is the number of bounds reached. */
  lemma DepressedRankIsBoundsReached(confidence: real)
    ensures SeverityRank(ApplyThresholdLogic("Depressed", confidence)) == BoundsReached(BOUNDS, confidence)
  {
    ThresholdMatchesTable("Depressed", confidence);
  }

  /**
   * Within the "Depressed" row a higher confidence never lowers the severity;
   * within the other row it never raises it.
   */
  lemma Monotonicity(predictedClass: string, c1: real, c2: real)
    requires c1 <= c2
    ensures predictedClass == "Depressed" ==>
      SeverityRank(ApplyThresholdLogic(predictedClass, c1)) <= SeverityRank(ApplyThresholdLogic(predictedClass, c2))
    ensures predictedClass != "Depressed" ==>
      SeverityRank(ApplyThresholdLogic(predictedClass, c1)) >= SeverityRank(ApplyThresholdLogic(predictedClass, c2))
  {
    DepressedRankIsBoundsReached(c1);
    DepressedRankIsBoundsReached(c2);
    BoundsReachedMonotone(BOUNDS, c1, c2);
    if predictedClass != "Depressed" {
      MirrorSymmetry(predictedClass, c1);
      MirrorSymmetry(predictedClass, c2);
    }
  }

  /** For one confidence, the two rows together cover the scale inversely. */
  lemma RowsAreInverse(confidence: real)
    ensures SeverityRank(ApplyThresholdLogic("Depressed", confidence))
          + SeverityRank(ApplyThresholdLogic("Not Depressed", confidence)) == 3
  {
    MirrorSymmetry("Not Depressed", confidence);
  }
}
