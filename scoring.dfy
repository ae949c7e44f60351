/** The review policy of the processor: how complete the extracted data is,
    the weighted overall confidence, its level, and whether a human has to
    look at the document. Scores are real numbers, not IEEE doubles. */
module Scoring {
  import opened Dicts
  import opened Json
  import opened Models

  /** `CONFIDENCE_THRESHOLD` when the environment does not set it. */
  const DefaultThreshold: real := 0.6

  /** Scores at or above this are HIGH whatever the threshold. */
  const HighCutoff: real := 0.8

  /** The number of entries whose value is truthy. */
  function CountTruthy(d: Dict<Value>): (n: nat)
    ensures n <= |d|
    ensures n == |d| <==> forall i :: 0 <= i < |d| ==> Truthy(d[i].value)
    ensures n == 0 <==> forall i :: 0 <= i < |d| ==> !Truthy(d[i].value)
  {
    if |d| == 0 then 0
    else
      var rest := CountTruthy(d[1..]);
      assert forall i :: 1 <= i < |d| ==> d[1..][i - 1] == d[i];
      (if Truthy(d[0].value) then 1 else 0) + rest
  }

  /** The data-completeness factor: the share of truthy values, or 0.5 when
      the map is empty or reports an error. */
  function Completeness(d: Dict<Value>): (c: real)
    ensures 0.0 <= c <= 1.0
    ensures |d| == 0 || Has(d, "error") ==> c == 0.5
    ensures |d| > 0 && !Has(d, "error") ==> c == Ratio(CountTruthy(d), |d|)
  {
    if |d| > 0 && !Has(d, "error") then Ratio(CountTruthy(d), |d|) else 0.5
  }

  /** Without an error key, a map is complete exactly when every value is
      truthy, and scores zero exactly when none is. */
  lemma CompletenessExtremes(d: Dict<Value>)
    requires |d| > 0 && !Has(d, "error")
    ensures Completeness(d) == 1.0 <==> forall i :: 0 <= i < |d| ==> Truthy(d[i].value)
    ensures Completeness(d) == 0.0 <==> forall i :: 0 <= i < |d| ==> !Truthy(d[i].value)
  {
    assert Completeness(d) == Ratio(CountTruthy(d), |d|);
  }

  /** `n / m` for a count out of a positive total. */
  function Ratio(n: nat, m: nat): (q: real)
    requires 0 < m && n <= m
    ensures q * m as real == n as real
    ensures 0.0 <= q <= 1.0
    ensures q == 1.0 <==> n == m
    ensures q == 0.0 <==> n == 0
  {
    var q := n as real / m as real;
    assert q * m as real == n as real;
    assert q == 1.0 ==> n as real == m as real;
    q
  }

  /** `min(1.0, max(0.0, x))`. */
  function Clamp01(x: real): (r: real)
    ensures 0.0 <= r <= 1.0
    ensures 0.0 <= x <= 1.0 ==> r == x
    ensures x < 0.0 ==> r == 0.0
    ensures x > 1.0 ==> r == 1.0
  {
    if x > 1.0 then 1.0 else if x < 0.0 then 0.0 else x
  }

  /** The overall confidence: 40% classifier, 60% completeness, clamped. For a
      classifier confidence in [0, 1] the clamp never bites. */
  function OverallConfidence(ml: real, d: Dict<Value>): (r: real)
    ensures 0.0 <= r <= 1.0
    ensures 0.0 <= ml <= 1.0 ==> r == 0.4 * ml + 0.6 * Completeness(d)
  {
    Clamp01(ml * 0.4 + Completeness(d) * 0.6)
  }

  /** The level of a score under a given threshold. */
  function Level(score: real, threshold: real): (l: ConfidenceLevel)
    ensures l == High <==> score >= HighCutoff
    ensures l == Medium <==> threshold <= score < HighCutoff
    ensures l == Low <==> score < HighCutoff && score < threshold
  {
    if score >= HighCutoff then High
    else if score >= threshold then Medium
    else Low
  }

  /** `needs_human_review` is set exactly for the LOW level. */
  function NeedsReview(score: real, threshold: real): (b: bool)
    ensures b <==> score < threshold && score < HighCutoff
  {
    Level(score, threshold) == Low
  }

  function Rank(l: ConfidenceLevel): nat {
    match l
    case Low => 0
    case Medium => 1
    case High => 2
  }

  /** A higher score never gets a lower level. */
  lemma LevelMonotone(s1: real, s2: real, threshold: real)
    requires s1 <= s2
    ensures Rank(Level(s1, threshold)) <= Rank(Level(s2, threshold))
  {
  }

  /** Raising the threshold can only add documents to the review queue. */
  lemma ReviewMonotoneInThreshold(score: real, t1: real, t2: real)
    requires t1 <= t2
    ensures NeedsReview(score, t1) ==> NeedsReview(score, t2)
  {
  }

  /** With the default threshold, review is needed exactly below 0.6. */
  lemma DefaultThresholdReview(score: real)
    ensures NeedsReview(score, DefaultThreshold) <==> score < 0.6
  {
  }

  /** The empty map scores `0.4·ml + 0.3`. */
  lemma EmptyMapConfidence(ml: real)
    requires 0.0 <= ml <= 1.0
    ensures OverallConfidence(ml, []) == 0.4 * ml + 0.3
  {
  }

  /** An adapter failure (a map with an "error" key) scores `0.4·ml + 0.3`
      whatever else the map holds, so it is never HIGH, and under the default
      threshold it goes to review exactly when the classifier is below 0.75. */
  lemma ErrorMapConfidence(ml: real, d: Dict<Value>)
    requires 0.0 <= ml <= 1.0
    requires Has(d, "error")
    ensures OverallConfidence(ml, d) == 0.4 * ml + 0.3
    ensures Level(OverallConfidence(ml, d), DefaultThreshold) != High
    ensures NeedsReview(OverallConfidence(ml, d), DefaultThreshold) <==> ml < 0.75
  {
  }

  /** A non-empty, error-free map whose every value is truthy is HIGH exactly
      when the classifier confidence is at least 0.5. */
  lemma CompleteMapHighIff(ml: real, d: Dict<Value>, threshold: real)
    requires 0.0 <= ml <= 1.0
    requires |d| > 0 && !Has(d, "error")
    requires forall i :: 0 <= i < |d| ==> Truthy(d[i].value)
    ensures Level(OverallConfidence(ml, d), threshold) == High <==> ml >= 0.5
  {
  }

  /** A non-empty, error-free map with no truthy value scores `0.4·ml`, which
      is never HIGH and, under the default threshold, always goes to review. */
  lemma EmptyValuesAlwaysReviewed(ml: real, d: Dict<Value>)
    requires 0.0 <= ml <= 1.0
    requires |d| > 0 && !Has(d, "error")
    requires forall i :: 0 <= i < |d| ==> !Truthy(d[i].value)
    ensures OverallConfidence(ml, d) == 0.4 * ml
    ensures NeedsReview(OverallConfidence(ml, d), DefaultThreshold)
  {
  }
}
