/** `purchase_probability_30d`: a heuristic chance that the customer buys again within
    thirty days, from the number of transactions and the days since the last one. */
module Probability {
  import opened Rounding
  import opened FeatureAdapter

  const FloorProbability: real := 0.05
  const CeilingProbability: real := 0.95

  /** `min(num_txns / 10, 1.0)`: ten transactions or more score fully. */
  function FrequencyScore(numTxns: real): (s: real)
    ensures s <= 1.0 && s <= numTxns / 10.0
    ensures s == 1.0 || s == numTxns / 10.0
  {
    if numTxns / 10.0 <= 1.0 then numTxns / 10.0 else 1.0
  }

  /** `max(0.0, 1.0 - recency_days / 45)`: a purchase 45 days ago or earlier scores zero. */
  function RecencyScore(recencyDays: real): (s: real)
    ensures s >= 0.0 && s >= 1.0 - recencyDays / 45.0
    ensures s == 0.0 || s == 1.0 - recencyDays / 45.0
  {
    if 0.0 >= 1.0 - recencyDays / 45.0 then 0.0 else 1.0 - recencyDays / 45.0
  }

  /** The weighted score before clamping: a probability for non-negative features, and
      unbounded below or above once the transactions or the recency are negative. */
  function RawProbability(features: seq<real>): (p: real)
    requires |features| >= FeatureCount
    ensures features[NumTransactions] >= 0.0 ==> p >= 0.0
    ensures features[RecencyDays] >= 0.0 ==> p <= 1.0
  {
    0.6 * RecencyScore(features[RecencyDays]) + 0.4 * FrequencyScore(features[NumTransactions])
  }

  /** `min(max(p, 0.05), 0.95)`. */
  function Clamp(p: real): (r: real)
    ensures FloorProbability <= r <= CeilingProbability
    ensures FloorProbability <= p <= CeilingProbability ==> r == p
    ensures p < FloorProbability ==> r == FloorProbability
    ensures p > CeilingProbability ==> r == CeilingProbability
  {
    var lifted := if p >= FloorProbability then p else FloorProbability;
    if lifted <= CeilingProbability then lifted else CeilingProbability
  }

  /** The probability before the final rounding to two decimals. */
  function UnroundedProbability(features: seq<real>): (p: real)
    requires |features| >= FeatureCount
    ensures FloorProbability <= p <= CeilingProbability
  {
    Clamp(RawProbability(features))
  }

  /** `purchase_probability_30d`; it indexes the list directly, so a list shorter than six
      raises in the source, and callers must reach it only after `run_model`'s check. */
  function PurchaseProbability(features: seq<real>): (p: real)
    requires |features| >= FeatureCount
    ensures FloorProbability <= p <= CeilingProbability
    ensures Abs(p - UnroundedProbability(features)) <= 0.005
  {
    var u := UnroundedProbability(features);
    Round2WithinCents(u, 5, 95);
    Round2(u)
  }

  /** Only the number of transactions and the recency are consulted. */
  lemma ProbabilityDependsOnlyOnFrequencyAndRecency(f: seq<real>, g: seq<real>)
    requires |f| >= FeatureCount && |g| >= FeatureCount
    requires f[NumTransactions] == g[NumTransactions] && f[RecencyDays] == g[RecencyDays]
    ensures PurchaseProbability(f) == PurchaseProbability(g)
  {
  }

  lemma UnroundedMonotoneInTransactions(f: seq<real>, g: seq<real>)
    requires |f| >= FeatureCount && |g| >= FeatureCount
    requires f[RecencyDays] == g[RecencyDays] && f[NumTransactions] <= g[NumTransactions]
    ensures UnroundedProbability(f) <= UnroundedProbability(g)
  {
  }

  lemma UnroundedAntitoneInRecency(f: seq<real>, g: seq<real>)
    requires |f| >= FeatureCount && |g| >= FeatureCount
    requires f[NumTransactions] == g[NumTransactions] && f[RecencyDays] <= g[RecencyDays]
    ensures UnroundedProbability(f) >= UnroundedProbability(g)
  {
  }

  /** More transactions never lower the probability. */
  lemma ProbabilityMonotoneInTransactions(f: seq<real>, g: seq<real>)
    requires |f| >= FeatureCount && |g| >= FeatureCount
    requires f[RecencyDays] == g[RecencyDays] && f[NumTransactions] <= g[NumTransactions]
    ensures PurchaseProbability(f) <= PurchaseProbability(g)
  {
    UnroundedMonotoneInTransactions(f, g);
    Round2Monotone(UnroundedProbability(f), UnroundedProbability(g));
  }

  /** A longer time since the last purchase never raises the probability. */
  lemma ProbabilityAntitoneInRecency(f: seq<real>, g: seq<real>)
    requires |f| >= FeatureCount && |g| >= FeatureCount
    requires f[NumTransactions] == g[NumTransactions] && f[RecencyDays] <= g[RecencyDays]
    ensures PurchaseProbability(f) >= PurchaseProbability(g)
  {
    UnroundedAntitoneInRecency(f, g);
    Round2Monotone(UnroundedProbability(g), UnroundedProbability(f));
  }

  /** A frequent, recent customer gets the ceiling. */
  lemma ProbabilityCeiling(features: seq<real>)
    requires |features| >= FeatureCount
    requires features[NumTransactions] >= 10.0 && features[RecencyDays] <= 0.0
    ensures PurchaseProbability(features) == CeilingProbability
  {
  }

  /** A customer with no transactions and no purchase in 45 days gets the floor. */
  lemma ProbabilityFloor(features: seq<real>)
    requires |features| >= FeatureCount
    requires features[NumTransactions] <= 0.0 && features[RecencyDays] >= 45.0
    ensures PurchaseProbability(features) == FloorProbability
  {
  }

  /** Seven transactions, the last four days ago: 0.6 * 41/45 + 0.4 * 0.7 = 0.8266..., which
      rounds to 0.83. */
  lemma ProbabilityOfSampleCustomer()
    ensures PurchaseProbability([345.7, 49.3, 7.0, 12.0, 5.0, 4.0]) == 0.83
  {
  }
}
