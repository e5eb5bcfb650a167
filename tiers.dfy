/** Per-transaction amount tiers. The fee engine (`tier_for_amount`) and the
    analyst report (`tier`) cut amounts at the same three inclusive upper bounds
    but print different labels; both are modelled as one bucket index plus a
    label table each. */
module Tiers {

  /** Inclusive upper bound of buckets 0, 1 and 2; bucket 3 is unbounded. */
  function UpperBound(i: nat): real
    requires i < 3
  {
    [20000.0, 40000.0, 80000.0][i]
  }

  /** The bucket an amount falls in: the only index whose interval
      (previous bound, own bound] holds the amount. */
  function Bucket(v: real): (i: nat)
    ensures i < 4
    ensures i < 3 ==> v <= UpperBound(i)
    ensures i > 0 ==> v > UpperBound(i - 1)
  {
    if v <= 20000.0 then 0
    else if v <= 40000.0 then 1
    else if v <= 80000.0 then 2
    else 3
  }

  /** A larger amount never lands in a lower bucket. */
  lemma BucketMonotone(v: real, w: real)
    requires v <= w
    ensures Bucket(v) <= Bucket(w)
  {
  }

  /** The labels `tier_for_amount` prints, bucket by bucket. */
  const FeeTierLabels: seq<string> := ["<=20000", "20001-40000", "40001-80000", ">80000"]

  /** The labels `tier` of the analyst report prints, bucket by bucket. */
  const ReportTierLabels: seq<string> := ["0-20k", "20k-40k", "40k-80k", "80k+"]

  function FeeTierLabel(i: nat): string
    requires i < 4
  {
    FeeTierLabels[i]
  }

  function ReportTierLabel(i: nat): string
    requires i < 4
  {
    ReportTierLabels[i]
  }

  /** `tier_for_amount` of the fee engine. */
  function TierForAmount(v: real): string
  {
    if v <= 20000.0 then "<=20000"
    else if v <= 40000.0 then "20001-40000"
    else if v <= 80000.0 then "40001-80000"
    else ">80000"
  }

  /** `tier` of the analyst report. */
  function ReportTier(v: real): string
  {
    if v <= 20000.0 then "0-20k"
    else if v <= 40000.0 then "20k-40k"
    else if v <= 80000.0 then "40k-80k"
    else "80k+"
  }

  /** Reads a tier label back as its bucket index in a table of four labels: the
      first three are matched in turn, and anything else is the last bucket. */
  function LabelIndex(labels: seq<string>, name: string): (i: nat)
    requires |labels| == 4
    ensures i < 4
    ensures i < 3 ==> labels[i] == name
    ensures i == 3 ==> name !in labels[..3]
  {
    if name == labels[0] then 0
    else if name == labels[1] then 1
    else if name == labels[2] then 2
    else 3
  }

  /** Each label table names four different labels, so a label identifies its bucket. */
  lemma LabelsIdentifyBuckets(i: nat)
    requires i < 4
    ensures LabelIndex(FeeTierLabels, FeeTierLabel(i)) == i
    ensures LabelIndex(ReportTierLabels, ReportTierLabel(i)) == i
  {
  }

  /** Both tier functions are the bucket index printed through their own label table. */
  lemma TierFunctionsUseBucket(v: real)
    ensures TierForAmount(v) == FeeTierLabel(Bucket(v))
    ensures ReportTier(v) == ReportTierLabel(Bucket(v))
  {
  }

  /** The fee engine and the report place every amount in the same bucket, and two
      amounts share a fee-engine tier exactly when they share a report tier. */
  lemma TiersAgree(v: real, w: real)
    ensures LabelIndex(FeeTierLabels, TierForAmount(v)) == Bucket(v) == LabelIndex(ReportTierLabels, ReportTier(v))
    ensures TierForAmount(v) == TierForAmount(w) <==> ReportTier(v) == ReportTier(w)
  {
    TierFunctionsUseBucket(v);
    TierFunctionsUseBucket(w);
    LabelsIdentifyBuckets(Bucket(v));
    LabelsIdentifyBuckets(Bucket(w));
  }

  /** The boundary amounts: upper bounds are inclusive. */
  lemma TierBoundaries()
    ensures TierForAmount(20000.0) == "<=20000"
    ensures TierForAmount(20000.01) == "20001-40000"
    ensures TierForAmount(80000.0) == "40001-80000"
    ensures TierForAmount(80000.01) == ">80000"
    ensures ReportTier(20000.0) == "0-20k" && ReportTier(80000.01) == "80k+"
  {
  }
}
