/** The embedded tariff schedule and the rate resolver of the fee engine.
    Rates are exact decimals (0.0279 is 2.79%). */
module Rates {
  import opened Tiers

  /** D0/Nitro for non-Link products (pos, tap): the same for every tier. */
  const D0NonLink: map<(string, int), real> := map[
    ("debit", 1) := 0.0279,
    ("credit", 1) := 0.0599, ("credit", 2) := 0.1139, ("credit", 3) := 0.1249,
    ("credit", 4) := 0.1309, ("credit", 5) := 0.1379, ("credit", 6) := 0.1449,
    ("credit", 7) := 0.1549, ("credit", 8) := 0.1609, ("credit", 9) := 0.1669,
    ("credit", 10) := 0.1739, ("credit", 11) := 0.1839, ("credit", 12) := 0.1879]

  /** Link, credit only, D1 anticipation: keyed by installments, tier-agnostic. */
  const LinkD1: map<int, real> := map[
    1 := 0.0420, 2 := 0.0609, 3 := 0.0701, 4 := 0.0791, 5 := 0.0880, 6 := 0.0967,
    7 := 0.1259, 8 := 0.1342, 9 := 0.1425, 10 := 0.1506, 11 := 0.1587, 12 := 0.1666]

  /** Link, credit only, D0/Nitro: keyed by installments, tier-agnostic. */
  const LinkD0: map<int, real> := map[
    1 := 0.0549, 2 := 0.1089, 3 := 0.1199, 4 := 0.1259, 5 := 0.1329, 6 := 0.1399,
    7 := 0.1499, 8 := 0.1559, 9 := 0.1619, 10 := 0.1689, 11 := 0.1789, 12 := 0.1829]

  /** D1 anticipation for non-Link products: one sub-table per amount tier. */
  const D1NonLink: map<string, map<(string, int), real>> := map[
    "<=20000" := map[
      ("debit", 1) := 0.0157,
      ("credit", 1) := 0.0344, ("credit", 2) := 0.0557, ("credit", 3) := 0.0630,
      ("credit", 4) := 0.0703, ("credit", 5) := 0.0774, ("credit", 6) := 0.0845,
      ("credit", 7) := 0.0916, ("credit", 8) := 0.0986, ("credit", 9) := 0.1055,
      ("credit", 10) := 0.1123, ("credit", 11) := 0.1191, ("credit", 12) := 0.1257],
    "20001-40000" := map[
      ("debit", 1) := 0.0105,
      ("credit", 1) := 0.0318, ("credit", 2) := 0.0453, ("credit", 3) := 0.0514,
      ("credit", 4) := 0.0574, ("credit", 5) := 0.0635, ("credit", 6) := 0.0694,
      ("credit", 7) := 0.0754, ("credit", 8) := 0.0812, ("credit", 9) := 0.0870,
      ("credit", 10) := 0.0927, ("credit", 11) := 0.0985, ("credit", 12) := 0.1041],
    "40001-80000" := map[
      ("debit", 1) := 0.0099,
      ("credit", 1) := 0.0308, ("credit", 2) := 0.0439, ("credit", 3) := 0.0495,
      ("credit", 4) := 0.0551, ("credit", 5) := 0.0607, ("credit", 6) := 0.0662,
      ("credit", 7) := 0.0717, ("credit", 8) := 0.0772, ("credit", 9) := 0.0826,
      ("credit", 10) := 0.0879, ("credit", 11) := 0.0932, ("credit", 12) := 0.0985],
    ">80000" := map[
      ("debit", 1) := 0.0094,
      ("credit", 1) := 0.0298, ("credit", 2) := 0.0425, ("credit", 3) := 0.0477,
      ("credit", 4) := 0.0528, ("credit", 5) := 0.0579, ("credit", 6) := 0.0629,
      ("credit", 7) := 0.0681, ("credit", 8) := 0.0729, ("credit", 9) := 0.0781,
      ("credit", 10) := 0.0829, ("credit", 11) := 0.0879, ("credit", 12) := 0.0928]]

  /** The largest rate anywhere in the schedule. */
  const MaxRate: real := 0.1879

  /** `dict.get(key, 0.0)`. */
  function Lookup<K>(m: map<K, real>, k: K): real
  {
    if k in m then m[k] else 0.0
  }

  /** `D1_NONLINK.get(tier, {})`. */
  function D1Table(tier: string): map<(string, int), real>
  {
    if tier in D1NonLink then D1NonLink[tier] else map[]
  }

  /** The channels that carry no fee. */
  predicate IsFree(s: string)
  {
    s == "pix" || s == "bank_slip"
  }

  /** The non-Link lookup key: debit is always looked up as one installment. */
  function NonLinkKey(pm: string, inst: int): (string, int)
  {
    (pm, if pm == "debit" then 1 else inst)
  }

  /** The keys every non-Link table defines: debit in one installment and credit in 1 to 12. */
  predicate ScheduledNonLink(key: (string, int))
  {
    key == ("debit", 1) || (key.0 == "credit" && 1 <= key.1 <= 12)
  }

  predicate RateInRange(r: real)
  {
    0.0 < r <= MaxRate
  }

  lemma LinkTablesShape(inst: int)
    ensures inst in LinkD0 <==> 1 <= inst <= 12
    ensures inst in LinkD1 <==> 1 <= inst <= 12
    ensures inst in LinkD0 ==> RateInRange(LinkD0[inst])
    ensures inst in LinkD1 ==> RateInRange(LinkD1[inst])
  {
  }

  lemma D0NonLinkShape(key: (string, int))
    ensures key in D0NonLink <==> ScheduledNonLink(key)
    ensures key in D0NonLink ==> RateInRange(D0NonLink[key])
  {
  }

  lemma D1NonLinkShape(i: nat, key: (string, int))
    requires i < 4
    ensures FeeTierLabel(i) in D1NonLink
    ensures key in D1NonLink[FeeTierLabel(i)] <==> ScheduledNonLink(key)
    ensures key in D1NonLink[FeeTierLabel(i)] ==> RateInRange(D1NonLink[FeeTierLabel(i)][key])
  {
  }

  /** The only keys of the tiered table are the four tier labels. */
  lemma D1NonLinkTiers(tier: string)
    ensures tier in D1NonLink <==> exists i :: 0 <= i < 4 && tier == FeeTierLabel(i)
  {
    if tier in D1NonLink {
      if tier == "<=20000" { assert tier == FeeTierLabel(0); }
      else if tier == "20001-40000" { assert tier == FeeTierLabel(1); }
      else if tier == "40001-80000" { assert tier == FeeTierLabel(2); }
      else { assert tier == FeeTierLabel(3); }
    }
  }

  /** Every label `tier_for_amount` can produce selects a sub-table, so the empty
      fallback of `D1_NONLINK.get(tier, {})` is never reached for a tiered row. */
  lemma TierLabelsAreScheduled(v: real)
    ensures TierForAmount(v) in D1NonLink
  {
    TierFunctionsUseBucket(v);
    D1NonLinkShape(Bucket(v), ("debit", 1));
  }

  /** Every value the schedule can hand out lies in (0, MaxRate]. */
  lemma LookupsInRange(pm: string, inst: int, tier: string)
    ensures Lookup(LinkD0, inst) == 0.0 || RateInRange(Lookup(LinkD0, inst))
    ensures Lookup(LinkD1, inst) == 0.0 || RateInRange(Lookup(LinkD1, inst))
    ensures Lookup(D0NonLink, NonLinkKey(pm, inst)) == 0.0 || RateInRange(Lookup(D0NonLink, NonLinkKey(pm, inst)))
    ensures Lookup(D1Table(tier), NonLinkKey(pm, inst)) == 0.0 || RateInRange(Lookup(D1Table(tier), NonLinkKey(pm, inst)))
  {
    LinkTablesShape(inst);
    D0NonLinkShape(NonLinkKey(pm, inst));
    if tier in D1NonLink {
      D1NonLinkTiers(tier);
      var i :| 0 <= i < 4 && tier == FeeTierLabel(i);
      D1NonLinkShape(i, NonLinkKey(pm, inst));
    }
  }

  /** `fee_rate_for_row`: free channels first, then Link (credit only, tier-agnostic),
      then non-Link under exactly "D0/Nitro" (tier-agnostic), then the tiered D1 table.
      Every path yields a schedule value or 0, so the rate is within [0, MaxRate]. */
  function FeeRateForRow(pm: string, prod: string, ant: string, inst: int, tier: string): (r: real)
    ensures 0.0 <= r <= MaxRate
  {
    LookupsInRange(pm, inst, tier);
    if IsFree(pm) || IsFree(prod) then 0.0
    else if prod == "link" then
      if pm == "credit" then Lookup(if ant == "D0/Nitro" then LinkD0 else LinkD1, inst)
      else 0.0
    else if ant == "D0/Nitro" then Lookup(D0NonLink, NonLinkKey(pm, inst))
    else Lookup(D1Table(tier), NonLinkKey(pm, inst))
  }

  /** A free channel in either column gives exactly 0, whatever the other fields say. */
  lemma FreeChannelIsFree(pm: string, prod: string, ant: string, inst: int, tier: string)
    requires IsFree(pm) || IsFree(prod)
    ensures FeeRateForRow(pm, prod, ant, inst, tier) == 0.0
  {
  }

  /** Link with credit: the D0 table under exactly "D0/Nitro", the D1 table under any
      other spelling; the tier is ignored; a rate exists exactly for 1 to 12 installments. */
  lemma LinkCreditRate(ant: string, inst: int, tier: string, tier': string)
    ensures FeeRateForRow("credit", "link", ant, inst, tier)
         == (if ant == "D0/Nitro" then Lookup(LinkD0, inst) else Lookup(LinkD1, inst))
    ensures FeeRateForRow("credit", "link", ant, inst, tier) == FeeRateForRow("credit", "link", ant, inst, tier')
    ensures FeeRateForRow("credit", "link", ant, inst, tier) > 0.0 <==> 1 <= inst <= 12
  {
    LinkTablesShape(inst);
  }

  /** Link with any method other than credit (debit included) gives 0. */
  lemma LinkWithoutCreditIsZero(pm: string, ant: string, inst: int, tier: string)
    requires pm != "credit"
    ensures FeeRateForRow(pm, "link", ant, inst, tier) == 0.0
  {
  }

  /** Non-Link under exactly "D0/Nitro": the tier-agnostic table, debit looked up as
      one installment whatever the row says. */
  lemma NitroNonLinkRate(pm: string, prod: string, inst: int, tier: string, tier': string)
    requires !IsFree(pm) && !IsFree(prod) && prod != "link"
    ensures FeeRateForRow(pm, prod, "D0/Nitro", inst, tier) == Lookup(D0NonLink, NonLinkKey(pm, inst))
    ensures FeeRateForRow(pm, prod, "D0/Nitro", inst, tier) == FeeRateForRow(pm, prod, "D0/Nitro", inst, tier')
    ensures pm == "debit" ==> FeeRateForRow(pm, prod, "D0/Nitro", inst, tier) == 0.0279
  {
  }

  /** Non-Link under any other anticipation spelling: the sub-table of the amount's tier. */
  lemma TieredNonLinkRate(pm: string, prod: string, ant: string, inst: int, v: real)
    requires !IsFree(pm) && !IsFree(prod) && prod != "link" && ant != "D0/Nitro"
    ensures FeeRateForRow(pm, prod, ant, inst, TierForAmount(v))
         == Lookup(D1NonLink[TierForAmount(v)], NonLinkKey(pm, inst))
  {
    TierLabelsAreScheduled(v);
  }

  /** Which rows are priced at all: a row gets a positive rate exactly when neither
      column is a free channel and it is credit in 1 to 12 installments, or debit on
      a product other than Link. Every other combination falls back to 0. */
  lemma PricedExactly(pm: string, prod: string, ant: string, inst: int, v: real)
    ensures FeeRateForRow(pm, prod, ant, inst, TierForAmount(v)) > 0.0
        <==> !IsFree(pm) && !IsFree(prod)
             && ((pm == "credit" && 1 <= inst <= 12) || (pm == "debit" && prod != "link"))
  {
    var key := NonLinkKey(pm, inst);
    LinkTablesShape(inst);
    D0NonLinkShape(key);
    TierFunctionsUseBucket(v);
    D1NonLinkShape(Bucket(v), key);
  }

  /** Under D1 anticipation a larger amount never pays a higher rate on the same key. */
  lemma TieredRateNonIncreasing(key: (string, int), i: nat, j: nat)
    requires i <= j < 4 && ScheduledNonLink(key)
    ensures D1NonLink[FeeTierLabel(j)][key] <= D1NonLink[FeeTierLabel(i)][key]
  {
    D1NonLinkShape(i, key);
    D1NonLinkShape(j, key);
  }

  /** Off Link, D0/Nitro never costs less than D1 anticipation for the same key,
      whatever the tier. */
  lemma NitroCostsAtLeastD1(key: (string, int), i: nat)
    requires i < 4 && ScheduledNonLink(key)
    ensures Lookup(D1Table(FeeTierLabel(i)), key) <= Lookup(D0NonLink, key)
  {
    D1NonLinkShape(i, key);
    D0NonLinkShape(key);
  }

  /** On Link with credit, D0/Nitro never costs less than D1 anticipation. */
  lemma LinkNitroCostsAtLeastD1(inst: int)
    requires 1 <= inst <= 12
    ensures Lookup(LinkD1, inst) <= Lookup(LinkD0, inst)
  {
    LinkTablesShape(inst);
  }

  /** The worked examples of the schedule. */
  lemma ScheduleExamples()
    ensures FeeRateForRow("debit", "pos", "D0/Nitro", 1, TierForAmount(1000.0)) == 0.0279
    ensures FeeRateForRow("credit", "link", "D1Anticipation", 3, TierForAmount(5000.0)) == 0.0701
    ensures FeeRateForRow("credit", "pos", "D1Anticipation", 2, TierForAmount(15000.0)) == 0.0557
    ensures FeeRateForRow("debit", "link", "D0/Nitro", 1, TierForAmount(100.0)) == 0.0
    ensures FeeRateForRow("credit", "tap", "D0/Nitro", 12, TierForAmount(100.0)) == MaxRate
  {
  }
}
