/** The batch fee engine: normalise the transaction columns, tier each row by its
    own amount, resolve its fee rate, compute its revenue, log the Link+debit rows,
    and aggregate revenue by payment method, anticipation method and (credit only)
    installments. */
module FeeEngine {
  import opened Wrappers
  import opened Text
  import opened Tiers
  import opened Rates
  import opened Aggregates
  import Floats

  /** A transaction as read from the operations file. A missing text cell is read
      as the empty string; a missing installments cell is `None`. */
  datatype RawTxn = RawTxn(
    day: string, entity: string, product: string, paymentMethod: string,
    anticipationMethod: string, installments: Option<real>, amount: real)

  /** A transaction after column normalisation. */
  datatype Txn = Txn(
    day: string, entity: string, product: string, paymentMethod: string,
    anticipationMethod: string, installments: int, amount: real)

  /** A row of the detailed output; its revenue column is the amount times the rate. */
  datatype Resolved = Resolved(txn: Txn, monthlyTier: string, feeRate: real)
  {
    function FeeRevenue(): real { txn.amount * feeRate }
  }

  /** payment_method: lowered, stripped, and "bank slip" spelled "bank_slip".
      Computed as strip-then-lower, which `StripLowerCommute` shows is the same. */
  function NormalisePaymentMethod(s: string): (r: string)
    ensures NoUpper(r) && Trimmed(r)
    ensures r != "bank slip"
  {
    var t := Lower(Trim(s));
    if t == "bank slip" then "bank_slip" else t
  }

  /** product: lowered and stripped. */
  function NormaliseProduct(s: string): (r: string)
    ensures NoUpper(r) && Trimmed(r)
  {
    Lower(Trim(s))
  }

  /** anticipation_method: every space removed, then stripped; case is kept. */
  function NormaliseAnticipation(s: string): (r: string)
    ensures NoBlank(r) && Trimmed(r)
    ensures NoBlank(s) && Trimmed(s) ==> r == s
  {
    var w := WithoutSpaces(s);
    assert Trimmed(s) ==> Trim(s) == s by {
      if Trimmed(s) { TrimOfTrimmed(s); }
    }
    Trim(w)
  }

  /** The normalisation of columns done before any rate is computed;
      missing installments become one. */
  function Normalise(raw: RawTxn): (t: Txn)
    ensures raw.installments == None ==> t.installments == 1
    ensures raw.installments.Some? ==> t.installments == Floats.TruncZero(raw.installments.value)
    ensures t.amount == raw.amount && t.day == raw.day && t.entity == raw.entity
  {
    Txn(raw.day, raw.entity, NormaliseProduct(raw.product), NormalisePaymentMethod(raw.paymentMethod),
        NormaliseAnticipation(raw.anticipationMethod),
        match raw.installments case None => 1 case Some(x) => Floats.TruncZero(x),
        raw.amount)
  }

  /** Tier and rate of one normalised row: the row is tiered by its own amount, and
      the rate is a schedule value or 0, so it lies within [0, MaxRate]. */
  function Resolve(t: Txn): (r: Resolved)
    ensures r.txn == t
    ensures r.monthlyTier == TierForAmount(t.amount)
    ensures 0.0 <= r.feeRate <= MaxRate
  {
    var tier := TierForAmount(t.amount);
    Resolved(t, tier, FeeRateForRow(t.paymentMethod, t.product, t.anticipationMethod, t.installments, tier))
  }

  /** A non-negative amount earns between 0 and MaxRate of itself. */
  lemma RevenueBounds(r: Resolved)
    requires 0.0 <= r.feeRate <= MaxRate && 0.0 <= r.txn.amount
    ensures 0.0 <= r.FeeRevenue() <= r.txn.amount * MaxRate
  {
    var a, f := r.txn.amount, r.feeRate;
    var d := MaxRate - f;
    assert r.FeeRevenue() == a * f;
    ProductNonNegative(a, f);
    ProductNonNegative(a, d);
    assert a * MaxRate == a * f + a * d;
  }

  lemma ProductNonNegative(x: real, y: real)
    requires 0.0 <= x && 0.0 <= y
    ensures 0.0 <= x * y
  {
  }

  function ResolveRow(raw: RawTxn): Resolved
  {
    Resolve(Normalise(raw))
  }

  /** The detailed table of a sequence of raw rows, one resolved row per input row. */
  function ResolveRows(raw: seq<RawTxn>): (rows: seq<Resolved>)
    ensures |rows| == |raw|
  {
    if raw == [] then [] else ResolveRows(raw[..|raw| - 1]) + [ResolveRow(raw[|raw| - 1])]
  }

  /** Row i of the detailed table is input row i, normalised and resolved. */
  lemma {:induction false} ResolveRowsAt(raw: seq<RawTxn>, i: nat)
    requires i < |raw|
    ensures ResolveRows(raw)[i] == ResolveRow(raw[i])
  {
    if i < |raw| - 1 {
      ResolveRowsAt(raw[..|raw| - 1], i);
    }
  }

  /** Text already in normal form is left as it is by each column's normalisation. */
  lemma NormalFormsAreFixed(s: string)
    requires NoUpper(s) && Trimmed(s)
    ensures s != "bank slip" ==> NormalisePaymentMethod(s) == s
    ensures NormaliseProduct(s) == s
    ensures NoBlank(s) ==> NormaliseAnticipation(s) == s
  {
    TrimOfTrimmed(s);
    LowerOfLower(s);
  }

  /** Normalising a column twice is normalising it once. */
  lemma NormalisationIdempotent(s: string)
    ensures NormalisePaymentMethod(NormalisePaymentMethod(s)) == NormalisePaymentMethod(s)
    ensures NormaliseProduct(NormaliseProduct(s)) == NormaliseProduct(s)
    ensures NormaliseAnticipation(NormaliseAnticipation(s)) == NormaliseAnticipation(s)
  {
    NormalFormsAreFixed(NormalisePaymentMethod(s));
    NormalFormsAreFixed(NormaliseProduct(s));
    var a := NormaliseAnticipation(s);
    assert a == NormaliseAnticipation(a);
  }

  /** A raw row whose text columns are already normal is only given its default
      installments by `Normalise`. */
  lemma NormaliseOfNormalRow(raw: RawTxn)
    requires NoUpper(raw.product) && Trimmed(raw.product)
    requires NoUpper(raw.paymentMethod) && Trimmed(raw.paymentMethod) && raw.paymentMethod != "bank slip"
    requires NoBlank(raw.anticipationMethod) && Trimmed(raw.anticipationMethod)
    ensures Normalise(raw).product == raw.product
    ensures Normalise(raw).paymentMethod == raw.paymentMethod
    ensures Normalise(raw).anticipationMethod == raw.anticipationMethod
  {
    NormalFormsAreFixed(raw.product);
    NormalFormsAreFixed(raw.paymentMethod);
  }

  lemma WithoutSpacesExample()
    ensures WithoutSpaces("D0 / Nitro") == "D0/Nitro"
  {
    var x, y := "D0 /", " Nitro";
    assert WithoutSpaces(x) == "D0/";
    assert WithoutSpaces(y) == "Nitro";
    assert "D0 / Nitro" == x + y;
    WithoutSpacesAppend(x, y);
    assert "D0/" + "Nitro" == "D0/Nitro";
  }

  lemma TrimExamples()
    ensures Trim(" Bank Slip") == "Bank Slip"
    ensures Trim("POS ") == "POS"
  {
    TrimUnique(" Bank Slip", " ", "Bank Slip", "");
    TrimUnique("POS ", "", "POS", " ");
  }

  lemma LowerExamples()
    ensures Lower("Bank Slip") == "bank slip"
    ensures Lower("POS") == "pos"
  {
  }

  /** Spaces vanish from the anticipation method wherever they are, a capitalised,
      padded "Bank Slip" becomes "bank_slip", and a padded "POS" becomes "pos". */
  lemma NormalisationExamples()
    ensures NormaliseAnticipation("D0 / Nitro") == "D0/Nitro"
    ensures NormalisePaymentMethod(" Bank Slip") == "bank_slip"
    ensures NormaliseProduct("POS ") == "pos"
  {
    WithoutSpacesExample();
    TrimOfTrimmed("D0/Nitro");
    TrimExamples();
    LowerExamples();
  }

  /** Worked example: pos, debit, 1000 under D0/Nitro is priced at 2.79%. */
  lemma NitroDebitExample()
    ensures var r := ResolveRow(RawTxn("2024-01-01", "PJ", "pos", "debit", "D0/Nitro", Some(1.0), 1000.0));
            r.feeRate == 0.0279 && r.FeeRevenue() == 27.9
  {
    NormaliseOfNormalRow(RawTxn("2024-01-01", "PJ", "pos", "debit", "D0/Nitro", Some(1.0), 1000.0));
    ScheduleExamples();
  }

  /** Worked example: Link credit in 3 installments under D1 is priced at 7.01%. */
  lemma LinkCreditExample()
    ensures var r := ResolveRow(RawTxn("2024-01-01", "PJ", "link", "credit", "D1Anticipation", Some(3.0), 5000.0));
            r.feeRate == 0.0701 && r.FeeRevenue() == 350.5
  {
    NormaliseOfNormalRow(RawTxn("2024-01-01", "PJ", "link", "credit", "D1Anticipation", Some(3.0), 5000.0));
    ScheduleExamples();
  }

  /** Worked example: pos credit in 2 installments of 15000 under D1 uses the lowest tier. */
  lemma TieredCreditExample()
    ensures var r := ResolveRow(RawTxn("2024-01-01", "PF", "pos", "credit", "D1Anticipation", Some(2.0), 15000.0));
            r.feeRate == 0.0557 && r.FeeRevenue() == 835.5 && r.monthlyTier == "<=20000"
  {
    NormaliseOfNormalRow(RawTxn("2024-01-01", "PF", "pos", "credit", "D1Anticipation", Some(2.0), 15000.0));
    ScheduleExamples();
  }

  /** Worked example: a Link debit row is priced at 0 and is an anomaly. */
  lemma LinkDebitExample()
    ensures var r := ResolveRow(RawTxn("2024-01-01", "PF", "link", "debit", "D0/Nitro", Some(1.0), 100.0));
            r.feeRate == 0.0 && IsLinkDebit(r)
  {
    NormaliseOfNormalRow(RawTxn("2024-01-01", "PF", "link", "debit", "D0/Nitro", Some(1.0), 100.0));
    ScheduleExamples();
  }

  // ---------------------------------------------------------------------------
  // The detailed table, the anomaly log and the revenue aggregates

  /** The combination the schedule does not define: Link paid by debit. */
  predicate IsLinkDebit(r: Resolved)
  {
    r.txn.product == "link" && r.txn.paymentMethod == "debit"
  }

  /** The rows written to the anomaly log, in input order. */
  function Anomalies(rows: seq<Resolved>): seq<Resolved>
  {
    if rows == [] then []
    else
      var last := rows[|rows| - 1];
      Anomalies(rows[..|rows| - 1]) + (if IsLinkDebit(last) then [last] else [])
  }

  function Revenue(r: Resolved): real { r.FeeRevenue() }

  function PaymentMethodRevenue(rows: seq<Resolved>): seq<(string, real)>
  {
    seq(|rows|, i requires 0 <= i < |rows| => (rows[i].txn.paymentMethod, rows[i].FeeRevenue()))
  }

  function AnticipationRevenue(rows: seq<Resolved>): seq<(string, real)>
  {
    seq(|rows|, i requires 0 <= i < |rows| => (rows[i].txn.anticipationMethod, rows[i].FeeRevenue()))
  }

  /** (installments, revenue) of the credit rows only, in input order. */
  function CreditInstallmentRevenue(rows: seq<Resolved>): seq<(int, real)>
  {
    if rows == [] then []
    else
      var last := rows[|rows| - 1];
      CreditInstallmentRevenue(rows[..|rows| - 1])
        + (if last.txn.paymentMethod == "credit" then [(last.txn.installments, last.FeeRevenue())] else [])
  }

  /** Sort key for "descending by revenue". */
  function RevenueDescending<K>(g: (K, real)): real { -g.1 }

  /** Sort key for "ascending by installments". */
  function InstallmentsAscending(g: (int, real)): real { g.0 as real }

  datatype Summary = Summary(
    anomalies: seq<Resolved>,
    total: real,
    byPaymentMethod: seq<(string, real)>,
    byAnticipation: seq<(string, real)>,
    byInstallments: seq<(int, real)>)

  /** Fills the detailed table row by row: every input row appears, in order,
      with its tier, rate and revenue (Link+debit rows included, at rate 0). */
  method ResolveAll(raw: array<RawTxn>) returns (detail: array<Resolved>)
    ensures fresh(detail)
    ensures detail[..] == ResolveRows(raw[..])
  {
    detail := new Resolved[raw.Length];
    for i := 0 to raw.Length
      invariant detail[..i] == ResolveRows(raw[..i])
    {
      ghost var done := detail[..i];
      var row := ResolveRow(raw[i]);
      detail[i] := row;
      ResolveRowsSnoc(raw[..], i);
      assert detail[..i + 1] == done + [row];
    }
    assert raw[..] == raw[..raw.Length];
    assert detail[..] == detail[..raw.Length];
  }

  /** Resolving one more input row appends its resolved row. */
  lemma ResolveRowsSnoc(raw: seq<RawTxn>, i: nat)
    requires i < |raw|
    ensures ResolveRows(raw[..i + 1]) == ResolveRows(raw[..i]) + [ResolveRow(raw[i])]
  {
    assert raw[..i + 1][..i] == raw[..i];
  }

  /** How each per-row accumulation grows when one row is appended. */
  lemma AppendStep(rows: seq<Resolved>, r: Resolved)
    ensures Anomalies(rows + [r]) == if IsLinkDebit(r) then Anomalies(rows) + [r] else Anomalies(rows)
    ensures SumBy(rows + [r], Revenue) == SumBy(rows, Revenue) + r.FeeRevenue()
    ensures PaymentMethodRevenue(rows + [r]) == PaymentMethodRevenue(rows) + [(r.txn.paymentMethod, r.FeeRevenue())]
    ensures AnticipationRevenue(rows + [r]) == AnticipationRevenue(rows) + [(r.txn.anticipationMethod, r.FeeRevenue())]
    ensures CreditInstallmentRevenue(rows + [r])
         == if r.txn.paymentMethod == "credit"
            then CreditInstallmentRevenue(rows) + [(r.txn.installments, r.FeeRevenue())]
            else CreditInstallmentRevenue(rows)
  {
    assert (rows + [r])[..|rows|] == rows;
    assert Anomalies(rows) + [] == Anomalies(rows);
    assert CreditInstallmentRevenue(rows) + [] == CreditInstallmentRevenue(rows);
    SumByAppend(rows, r, Revenue);
  }

  lemma PrefixStep<T>(s: seq<T>, i: nat)
    requires i < |s|
    ensures s[..i + 1] == s[..i] + [s[i]]
    ensures s[..i + 1][..i] == s[..i]
  {
  }

  /** One pass over the detailed table collects the anomalies and the total; each
      aggregate is a grouped sum, ordered as it is written out. */
  method Summarise(detail: array<Resolved>) returns (s: Summary)
    ensures s.anomalies == Anomalies(detail[..])
    ensures s.total == SumBy(detail[..], Revenue)
    ensures s.byPaymentMethod == SortBy(GroupSum(PaymentMethodRevenue(detail[..])), RevenueDescending)
    ensures s.byAnticipation == SortBy(GroupSum(AnticipationRevenue(detail[..])), RevenueDescending)
    ensures s.byInstallments == SortBy(GroupSum(CreditInstallmentRevenue(detail[..])), InstallmentsAscending)
  {
    var anomalies: seq<Resolved> := [];
    var total := 0.0;
    for i := 0 to detail.Length
      invariant anomalies == Anomalies(detail[..i])
      invariant total == SumBy(detail[..i], Revenue)
    {
      var r := detail[i];
      PrefixStep(detail[..], i);
      AppendStep(detail[..i], r);
      if IsLinkDebit(r) {
        anomalies := anomalies + [r];
      }
      total := total + r.FeeRevenue();
    }
    assert detail[..detail.Length] == detail[..];
    var byPm := GroupAndSum(PaymentMethodRevenue(detail[..]));
    var byAnt := GroupAndSum(AnticipationRevenue(detail[..]));
    var byInst := GroupAndSum(CreditInstallmentRevenue(detail[..]));
    s := Summary(anomalies, total, SortBy(byPm, RevenueDescending), SortBy(byAnt, RevenueDescending),
                 SortBy(byInst, InstallmentsAscending));
  }

  /** The whole run: detailed table, anomaly log and aggregates. */
  method Run(raw: array<RawTxn>) returns (detail: array<Resolved>, s: Summary)
    ensures fresh(detail) && detail[..] == ResolveRows(raw[..])
    ensures s.anomalies == Anomalies(detail[..]) && s.total == SumBy(detail[..], Revenue)
    ensures s.byPaymentMethod == SortBy(GroupSum(PaymentMethodRevenue(detail[..])), RevenueDescending)
    ensures s.byAnticipation == SortBy(GroupSum(AnticipationRevenue(detail[..])), RevenueDescending)
    ensures s.byInstallments == SortBy(GroupSum(CreditInstallmentRevenue(detail[..])), InstallmentsAscending)
  {
    detail := ResolveAll(raw);
    s := Summarise(detail);
  }

  // ---------------------------------------------------------------------------
  // Properties of the outputs

  /** The anomaly log holds exactly the Link+debit rows of the detailed table,
      each with rate and revenue 0. */
  lemma {:induction false} AnomaliesAreLinkDebit(rows: seq<Resolved>)
    requires forall i :: 0 <= i < |rows| ==> rows[i] == Resolve(rows[i].txn)
    ensures forall r :: r in Anomalies(rows) <==> r in rows && IsLinkDebit(r)
    ensures forall r :: r in Anomalies(rows) ==> r.feeRate == 0.0 && r.FeeRevenue() == 0.0
  {
    if rows != [] {
      var init := rows[..|rows| - 1];
      var last := rows[|rows| - 1];
      assert rows == init + [last];
      AnomaliesAreLinkDebit(init);
      if IsLinkDebit(last) {
        LinkWithoutCreditIsZero(last.txn.paymentMethod, last.txn.anticipationMethod,
                                last.txn.installments, last.monthlyTier);
      }
    }
  }

  /** Other zero fallbacks are not logged: a Link credit row in 13 installments,
      or a Link row whose method is "uninformed", earns 0 and is not an anomaly. */
  lemma OtherFallbacksAreSilent(ant: string, amount: real)
    ensures var r := Resolve(Txn("", "", "link", "credit", ant, 13, amount));
            r.feeRate == 0.0 && !IsLinkDebit(r)
    ensures var r := Resolve(Txn("", "", "link", "uninformed", ant, 1, amount));
            r.feeRate == 0.0 && !IsLinkDebit(r)
  {
    LinkCreditRate(ant, 13, TierForAmount(amount), TierForAmount(amount));
  }

  /** The per-payment-method table adds up to the total revenue, has one row per
      payment method, and is ordered by descending revenue. */
  lemma PaymentMethodTable(rows: seq<Resolved>)
    ensures Total(SortBy(GroupSum(PaymentMethodRevenue(rows)), RevenueDescending)) == SumBy(rows, Revenue)
    ensures SortedBy(SortBy(GroupSum(PaymentMethodRevenue(rows)), RevenueDescending), RevenueDescending)
    ensures multiset(SortBy(GroupSum(PaymentMethodRevenue(rows)), RevenueDescending))
         == multiset(GroupSum(PaymentMethodRevenue(rows)))
  {
    var g := GroupSum(PaymentMethodRevenue(rows));
    SortByKeepsSum(g, RevenueDescending, Value);
    GroupSumTotal(PaymentMethodRevenue(rows));
    RevenueColumnSum(rows);
    SortBySorted(g, RevenueDescending);
  }

  /** The revenue column of the (method, revenue) pairs is the revenue column of the rows. */
  lemma {:induction false} RevenueColumnSum(rows: seq<Resolved>)
    ensures Total(PaymentMethodRevenue(rows)) == SumBy(rows, Revenue)
  {
    if rows != [] {
      assert PaymentMethodRevenue(rows)[1..] == PaymentMethodRevenue(rows[1..]);
      RevenueColumnSum(rows[1..]);
    }
  }

  /** The installments table is built from credit rows only: every key is the
      installments of some credit row, its value is the revenue of the credit rows
      with that many installments, and the table is ordered by installments. */
  lemma InstallmentsTable(rows: seq<Resolved>)
    ensures SortedBy(SortBy(GroupSum(CreditInstallmentRevenue(rows)), InstallmentsAscending), InstallmentsAscending)
    ensures forall j :: 0 <= j < |GroupSum(CreditInstallmentRevenue(rows))| ==>
              exists i :: 0 <= i < |rows| && rows[i].txn.paymentMethod == "credit"
                          && rows[i].txn.installments == GroupSum(CreditInstallmentRevenue(rows))[j].0
    ensures Total(GroupSum(CreditInstallmentRevenue(rows))) == SumBy(CreditRows(rows), Revenue)
  {
    var p := CreditInstallmentRevenue(rows);
    var g := GroupSum(p);
    SortBySorted(g, InstallmentsAscending);
    assert Total(g) == SumBy(CreditRows(rows), Revenue) by {
      GroupSumTotal(p);
      CreditPairsTotal(rows);
    }
    forall j | 0 <= j < |g| ensures FromCreditRow(rows, g[j].0) {
      assert g[j].0 in KeysOf(p) by {
        GroupSumMeaning(p);
        assert g[j].0 in KeysOf(g);
      }
      var m :| 0 <= m < |p| && p[m].0 == g[j].0;
      CreditPairsKeys(rows);
    }
  }

  function CreditRows(rows: seq<Resolved>): seq<Resolved>
  {
    if rows == [] then []
    else
      var last := rows[|rows| - 1];
      CreditRows(rows[..|rows| - 1]) + (if last.txn.paymentMethod == "credit" then [last] else [])
  }

  lemma CreditPairsFromCreditRows(rows: seq<Resolved>)
    ensures Total(CreditInstallmentRevenue(rows)) == SumBy(CreditRows(rows), Revenue)
    ensures forall m :: 0 <= m < |CreditInstallmentRevenue(rows)| ==>
              exists i :: 0 <= i < |rows| && rows[i].txn.paymentMethod == "credit"
                          && rows[i].txn.installments == CreditInstallmentRevenue(rows)[m].0
  {
    CreditPairsTotal(rows);
    CreditPairsKeys(rows);
  }

  lemma {:induction false} CreditPairsTotal(rows: seq<Resolved>)
    ensures Total(CreditInstallmentRevenue(rows)) == SumBy(CreditRows(rows), Revenue)
  {
    if rows != [] {
      var init := rows[..|rows| - 1];
      var last := rows[|rows| - 1];
      CreditPairsTotal(init);
      if last.txn.paymentMethod == "credit" {
        SumByAppend(CreditInstallmentRevenue(init), (last.txn.installments, last.FeeRevenue()), Value);
        SumByAppend(CreditRows(init), last, Revenue);
      } else {
        assert CreditInstallmentRevenue(rows) == CreditInstallmentRevenue(init);
        assert CreditRows(rows) == CreditRows(init);
      }
    }
  }

  /** Some credit row of `rows` has `n` installments. */
  predicate FromCreditRow(rows: seq<Resolved>, n: int)
  {
    exists i :: 0 <= i < |rows| && rows[i].txn.paymentMethod == "credit" && rows[i].txn.installments == n
  }

  lemma {:induction false} CreditPairsKeys(rows: seq<Resolved>)
    ensures forall m :: 0 <= m < |CreditInstallmentRevenue(rows)| ==>
              FromCreditRow(rows, CreditInstallmentRevenue(rows)[m].0)
  {
    if rows != [] {
      var init := rows[..|rows| - 1];
      var last := rows[|rows| - 1];
      CreditPairsKeys(init);
      var c0 := CreditInstallmentRevenue(init);
      var c := CreditInstallmentRevenue(rows);
      forall m | 0 <= m < |c| ensures FromCreditRow(rows, c[m].0) {
        if m < |c0| {
          assert c[m] == c0[m];
          assert FromCreditRow(init, c0[m].0);
          var i :| 0 <= i < |init| && init[i].txn.paymentMethod == "credit" && init[i].txn.installments == c0[m].0;
          assert rows[i] == init[i];
        } else {
          assert last.txn.paymentMethod == "credit";
          assert c[m] == (last.txn.installments, last.FeeRevenue());
          assert rows[|rows| - 1] == last;
        }
      }
    }
  }
}
