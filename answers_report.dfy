/** The cleaning pass and the aggregations of the question-answering report
    (src/answers_report.py): numeric coercion, label normalisation, the
    pix/bank_slip relabelling, the monthly tier, the per-row average ticket,
    payment-method shares and the credit-only installment breakdown. */
module AnswersReport {
  import opened Wrappers
  import opened Text
  import opened Tiers
  import opened Frames
  import opened Floats
  import opened Aggregates
  import opened Reporting

  /** The columns a file must have, or the script fails: the ones it indexes
      directly, and the three numeric ones, which line 13 reads through
      `df.get(c, 0)`: on a missing column that is the int 0, which `to_numeric`
      hands back unchanged and which has no `fillna`. */
  const RequiredColumns: set<Column> :=
    {Day, Entity, Product, PaymentMethod, AnticipationMethod, AmountTransacted, QuantityTransactions, Installments}

  /** The columns the cleaning pass writes (besides the date columns, left out). */
  const WrittenColumns: set<Column> := {AmountTransacted, QuantityTransactions, Installments, MonthlyTier, AvgTicketRow}

  /** Entity stripped; product, payment and anticipation method normalised
      (`fillna("")` first). */
  function Relabel(r: Record): Record
  {
    r.(entity := StripCell(FillBlank(r.entity)),
       product := NormCell(FillBlank(r.product)),
       paymentMethod := NormCell(FillBlank(r.paymentMethod)),
       anticipationMethod := NormCell(FillBlank(r.anticipationMethod)))
  }

  function MonthlyTierOf(r: Record): Cell { Text(ReportTier(Tpv(r))) }

  /** `np.where(q > 0, amount / q, 0.0)` on one row. */
  function AvgTicketRowOf(r: Record): Cell
  {
    var q := Transactions(r);
    Number(if q > 0.0 then Tpv(r) / q else 0.0)
  }

  /** The row average ticket times the count gives back the amount when the count
      is positive; a zero or negative count gives 0. */
  lemma AvgTicketRowGuard(r: Record)
    ensures AvgTicketRowOf(r).Number?
    ensures Transactions(r) > 0.0 ==> AvgTicketRowOf(r).x * Transactions(r) == Tpv(r)
    ensures Transactions(r) <= 0.0 ==> AvgTicketRowOf(r).x == 0.0
  {
  }

  /** The two derived columns, `monthly_tier` and `avg_ticket_row`. */
  function Derive(r: Record): Record
  {
    r.(monthlyTier := MonthlyTierOf(r), avgTicketRow := AvgTicketRowOf(r))
  }

  /** One row as the cleaning pass leaves it. */
  function CleanRow(parse: string -> Option<real>, r: Record): Record
  {
    Derive(PixFix(Relabel(CoerceColumns(parse, r, NumericColumns))))
  }

  /** The label columns after cleaning: entity only stripped, the other three
      normalised (missing first read as ""), and the payment method replaced by
      the anticipation method on pix and bank-slip rows. */
  lemma CleanRowLabels(parse: string -> Option<real>, r: Record)
    ensures var c := CleanRow(parse, r);
            && c.entity == StripCell(FillBlank(r.entity))
            && c.product == NormCell(FillBlank(r.product))
            && c.anticipationMethod == NormCell(FillBlank(r.anticipationMethod))
            && c.paymentMethod ==
                 (var ant := NormCell(FillBlank(r.anticipationMethod));
                  if ant == Text("pix") || ant == Text("bank_slip") then ant
                  else NormCell(FillBlank(r.paymentMethod)))
  {
    CoercedRow(parse, r);
  }

  /** The numeric columns after cleaning: numbers, 0 where the value was missing
      or unreadable, the number itself otherwise; the columns the pass does not
      write keep their cells. */
  lemma CleanRowNumbers(parse: string -> Option<real>, r: Record)
    ensures var c := CleanRow(parse, r);
            && c.amountTransacted == ToNumber(parse, r.amountTransacted)
            && c.quantityTransactions == ToNumber(parse, r.quantityTransactions)
            && c.installments == ToNumber(parse, r.installments)
            && c.day == r.day && c.quantityOfMerchants == r.quantityOfMerchants && c.priceTier == r.priceTier
            && c.feeRate == r.feeRate && c.feeRevenue == r.feeRevenue
            && c.weekday == r.weekday && c.effectiveFeeRate == r.effectiveFeeRate
  {
    CoercedRow(parse, r);
  }

  /** The tier and the row average ticket of a cleaned row are those of its own
      (coerced) amount and count. */
  lemma CleanRowDerived(parse: string -> Option<real>, r: Record)
    ensures var c := CleanRow(parse, r);
            && c.monthlyTier == Text(ReportTier(Tpv(c)))
            && c.avgTicketRow == AvgTicketRowOf(c)
  {
    var z := PixFix(Relabel(CoerceColumns(parse, r, NumericColumns)));
    assert Tpv(Derive(z)) == Tpv(z) && Transactions(Derive(z)) == Transactions(z);
  }

  /** The monthly tier of a cleaned row is the report label of its amount's
      bucket, the same bucket the fee engine puts that amount in. */
  lemma CleanRowTier(parse: string -> Option<real>, r: Record)
    ensures var c := CleanRow(parse, r);
            && c.monthlyTier == Text(ReportTierLabel(Bucket(Tpv(c))))
            && LabelIndex(ReportTierLabels, c.monthlyTier.s) == LabelIndex(FeeTierLabels, TierForAmount(Tpv(c)))
  {
    var c := CleanRow(parse, r);
    CleanRowDerived(parse, r);
    TierFunctionsUseBucket(Tpv(c));
    TiersAgree(Tpv(c), Tpv(c));
  }

  /** A row whose numeric columns already hold numbers is left alone by the coercion. */
  lemma CoerceOfNumbers(parse: string -> Option<real>, c: Record)
    requires c.amountTransacted.Number? && c.quantityTransactions.Number? && c.installments.Number?
    ensures CoerceColumns(parse, c, NumericColumns) == c
  {
    CoercedRow(parse, c);
  }

  /** A normalised label, or one that has been through `NormCell` already. */
  predicate NormalLabel(c: Cell) { c.Text? && NormCell(FillBlank(c)) == c }

  lemma NormalLabelOf(c: Cell)
    requires !c.Number?
    ensures NormalLabel(NormCell(FillBlank(c)))
  {
    NormCellIdempotent(FillBlank(c));
  }

  /** A row whose labels are already clean is left alone by the relabelling. */
  lemma RelabelOfClean(c: Record)
    requires c.entity.Text? && Trimmed(c.entity.s)
    requires NormalLabel(c.product) && NormalLabel(c.paymentMethod) && NormalLabel(c.anticipationMethod)
    ensures Relabel(c) == c
  {
    TrimOfTrimmed(c.entity.s);
  }

  /** Cleaning a cleaned row changes nothing, as long as the label columns were
      read as text or missing (the file is read with `dtype=str`). */
  lemma CleanRowIdempotent(parse: string -> Option<real>, r: Record)
    requires !r.entity.Number? && !r.product.Number? && !r.paymentMethod.Number? && !r.anticipationMethod.Number?
    ensures CleanRow(parse, CleanRow(parse, r)) == CleanRow(parse, r)
  {
    var c := CleanRow(parse, r);
    assert CoerceColumns(parse, c, NumericColumns) == c by {
      CleanRowNumbers(parse, r);
      CoerceOfNumbers(parse, c);
    }
    assert Relabel(c) == c by {
      CleanRowLabels(parse, r);
      NormalLabelOf(r.product);
      NormalLabelOf(r.paymentMethod);
      NormalLabelOf(r.anticipationMethod);
      RelabelOfClean(c);
    }
    assert PixFix(c) == c by {
      CleanRowLabels(parse, r);
    }
    assert Derive(c) == c by {
      CleanRowDerived(parse, r);
    }
  }

  /** `pm_over` with its `share` column: TPV per payment method and its share of
      the total. */
  function PaymentMethodShares(rows: seq<Record>): seq<(Cell, real, Float)>
  {
    Shares(GroupSum(Pairs(rows, PaymentMethodOf, Tpv)))
  }

  /** One row per payment method, holding that method's TPV; when the total TPV
      is not zero, the shares are finite and add up to one. */
  lemma PaymentMethodSharesMeaning(rows: seq<Record>)
    ensures var s := PaymentMethodShares(rows);
            && (forall i, j :: 0 <= i < j < |s| ==> s[i].0 != s[j].0)
            && (forall r :: r in rows ==> exists j :: 0 <= j < |s| && s[j].0 == PaymentMethodOf(r))
            && (forall j :: 0 <= j < |s| ==> s[j].1 == SumBy(Where(rows, HasKey(PaymentMethodOf, s[j].0)), Tpv))
    ensures SumBy(rows, Tpv) != 0.0 ==>
              (forall j :: 0 <= j < |PaymentMethodShares(rows)| ==> PaymentMethodShares(rows)[j].2.Finite?)
              && SumBy(PaymentMethodShares(rows), ShareOf) == 1.0
  {
    var p := Pairs(rows, PaymentMethodOf, Tpv);
    var g := GroupSum(p);
    var s := PaymentMethodShares(rows);
    GroupSumMeaning(p);
    forall r | r in rows ensures exists j :: 0 <= j < |s| && s[j].0 == PaymentMethodOf(r) {
      var i :| 0 <= i < |rows| && rows[i] == r;
      assert KeysOf(p)[i] == PaymentMethodOf(r);
      assert PaymentMethodOf(r) in KeysOf(g);
      var j :| 0 <= j < |g| && KeysOf(g)[j] == PaymentMethodOf(r);
      assert s[j].0 == g[j].0;
    }
    forall j | 0 <= j < |s| ensures s[j].1 == SumBy(Where(rows, HasKey(PaymentMethodOf, s[j].0)), Tpv) {
      SumIfIsGroupSum(rows, PaymentMethodOf, Tpv, g[j].0);
    }
    GroupSumTotal(p);
    PairsTotal(rows, PaymentMethodOf, Tpv);
    if SumBy(rows, Tpv) != 0.0 {
      SharesSumToOne(g);
    }
  }

  /** `for c in num_cols: df[c] = ...`: the numeric columns coerced in place.
      Each of them must be present (see `RequiredColumns`). */
  method CoerceNumeric(df: Frame, parse: string -> Option<real>)
    modifies df, df.rows
    requires {AmountTransacted, QuantityTransactions, Installments} <= df.columns
    ensures df.rows == old(df.rows)
    ensures df.columns == old(df.columns)
    ensures forall i :: 0 <= i < df.rows.Length ==>
              df.rows[i] == CoerceColumns(parse, old(df.rows[i]), NumericColumns)
  {
    for k := 0 to |NumericColumns|
      invariant df.rows == old(df.rows)
      invariant df.columns == old(df.columns)
      invariant forall i :: 0 <= i < df.rows.Length ==>
                  df.rows[i] == CoerceColumns(parse, old(df.rows[i]), NumericColumns[..k])
    {
      var c := NumericColumns[k];
      assert NumericColumns[..k + 1][..k] == NumericColumns[..k];
      df.Assign(c, r => ToNumber(parse, Get(r, c)));
    }
    assert NumericColumns[..|NumericColumns|] == NumericColumns;
  }

  /** Line 19: the stripped entity. */
  function EntityCell(r: Record): Cell { StripCell(FillBlank(r.entity)) }

  /** Lines 20-22: the normalised product, payment method and anticipation method. */
  function ProductCell(r: Record): Cell { NormCell(FillBlank(r.product)) }
  function PaymentMethodCell(r: Record): Cell { NormCell(FillBlank(r.paymentMethod)) }
  function AnticipationCell(r: Record): Cell { NormCell(FillBlank(r.anticipationMethod)) }

  /** Lines 19-20 on one row. */
  function RelabelNames(r: Record): Record
  {
    r.(entity := EntityCell(r), product := ProductCell(r))
  }

  /** Lines 21-22 on one row. */
  function RelabelMethods(r: Record): Record
  {
    r.(paymentMethod := PaymentMethodCell(r), anticipationMethod := AnticipationCell(r))
  }

  /** Lines 19-20, in place. */
  method RelabelNamesFrame(df: Frame)
    modifies df, df.rows
    ensures df.rows == old(df.rows)
    ensures df.columns == old(df.columns) + {Entity, Product}
    ensures forall i :: 0 <= i < df.rows.Length ==> df.rows[i] == RelabelNames(old(df.rows[i]))
  {
    df.Assign(Entity, EntityCell);
    df.Assign(Product, ProductCell);
  }

  /** Lines 21-22, in place. */
  method RelabelMethodsFrame(df: Frame)
    modifies df, df.rows
    ensures df.rows == old(df.rows)
    ensures df.columns == old(df.columns) + {PaymentMethod, AnticipationMethod}
    ensures forall i :: 0 <= i < df.rows.Length ==> df.rows[i] == RelabelMethods(old(df.rows[i]))
  {
    df.Assign(PaymentMethod, PaymentMethodCell);
    df.Assign(AnticipationMethod, AnticipationCell);
  }

  /** Lines 19-22 of the script: the four label columns rewritten in place. */
  method RelabelFrame(df: Frame)
    modifies df, df.rows
    ensures df.rows == old(df.rows)
    ensures df.columns == old(df.columns) + {Entity, Product, PaymentMethod, AnticipationMethod}
    ensures forall i :: 0 <= i < df.rows.Length ==> df.rows[i] == Relabel(old(df.rows[i]))
  {
    ghost var s0 := df.rows[..];
    RelabelNamesFrame(df);
    ghost var s1 := df.rows[..];
    assert forall i :: 0 <= i < |s0| ==> s1[i] == RelabelNames(s0[i]);
    RelabelMethodsFrame(df);
    assert forall i :: 0 <= i < |s0| ==> df.rows[i] == RelabelMethods(s1[i]);
  }

  /** `monthly_tier` and `avg_ticket_row` added in place. */
  method DeriveFrame(df: Frame)
    modifies df, df.rows
    ensures df.rows == old(df.rows)
    ensures df.columns == old(df.columns) + {MonthlyTier, AvgTicketRow}
    ensures forall i :: 0 <= i < df.rows.Length ==> df.rows[i] == Derive(old(df.rows[i]))
  {
    df.Assign(MonthlyTier, MonthlyTierOf);
    df.Assign(AvgTicketRow, AvgTicketRowOf);
  }

  /** The cleaning pass, column by column, in place. When a column the script
      indexes is absent it stops (the script fails with a KeyError) and the frame
      is left as it was. */
  method Clean(df: Frame, parse: string -> Option<real>) returns (ok: bool)
    modifies df, df.rows
    ensures df.rows == old(df.rows)
    ensures ok <==> RequiredColumns <= old(df.columns)
    ensures ok ==> df.columns == old(df.columns) + WrittenColumns
    ensures ok ==> forall i :: 0 <= i < df.rows.Length ==> df.rows[i] == CleanRow(parse, old(df.rows[i]))
    ensures !ok ==> df.columns == old(df.columns) && df.rows[..] == old(df.rows[..])
  {
    if !(RequiredColumns <= df.columns) {
      return false;
    }
    CleanFrame(df, parse);
    return true;
  }

  /** Lines 11-38 on a frame that has every indexed column. */
  method CleanFrame(df: Frame, parse: string -> Option<real>)
    modifies df, df.rows
    requires RequiredColumns <= df.columns
    ensures df.rows == old(df.rows)
    ensures df.columns == old(df.columns) + WrittenColumns
    ensures forall i :: 0 <= i < df.rows.Length ==> df.rows[i] == CleanRow(parse, old(df.rows[i]))
  {
    ghost var s0 := df.rows[..];
    ghost var cols := df.columns;
    CoerceNumeric(df, parse);
    ghost var s1 := df.rows[..];
    RelabelFrame(df);
    ghost var s2 := df.rows[..];
    FixFreeChannels(df);
    ghost var s3 := df.rows[..];
    DeriveFrame(df);
    ghost var s4 := df.rows[..];
    assert df.columns == cols + WrittenColumns by {
      assert df.columns == cols + {Entity, Product, PaymentMethod, AnticipationMethod}
        + {MonthlyTier, AvgTicketRow};
    }
    forall i | 0 <= i < |s0| ensures s4[i] == CleanRow(parse, s0[i]) {
      assert s1[i] == CoerceColumns(parse, s0[i], NumericColumns);
      assert s2[i] == Relabel(s1[i]);
      assert s3[i] == PixFix(s2[i]);
      assert s4[i] == Derive(s3[i]);
    }
  }
}
