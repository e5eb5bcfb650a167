/** The KPI tables script (src/build_kpis.py): the cleaning pass, which differs
    from the report's in small ways (no `fillna`, product keeps its spaces,
    only present numeric columns are coerced), and the five `agg_basic` tables. */
module BuildKpis {
  import opened Wrappers
  import opened Text
  import opened Frames
  import opened Aggregates
  import opened Reporting

  /** The columns the cleaning pass (lines 8-25) indexes directly, so a file
      without one of them fails there. */
  const RequiredColumns: set<Column> := {Day, Entity, Product, PaymentMethod, AnticipationMethod}

  /** The columns the KPI tables read: `agg_basic` sums the amount and the count
      (lines 29-30), and KPI 2 groups by installments (line 43), which fails on a
      missing column even when no row is credit. */
  const KpiColumns: set<Column> := {AmountTransacted, QuantityTransactions, Installments}

  /** Lines 18-21, one column each. */
  function PaymentMethodCell(r: Record): Cell { NormCell(r.paymentMethod) }
  function AnticipationCell(r: Record): Cell { NormCell(r.anticipationMethod) }
  function ProductCell(r: Record): Cell { LowerStripCell(r.product) }
  function EntityCell(r: Record): Cell { StripCell(r.entity) }

  /** Lines 18-19 on one row. */
  function RelabelMethods(r: Record): Record
  {
    r.(paymentMethod := PaymentMethodCell(r), anticipationMethod := AnticipationCell(r))
  }

  /** Lines 20-21 on one row. */
  function RelabelNames(r: Record): Record
  {
    r.(product := ProductCell(r), entity := EntityCell(r))
  }

  /** Lines 18-21: payment and anticipation method normalised, product stripped
      and lower-cased, entity stripped; missing cells stay missing. */
  function RelabelKpi(r: Record): Record
  {
    r.(paymentMethod := NormCell(r.paymentMethod),
       anticipationMethod := NormCell(r.anticipationMethod),
       product := LowerStripCell(r.product),
       entity := StripCell(r.entity))
  }

  /** One row as the cleaning pass leaves it, given the file's columns. */
  function CleanRow(parse: string -> Option<real>, columns: set<Column>, r: Record): Record
  {
    PixFix(RelabelKpi(CoerceColumns(parse, r, PresentColumns(NumericColumns, columns))))
  }

  /** The labels after cleaning: payment method normalised, or replaced by the
      anticipation method on pix and bank-slip rows; a missing label stays missing. */
  lemma CleanRowLabels(parse: string -> Option<real>, columns: set<Column>, r: Record)
    ensures var c := CleanRow(parse, columns, r);
            && c.anticipationMethod == NormCell(r.anticipationMethod)
            && c.paymentMethod ==
                 (if NormCell(r.anticipationMethod) in {Text("pix"), Text("bank_slip")}
                  then NormCell(r.anticipationMethod) else NormCell(r.paymentMethod))
            && c.product == LowerStripCell(r.product)
            && c.entity == StripCell(r.entity)
            && (c.product.Text? <==> r.product.Text?) && (c.entity.Text? <==> r.entity.Text?)
  {
    var cs := PresentColumns(NumericColumns, columns);
    PresentColumnsMeaning(NumericColumns, columns);
    CoerceColumnsOnlyNumeric(parse, r, cs);
  }

  /** A numeric column is coerced only when the file has it; otherwise the cell is
      left as it was. */
  lemma CleanRowNumbers(parse: string -> Option<real>, columns: set<Column>, r: Record, col: Column)
    requires col in NumericColumns
    ensures Get(CleanRow(parse, columns, r), col) ==
              if col in columns then ToNumber(parse, Get(r, col)) else Get(r, col)
  {
    var cs := PresentColumns(NumericColumns, columns);
    var x := CoerceColumns(parse, r, cs);
    assert Get(x, col) == if col in columns then ToNumber(parse, Get(r, col)) else Get(r, col) by {
      PresentColumnsMeaning(NumericColumns, columns);
      CoerceColumnsMeaning(parse, r, cs);
    }
    LabelStepsKeepNumbers(x, col);
  }

  /** The relabelling steps leave the numeric columns alone. */
  lemma LabelStepsKeepNumbers(x: Record, col: Column)
    requires col in NumericColumns
    ensures Get(PixFix(RelabelKpi(x)), col) == Get(x, col)
  {
    var y := RelabelKpi(x);
    assert y.amountTransacted == x.amountTransacted && y.quantityTransactions == x.quantityTransactions
      && y.installments == x.installments;
    assert Get(y, col) == Get(x, col);
    PixFixMeaning(y);
  }

  /** Unlike the other labels, an already clean product name keeps its inner
      spaces: it is left exactly as it is. */
  lemma ProductKeepsSpaces(s: string)
    requires Trimmed(s) && NoUpper(s)
    ensures LowerStripCell(Text(s)) == Text(s)
  {
    TrimOfTrimmed(s);
    LowerOfLower(s);
  }

  /** Lines 18-21, in place. */
  method RelabelFrame(df: Frame)
    modifies df, df.rows
    ensures df.rows == old(df.rows)
    ensures df.columns == old(df.columns) + {Entity, Product, PaymentMethod, AnticipationMethod}
    ensures forall i :: 0 <= i < df.rows.Length ==> df.rows[i] == RelabelKpi(old(df.rows[i]))
  {
    ghost var s0 := df.rows[..];
    RelabelMethodsFrame(df);
    ghost var s1 := df.rows[..];
    assert forall i :: 0 <= i < |s0| ==> s1[i] == RelabelMethods(s0[i]);
    RelabelNamesFrame(df);
    assert forall i :: 0 <= i < |s0| ==> df.rows[i] == RelabelNames(s1[i]);
  }

  /** Lines 18-19, in place. */
  method RelabelMethodsFrame(df: Frame)
    modifies df, df.rows
    ensures df.rows == old(df.rows)
    ensures df.columns == old(df.columns) + {PaymentMethod, AnticipationMethod}
    ensures forall i :: 0 <= i < df.rows.Length ==> df.rows[i] == RelabelMethods(old(df.rows[i]))
  {
    df.Assign(PaymentMethod, PaymentMethodCell);
    df.Assign(AnticipationMethod, AnticipationCell);
  }

  /** Lines 20-21, in place. */
  method RelabelNamesFrame(df: Frame)
    modifies df, df.rows
    ensures df.rows == old(df.rows)
    ensures df.columns == old(df.columns) + {Product, Entity}
    ensures forall i :: 0 <= i < df.rows.Length ==> df.rows[i] == RelabelNames(old(df.rows[i]))
  {
    df.Assign(Product, ProductCell);
    df.Assign(Entity, EntityCell);
  }

  /** The cleaning pass, in place. A file without one of the indexed columns
      stops the script (KeyError) and the frame is left as it was. */
  method Clean(df: Frame, parse: string -> Option<real>) returns (ok: bool)
    modifies df, df.rows
    ensures df.rows == old(df.rows) && df.columns == old(df.columns)
    ensures ok <==> RequiredColumns <= old(df.columns)
    ensures ok ==> forall i :: 0 <= i < df.rows.Length ==> df.rows[i] == CleanRow(parse, old(df.columns), old(df.rows[i]))
    ensures !ok ==> df.rows[..] == old(df.rows[..])
  {
    if !(RequiredColumns <= df.columns) {
      return false;
    }
    ghost var s0 := df.rows[..];
    ghost var cols := df.columns;
    CoercePresent(df, parse, NumericColumns);
    ghost var s1 := df.rows[..];
    assert forall i :: 0 <= i < |s0| ==> s1[i] == CoerceColumns(parse, s0[i], PresentColumns(NumericColumns, cols));
    RelabelFrame(df);
    ghost var s2 := df.rows[..];
    assert forall i :: 0 <= i < |s0| ==> s2[i] == RelabelKpi(s1[i]);
    FixFreeChannels(df);
    assert forall i :: 0 <= i < |s0| ==> df.rows[i] == PixFix(s2[i]);
    return true;
  }

  function EntityProductMethod(r: Record): (Cell, Cell, Cell) { (r.entity, r.product, r.paymentMethod) }

  /** KPI 1: `agg_basic` per (entity, product, payment method), missing keys kept. */
  function TpvByEntityProductMethod(rows: seq<Record>): seq<((Cell, Cell, Cell), Basic)>
  {
    GroupBasic(rows, EntityProductMethod)
  }

  function InstallmentsKey(g: (Cell, Basic)): real { Num(g.0) }

  /** KPI 2: `agg_basic` per installment count over the credit rows, sorted by
      installments. */
  function CreditInstallmentsKpi(rows: seq<Record>): seq<(Cell, Basic)>
  {
    SortBy(CreditInstallments(rows), InstallmentsKey)
  }

  /** KPI 2 is in ascending installment order, holds the same groups as the
      credit breakdown, adds up to the credit amount, and ignores non-credit rows. */
  lemma CreditInstallmentsKpiMeaning(rows: seq<Record>, r: Record)
    ensures SortedBy(CreditInstallmentsKpi(rows), InstallmentsKey)
    ensures multiset(CreditInstallmentsKpi(rows)) == multiset(CreditInstallments(rows))
    ensures SumBy(CreditInstallmentsKpi(rows), GroupTpv) == SumBy(Where(rows, IsCredit), Tpv)
    ensures !IsCredit(r) ==> CreditInstallmentsKpi(rows + [r]) == CreditInstallmentsKpi(rows)
  {
    SortBySorted(CreditInstallments(rows), InstallmentsKey);
    SortByKeepsSum(CreditInstallments(rows), InstallmentsKey, GroupTpv);
    CreditInstallmentsMeaning(rows);
    if !IsCredit(r) {
      CreditInstallmentsIgnoreOthers(rows, r);
    }
  }

  /** KPI 3: produced only when the file has a `price_tier` column; then one
      `agg_basic` row per tier, adding up to the whole amount. */
  function PriceTierKpi(rows: seq<Record>, columns: set<Column>): (k: Option<seq<(Cell, Basic)>>)
    ensures k.Some? <==> PriceTier in columns
    ensures k.Some? ==> SumBy(k.value, GroupTpv) == SumBy(rows, Tpv)
  {
    if PriceTier in columns then
      GroupBasicMeaning(rows, PriceTierOf);
      Some(GroupBasic(rows, PriceTierOf))
    else None
  }

  const WeekdayNames: seq<string> := ["Monday", "Tuesday", "Wednesday", "Thursday", "Friday", "Saturday", "Sunday"]

  /** Position of a weekday in the categorical order; anything else (NaN
      included) ranks after Sunday, where `sort_values` puts NaN. */
  function WeekdayRank(c: Cell): (n: nat)
    ensures n <= 7
    ensures n < 7 <==> c.Text? && c.s in WeekdayNames
    ensures n < 7 ==> WeekdayNames[n] == c.s
  {
    if c.Text? && c.s in WeekdayNames then IndexOf(WeekdayNames, c.s) else 7
  }

  function IndexOf(s: seq<string>, x: string): (i: nat)
    requires x in s
    ensures i < |s| && s[i] == x
  {
    if s[0] == x then 0 else 1 + IndexOf(s[1..], x)
  }

  function WeekdayKey(g: (Cell, Basic)): real { WeekdayRank(g.0) as real }

  /** KPI 4: `agg_basic` per weekday, Monday to Sunday. */
  function WeekdayKpi(rows: seq<Record>): seq<(Cell, Basic)>
  {
    SortBy(GroupBasic(rows, WeekdayOf), WeekdayKey)
  }

  /** KPI 4 lists the weekdays in calendar order, after them any unrecognised or
      missing weekday, and its amounts add up to the whole. */
  lemma WeekdayKpiOrdered(rows: seq<Record>)
    ensures forall i, j :: 0 <= i < j < |WeekdayKpi(rows)| ==>
              WeekdayRank(WeekdayKpi(rows)[i].0) <= WeekdayRank(WeekdayKpi(rows)[j].0)
    ensures forall i, j :: 0 <= i < j < |WeekdayKpi(rows)| && WeekdayRank(WeekdayKpi(rows)[i].0) == 7 ==>
              WeekdayRank(WeekdayKpi(rows)[j].0) == 7
    ensures SumBy(WeekdayKpi(rows), GroupTpv) == SumBy(rows, Tpv)
  {
    var g := GroupBasic(rows, WeekdayOf);
    SortBySorted(g, WeekdayKey);
    SortByKeepsSum(g, WeekdayKey, GroupTpv);
    GroupBasicMeaning(rows, WeekdayOf);
    var w := WeekdayKpi(rows);
    forall i, j | 0 <= i < j < |w| ensures WeekdayRank(w[i].0) <= WeekdayRank(w[j].0) {
      assert WeekdayKey(w[i]) <= WeekdayKey(w[j]);
    }
  }

  function EntityAnticipation(r: Record): (Cell, Cell) { (r.entity, r.anticipationMethod) }

  /** KPI 5: `agg_basic` per (entity, anticipation method). */
  function AnticipationByEntity(rows: seq<Record>): seq<((Cell, Cell), Basic)>
  {
    GroupBasic(rows, EntityAnticipation)
  }

  /** The five tables the script writes; KPI 3 only when the file has a tier column. */
  datatype Kpis = Kpis(
    byEntityProductMethod: seq<((Cell, Cell, Cell), Basic)>,
    creditInstallments: seq<(Cell, Basic)>,
    priceTier: Option<seq<(Cell, Basic)>>,
    weekday: seq<(Cell, Basic)>,
    anticipationByEntity: seq<((Cell, Cell), Basic)>)

  /** Lines 37-61 on the cleaned rows. */
  function KpisOf(rows: seq<Record>, columns: set<Column>): Kpis
  {
    Kpis(TpvByEntityProductMethod(rows), CreditInstallmentsKpi(rows), PriceTierKpi(rows, columns),
         WeekdayKpi(rows), AnticipationByEntity(rows))
  }

  /** Every table but the credit one adds up to the whole amount, the credit one
      to the credit amount in ascending installment order, and the tier table
      exists exactly when the file has the column. */
  lemma KpisMeaning(rows: seq<Record>, columns: set<Column>)
    ensures var k := KpisOf(rows, columns);
            && SumBy(k.byEntityProductMethod, GroupTpv) == SumBy(rows, Tpv)
            && SortedBy(k.creditInstallments, InstallmentsKey)
            && SumBy(k.creditInstallments, GroupTpv) == SumBy(Where(rows, IsCredit), Tpv)
            && (k.priceTier.Some? <==> PriceTier in columns)
            && (k.priceTier.Some? ==> SumBy(k.priceTier.value, GroupTpv) == SumBy(rows, Tpv))
            && SumBy(k.weekday, GroupTpv) == SumBy(rows, Tpv)
            && SumBy(k.anticipationByEntity, GroupTpv) == SumBy(rows, Tpv)
  {
    GroupBasicMeaning(rows, EntityProductMethod);
    SortBySorted(CreditInstallments(rows), InstallmentsKey);
    SortByKeepsSum(CreditInstallments(rows), InstallmentsKey, GroupTpv);
    CreditInstallmentsMeaning(rows);
    WeekdayKpiOrdered(rows);
    GroupBasicMeaning(rows, EntityAnticipation);
  }

  /** The whole script on a frame: clean it in place, then build the five tables.
      A file without a column the cleaning pass or the tables read stops it
      (KeyError) and the frame is left as it was. */
  method Run(df: Frame, parse: string -> Option<real>) returns (ok: bool, k: Option<Kpis>)
    modifies df, df.rows
    ensures df.rows == old(df.rows) && df.columns == old(df.columns)
    ensures ok <==> RequiredColumns + KpiColumns <= old(df.columns)
    ensures ok <==> k.Some?
    ensures ok ==> forall i :: 0 <= i < df.rows.Length ==> df.rows[i] == CleanRow(parse, old(df.columns), old(df.rows[i]))
    ensures ok ==> k.value == KpisOf(df.rows[..], old(df.columns))
    ensures !ok ==> df.rows[..] == old(df.rows[..])
  {
    if !(KpiColumns <= df.columns) {
      return false, None;
    }
    ok := Clean(df, parse);
    if ok {
      k := Some(KpisOf(df.rows[..], df.columns));
    } else {
      k := None;
    }
  }
}
