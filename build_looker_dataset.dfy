/** The dashboard extract (src/build_looker_dataset.py): the detailed fee file is
    patched in place (an "uninformed" payment method takes the anticipation method,
    installments default to 1 and become integers, money columns are coerced), an
    effective take rate is derived, and ten columns are kept, in a fixed order. */
module BuildLookerDataset {
  import opened Wrappers
  import opened Frames
  import opened Floats
  import opened Reporting

  /** Line 21: the money columns coerced when the file has them. */
  const MoneyColumns: seq<Column> := [AmountTransacted, FeeRevenue, FeeRate]

  /** Lines 29-30: the columns written out, in this order. */
  const OutputColumns: seq<Column> :=
    [Day, Entity, Product, PaymentMethod, AnticipationMethod,
     Installments, MonthlyTier, AmountTransacted, FeeRevenue, EffectiveFeeRate]

  /** The columns the file itself must have: all output columns but the derived one. */
  const Needed: set<Column> :=
    {Day, Entity, Product, PaymentMethod, AnticipationMethod,
     Installments, MonthlyTier, AmountTransacted, FeeRevenue}

  /** One output line: the ten kept cells. */
  datatype LookerRow = LookerRow(
    day: Cell, entity: Cell, product: Cell, paymentMethod: Cell, anticipationMethod: Cell,
    installments: Cell, monthlyTier: Cell, amountTransacted: Cell, feeRevenue: Cell,
    effectiveFeeRate: Cell)

  /** The cells of an output line, left to right. */
  function Cells(l: LookerRow): seq<Cell>
  {
    [l.day, l.entity, l.product, l.paymentMethod, l.anticipationMethod,
     l.installments, l.monthlyTier, l.amountTransacted, l.feeRevenue, l.effectiveFeeRate]
  }

  /** Line 31: `df[cols]` on one row. */
  function Project(r: Record): LookerRow
  {
    LookerRow(r.day, r.entity, r.product, r.paymentMethod, r.anticipationMethod,
              r.installments, r.monthlyTier, r.amountTransacted, r.feeRevenue, r.effectiveFeeRate)
  }

  /** An output line holds exactly the listed columns of its row, in the listed order. */
  lemma ProjectMeaning(r: Record)
    ensures |Cells(Project(r))| == |OutputColumns|
    ensures forall k :: 0 <= k < |OutputColumns| ==> Cells(Project(r))[k] == Get(r, OutputColumns[k])
  {
  }

  /** Line 12: the payment method is exactly "uninformed". */
  function Uninformed(r: Record): bool { r.paymentMethod == Text("uninformed") }

  /** Line 13 on one row. */
  function FixUninformed(r: Record): Record
  {
    if Uninformed(r) then r.(paymentMethod := r.anticipationMethod) else r
  }

  /** An "uninformed" payment method takes the anticipation method, any other value
      is kept, no other cell changes, and a second pass changes nothing. */
  lemma FixUninformedMeaning(r: Record)
    ensures FixUninformed(r).paymentMethod == if Uninformed(r) then r.anticipationMethod else r.paymentMethod
    ensures forall c :: c != PaymentMethod ==> Get(FixUninformed(r), c) == Get(r, c)
    ensures FixUninformed(FixUninformed(r)) == FixUninformed(r)
  {
  }

  /** Line 20 on one cell: `fillna(1).astype(int)`. A missing value becomes 1, a
      number its integer part; a text is read as an integer literal by `parseInt`
      and one that is not stops the script (None). */
  function IntCell(parseInt: string -> Option<int>, c: Cell): (d: Option<Cell>)
    ensures c == Missing ==> d == Some(Number(1.0))
    ensures c.Number? ==> d == Some(Number(TruncZero(c.x) as real))
    ensures c.Text? ==> (d.Some? <==> parseInt(c.s).Some?)
    ensures d.Some? ==> d.value.Number? && d.value.x == d.value.x.Floor as real
  {
    match c
    case Missing => Some(Number(1.0))
    case Number(x) => Some(Number(TruncZero(x) as real))
    case Text(s) =>
      match parseInt(s)
      case None => None
      case Some(n) => Some(Number(n as real))
  }

  /** Every row's installments convert, so line 20 does not fail. */
  predicate AllConvert(parseInt: string -> Option<int>, rows: seq<Record>)
  {
    forall i :: 0 <= i < |rows| ==> IntCell(parseInt, rows[i].installments).Some?
  }

  /** Line 26 as written: `(fee / amount).fillna(0.0).replace([inf], 0.0)`. */
  function EffectiveRateAsWritten(fee: real, amount: real): Float
  {
    ReplacePosInf(FillNaN(Div(fee, amount), 0.0), 0.0)
  }

  /** The take rate line 26 means to compute: fee over amount, and 0 whenever the
      amount is 0. */
  function EffectiveRate(fee: real, amount: real): (q: real)
    ensures amount != 0.0 ==> q * amount == fee
    ensures amount == 0.0 ==> q == 0.0
  {
    if amount != 0.0 then fee / amount else 0.0
  }

  /** Line 26 replaces +inf but not -inf: a negative fee over a zero amount stays
      -inf. On every other input it gives the intended rate. */
  lemma EffectiveRateAsWrittenKeepsNegInf(fee: real, amount: real)
    ensures EffectiveRateAsWritten(fee, amount) == NegInf <==> amount == 0.0 && fee < 0.0
    ensures EffectiveRateAsWritten(fee, amount) != NegInf ==>
              EffectiveRateAsWritten(fee, amount) == Finite(EffectiveRate(fee, amount))
    ensures EffectiveRateAsWritten(-1.0, 0.0) == NegInf
  {
  }

  /** Line 20 on one row: the installments cell converted (kept as it is when it
      does not convert, which only happens once the script has stopped). */
  function ConvertRow(parseInt: string -> Option<int>, r: Record): Record
  {
    r.(installments := IntCell(parseInt, r.installments).GetOr(r.installments))
  }

  /** Line 26 on one row. */
  function WithRate(r: Record): Record
  {
    r.(effectiveFeeRate := Number(EffectiveRate(Num(r.feeRevenue), Num(r.amountTransacted))))
  }

  /** One row as the script leaves it, given the file's columns. The payment-method
      fix and the installments step run only when their columns are there. */
  function BuildRow(parse: string -> Option<real>, parseInt: string -> Option<int>,
                    columns: set<Column>, r: Record): Record
  {
    var r1 := if PaymentMethod in columns && AnticipationMethod in columns then FixUninformed(r) else r;
    var r2 := if Installments in columns then ConvertRow(parseInt, r1) else r1;
    WithRate(CoerceColumns(parse, r2, PresentColumns(MoneyColumns, columns)))
  }

  /** What one output line holds when the file has every needed column: the
      patched payment method, integer installments, coerced money columns and the
      take rate, which times the amount gives back the fee (0 on a zero amount);
      the other kept cells are the file's own. */
  lemma LookerRowMeaning(parse: string -> Option<real>, parseInt: string -> Option<int>,
                         columns: set<Column>, r: Record)
    requires Needed <= columns
    requires IntCell(parseInt, r.installments).Some?
    ensures var l := Project(BuildRow(parse, parseInt, columns, r));
            && l.day == r.day && l.entity == r.entity && l.product == r.product
            && l.anticipationMethod == r.anticipationMethod && l.monthlyTier == r.monthlyTier
            && l.paymentMethod == (if Uninformed(r) then r.anticipationMethod else r.paymentMethod)
            && l.installments == IntCell(parseInt, r.installments).value
            && l.amountTransacted == ToNumber(parse, r.amountTransacted)
            && l.feeRevenue == ToNumber(parse, r.feeRevenue)
            && l.effectiveFeeRate == Number(EffectiveRate(l.feeRevenue.x, l.amountTransacted.x))
  {
    var cs := PresentColumns(MoneyColumns, columns);
    PresentColumnsMeaning(MoneyColumns, columns);
    var r1 := FixUninformed(r);
    var r2 := ConvertRow(parseInt, r1);
    CoerceColumnsMeaning(parse, r2, cs);
    var r3 := CoerceColumns(parse, r2, cs);
    assert r3.amountTransacted == Get(r3, AmountTransacted);
    assert r3.feeRevenue == Get(r3, FeeRevenue);
    assert r3.day == Get(r3, Day) && r3.entity == Get(r3, Entity) && r3.product == Get(r3, Product);
    assert r3.paymentMethod == Get(r3, PaymentMethod) && r3.installments == Get(r3, Installments);
    assert r3.anticipationMethod == Get(r3, AnticipationMethod) && r3.monthlyTier == Get(r3, MonthlyTier);
  }

  /** Lines 11-13, in place, when both columns are there. */
  method FixUninformedFrame(df: Frame)
    modifies df.rows
    ensures forall i :: 0 <= i < df.rows.Length ==> df.rows[i] == FixUninformed(old(df.rows[i]))
  {
    df.AssignWhere(PaymentMethod, Uninformed, (r: Record) => r.anticipationMethod);
  }

  /** Whether every row's installments convert (the check `astype(int)` makes). */
  method InstallmentsConvert(df: Frame, parseInt: string -> Option<int>) returns (b: bool)
    ensures b <==> AllConvert(parseInt, df.rows[..])
  {
    for i := 0 to df.rows.Length
      invariant AllConvert(parseInt, df.rows[..i])
    {
      if IntCell(parseInt, df.rows[i].installments).None? {
        assert !AllConvert(parseInt, df.rows[..]) by {
          assert df.rows[..][i] == df.rows[i];
        }
        return false;
      }
    }
    assert df.rows[..df.rows.Length] == df.rows[..];
    return true;
  }

  /** Lines 18-20, in place: the column is rewritten only when every row converts;
      otherwise the script stops and the frame is left as it was. */
  method ConvertInstallments(df: Frame, parseInt: string -> Option<int>) returns (ok: bool)
    modifies df, df.rows
    requires Installments in df.columns
    ensures df.rows == old(df.rows) && df.columns == old(df.columns)
    ensures ok <==> AllConvert(parseInt, old(df.rows[..]))
    ensures forall i :: 0 <= i < df.rows.Length ==>
              df.rows[i] == if ok then ConvertRow(parseInt, old(df.rows[i])) else old(df.rows[i])
  {
    ok := InstallmentsConvert(df, parseInt);
    if ok {
      df.Assign(Installments, (r: Record) => IntCell(parseInt, r.installments).GetOr(r.installments));
    }
  }

  /** Lines 11-20, in place, on a file with both label columns and the
      installments column, whose installments all convert. */
  method PatchFrame(df: Frame, parseInt: string -> Option<int>)
    modifies df, df.rows
    requires Needed <= df.columns && AllConvert(parseInt, df.rows[..])
    ensures df.rows == old(df.rows) && df.columns == old(df.columns)
    ensures forall i :: 0 <= i < df.rows.Length ==>
              df.rows[i] == ConvertRow(parseInt, FixUninformed(old(df.rows[i])))
  {
    ghost var s0 := df.rows[..];
    FixUninformedFrame(df);
    ghost var s1 := df.rows[..];
    assert AllConvert(parseInt, s1) by {
      assert forall i :: 0 <= i < |s0| ==> s1[i].installments == s0[i].installments;
    }
    var ok := ConvertInstallments(df, parseInt);
    assert forall i :: 0 <= i < |s0| ==> df.rows[i] == ConvertRow(parseInt, s1[i]);
  }

  /** Lines 11-26, in place, on a file with every needed column whose installments
      all convert. */
  method PrepareFrame(df: Frame, parse: string -> Option<real>, parseInt: string -> Option<int>)
    modifies df, df.rows
    requires Needed <= df.columns && AllConvert(parseInt, df.rows[..])
    ensures df.rows == old(df.rows) && df.columns == old(df.columns) + {EffectiveFeeRate}
    ensures forall i :: 0 <= i < df.rows.Length ==>
              df.rows[i] == BuildRow(parse, parseInt, old(df.columns), old(df.rows[i]))
  {
    ghost var s0 := df.rows[..];
    ghost var cols := df.columns;
    PatchFrame(df, parseInt);
    ghost var s2 := df.rows[..];
    CoercePresent(df, parse, MoneyColumns);
    ghost var s3 := df.rows[..];
    assert forall i :: 0 <= i < |s0| ==> s3[i] == CoerceColumns(parse, s2[i], PresentColumns(MoneyColumns, cols));
    df.Assign(EffectiveFeeRate, (r: Record) => WithRate(r).effectiveFeeRate);
    assert forall i :: 0 <= i < |s0| ==> df.rows[i] == WithRate(s3[i]);
  }

  /** The whole script on a frame: the ten-column extract, one line per row, or
      nothing when a needed column is missing (KeyError) or an installments value
      does not convert (ValueError). */
  method Build(df: Frame, parse: string -> Option<real>, parseInt: string -> Option<int>)
    returns (ok: bool, out: seq<LookerRow>)
    modifies df, df.rows
    ensures df.rows == old(df.rows)
    ensures ok <==> Needed <= old(df.columns) && AllConvert(parseInt, old(df.rows[..]))
    ensures ok ==> |out| == df.rows.Length
    ensures ok ==> forall i :: 0 <= i < |out| ==>
              out[i] == Project(BuildRow(parse, parseInt, old(df.columns), old(df.rows[i])))
    ensures !ok ==> out == []
  {
    if !(Needed <= df.columns) {
      return false, [];
    }
    var conv := InstallmentsConvert(df, parseInt);
    if !conv {
      return false, [];
    }
    PrepareFrame(df, parse, parseInt);
    out := seq(df.rows.Length, i reads df, df.rows requires 0 <= i < df.rows.Length => Project(df.rows[i]));
    return true, out;
  }
}
