/** The cleaning rules and aggregation helpers that the report scripts
    (answers_report, build_kpis, q12_lowest_tier_analysis) each re-implement:
    label normalisation, the pix/bank_slip relabelling, `agg_basic`, per-key
    groupings and shares of a total. */
module Reporting {
  import opened Wrappers
  import opened Text
  import opened Frames
  import opened Floats
  import opened Aggregates

  /** The columns read as numbers, in the order the script coerces them. */
  const NumericColumns: seq<Column> := [AmountTransacted, QuantityTransactions, Installments]

  /** `df[c] = pd.to_numeric(df[c], errors="coerce").fillna(0)` for each column
      of `cs` in turn. */
  function CoerceColumns(parse: string -> Option<real>, r: Record, cs: seq<Column>): Record
  {
    if cs == [] then r
    else
      var prev := CoerceColumns(parse, r, cs[..|cs| - 1]);
      var c := cs[|cs| - 1];
      Set(prev, c, ToNumber(parse, Get(prev, c)))
  }

  /** The coerced columns hold numbers: what a number was stays, missing or
      unreadable values become 0, and every other column is untouched. */
  lemma {:induction false} CoerceColumnsMeaning(parse: string -> Option<real>, r: Record, cs: seq<Column>)
    ensures forall c :: c in cs ==> Get(CoerceColumns(parse, r, cs), c) == ToNumber(parse, Get(r, c))
    ensures forall c :: c !in cs ==> Get(CoerceColumns(parse, r, cs), c) == Get(r, c)
  {
    if cs != [] {
      var init := cs[..|cs| - 1];
      CoerceColumnsMeaning(parse, r, init);
      assert cs == init + [cs[|cs| - 1]];
      var prev, last := CoerceColumns(parse, r, init), cs[|cs| - 1];
      forall c | c in cs ensures Get(CoerceColumns(parse, r, cs), c) == ToNumber(parse, Get(r, c)) {
        if c != last {
          assert c in init;
          SetKeepsOthers(prev, last, ToNumber(parse, Get(prev, last)), c);
        } else if c in init {
          assert ToNumber(parse, ToNumber(parse, Get(r, c))) == ToNumber(parse, Get(r, c));
        }
      }
      forall c | c !in cs ensures Get(CoerceColumns(parse, r, cs), c) == Get(r, c) {
        SetKeepsOthers(prev, last, ToNumber(parse, Get(prev, last)), c);
      }
    }
  }

  /** Coercing the three numeric columns rewrites exactly those three cells. */
  lemma CoercedRow(parse: string -> Option<real>, r: Record)
    ensures CoerceColumns(parse, r, NumericColumns) ==
              r.(amountTransacted := ToNumber(parse, r.amountTransacted),
                 quantityTransactions := ToNumber(parse, r.quantityTransactions),
                 installments := ToNumber(parse, r.installments))
  {
    var cs := NumericColumns;
    assert cs[..2] == [AmountTransacted, QuantityTransactions] && cs[..2][..1] == [AmountTransacted];
    assert [AmountTransacted][..0] == [];
    var x0 := CoerceColumns(parse, r, []);
    var x1 := CoerceColumns(parse, r, [AmountTransacted]);
    var x2 := CoerceColumns(parse, r, [AmountTransacted, QuantityTransactions]);
    assert x0 == r;
    assert x1 == Set(x0, AmountTransacted, ToNumber(parse, Get(x0, AmountTransacted)));
    assert x2 == Set(x1, QuantityTransactions, ToNumber(parse, Get(x1, QuantityTransactions)));
    assert CoerceColumns(parse, r, cs) == Set(x2, Installments, ToNumber(parse, Get(x2, Installments)));
  }

  /** `[c for c in cs if c in df.columns]`. */
  function PresentColumns(cs: seq<Column>, columns: set<Column>): seq<Column>
  {
    if cs == [] then []
    else
      var init := PresentColumns(cs[..|cs| - 1], columns);
      if cs[|cs| - 1] in columns then init + [cs[|cs| - 1]] else init
  }

  /** The present columns are those of `cs` that the file has. */
  lemma {:induction false} PresentColumnsMeaning(cs: seq<Column>, columns: set<Column>)
    ensures forall c :: c in PresentColumns(cs, columns) <==> c in cs && c in columns
  {
    if cs != [] {
      PresentColumnsMeaning(cs[..|cs| - 1], columns);
      assert cs == cs[..|cs| - 1] + [cs[|cs| - 1]];
    }
  }

  /** `for c in cs: if c in df.columns: df[c] = to_numeric(df[c], errors="coerce").fillna(0)`:
      each listed column the file has is coerced in place, in the order listed. */
  method CoercePresent(df: Frame, parse: string -> Option<real>, cs: seq<Column>)
    modifies df, df.rows
    ensures df.rows == old(df.rows) && df.columns == old(df.columns)
    ensures forall i :: 0 <= i < df.rows.Length ==>
              df.rows[i] == CoerceColumns(parse, old(df.rows[i]), PresentColumns(cs, old(df.columns)))
  {
    for k := 0 to |cs|
      invariant df.rows == old(df.rows) && df.columns == old(df.columns)
      invariant forall i :: 0 <= i < df.rows.Length ==>
                  df.rows[i] == CoerceColumns(parse, old(df.rows[i]), PresentColumns(cs[..k], old(df.columns)))
    {
      var c := cs[k];
      assert cs[..k + 1][..k] == cs[..k];
      var p := PresentColumns(cs[..k], old(df.columns));
      if c in df.columns {
        assert PresentColumns(cs[..k + 1], old(df.columns)) == p + [c];
        assert (p + [c])[..|p|] == p;
        df.Assign(c, r => ToNumber(parse, Get(r, c)));
      } else {
        assert PresentColumns(cs[..k + 1], old(df.columns)) == p;
      }
    }
    assert cs[..|cs|] == cs;
  }

  /** Coercing numeric columns changes no other cell. */
  lemma {:induction false} CoerceColumnsOnlyNumeric(parse: string -> Option<real>, r: Record, cs: seq<Column>)
    requires forall c :: c in cs ==> c in NumericColumns
    ensures CoerceColumns(parse, r, cs).(amountTransacted := r.amountTransacted,
              quantityTransactions := r.quantityTransactions, installments := r.installments) == r
  {
    if cs != [] {
      var init := cs[..|cs| - 1];
      assert forall c :: c in init ==> c in cs;
      CoerceColumnsOnlyNumeric(parse, r, init);
      var c := cs[|cs| - 1];
      assert c in NumericColumns;
    }
  }

  /** The columns that hold labels or dates rather than counts. */
  predicate IsLabel(c: Column)
  {
    c in {Day, Weekday, Entity, Product, PaymentMethod, AnticipationMethod, PriceTier, MonthlyTier}
  }

  /** Coercing count columns leaves every label and date cell as it was. */
  lemma CoerceColumnsKeepsLabels(parse: string -> Option<real>, r: Record, cs: seq<Column>)
    requires forall c :: c in cs ==> !IsLabel(c)
    ensures var x := CoerceColumns(parse, r, cs);
            && x.day == r.day && x.weekday == r.weekday && x.entity == r.entity && x.product == r.product
            && x.paymentMethod == r.paymentMethod && x.anticipationMethod == r.anticipationMethod
            && x.priceTier == r.priceTier && x.monthlyTier == r.monthlyTier
  {
    var x := CoerceColumns(parse, r, cs);
    CoerceColumnsMeaning(parse, r, cs);
    assert Day !in cs && Weekday !in cs && Entity !in cs && Product !in cs;
    assert PaymentMethod !in cs && AnticipationMethod !in cs && PriceTier !in cs && MonthlyTier !in cs;
    assert Get(x, Day) == Get(r, Day) && Get(x, Weekday) == Get(r, Weekday);
    assert Get(x, Entity) == Get(r, Entity) && Get(x, Product) == Get(r, Product);
    assert Get(x, PaymentMethod) == Get(r, PaymentMethod) && Get(x, AnticipationMethod) == Get(r, AnticipationMethod);
    assert Get(x, PriceTier) == Get(r, PriceTier) && Get(x, MonthlyTier) == Get(r, MonthlyTier);
  }

  /** `str.strip().str.lower().str.replace(" ", "_")` on one label (computed
      lower-case first; NormLabelSourceOrder shows the order does not matter). */
  function NormLabel(s: string): (r: string)
    ensures NoBlank(r) && NoUpper(r) && Trimmed(r)
  {
    var t := Lower(Trim(s));
    assert Trimmed(t) by {
      if t != [] {
        assert LowerChar(Trim(s)[0]) == t[0] && LowerChar(Trim(s)[|t| - 1]) == t[|t| - 1];
      }
    }
    Underscored(t)
  }

  /** NormLabel is the composition in the scripts' own order: strip, lower, replace. */
  lemma NormLabelSourceOrder(s: string)
    ensures NormLabel(s) == Underscored(Trim(Lower(s)))
  {
    StripLowerCommute(s);
  }

  /** A normalised label is left as it is by a second normalisation. */
  lemma NormLabelIdempotent(s: string)
    ensures NormLabel(NormLabel(s)) == NormLabel(s)
  {
    var u := NormLabel(s);
    TrimOfTrimmed(u);
    LowerOfLower(u);
    assert Underscored(u) == u;
  }

  /** `fillna("")`. */
  function FillBlank(c: Cell): (d: Cell)
    ensures d != Missing
    ensures c != Missing ==> d == c
  {
    if c == Missing then Text("") else c
  }

  /** The `.str` pipeline of NormLabel applied to a cell: text is normalised,
      anything else (NaN, a number) comes out as NaN. */
  function NormCell(c: Cell): (d: Cell)
    ensures d.Text? <==> c.Text?
  {
    if c.Text? then Text(NormLabel(c.s)) else Missing
  }

  /** A normalised cell is NaN or a lower-case label without spaces or
      surrounding white space. */
  lemma NormCellShape(c: Cell)
    ensures NormCell(c) == Missing || (NoBlank(NormCell(c).s) && NoUpper(NormCell(c).s) && Trimmed(NormCell(c).s))
  {
    if c.Text? {
      var r := NormLabel(c.s);
      assert NoBlank(r) && NoUpper(r) && Trimmed(r);
    }
  }

  lemma NormCellIdempotent(c: Cell)
    ensures NormCell(NormCell(c)) == NormCell(c)
  {
    if c.Text? {
      NormLabelIdempotent(c.s);
    }
  }

  /** `.str.strip()` on a cell: text loses its surrounding white space and keeps
      its case; anything else comes out as NaN. */
  function StripCell(c: Cell): (d: Cell)
    ensures d.Text? <==> c.Text?
  {
    if c.Text? then Text(Trim(c.s)) else Missing
  }

  /** The stripped text is a piece of the original, character for character. */
  lemma StripCellKeepsCase(c: Cell)
    requires c.Text?
    ensures Trimmed(StripCell(c).s)
    ensures var a := LeadingSpaces(c.s);
            a + |StripCell(c).s| <= |c.s| && StripCell(c).s == c.s[a..a + |StripCell(c).s|]
  {
    TrimMeaning(c.s);
  }

  /** `.str.strip().str.lower()` on a cell: spaces inside the text are kept. */
  function LowerStripCell(c: Cell): (d: Cell)
    ensures d.Text? <==> c.Text?
  {
    if c.Text? then Text(Lower(Trim(c.s))) else Missing
  }

  /** The strip-then-lower order of the scripts; the result is lower case with
      no surrounding white space. */
  lemma LowerStripSourceOrder(c: Cell)
    requires c.Text?
    ensures LowerStripCell(c) == Text(Trim(Lower(c.s)))
    ensures Trimmed(LowerStripCell(c).s) && NoUpper(LowerStripCell(c).s)
  {
    StripLowerCommute(c.s);
  }

  /** `anticipation_method.isin(["pix", "bank_slip"])`. */
  predicate IsFreeChannel(r: Record)
  {
    r.anticipationMethod == Text("pix") || r.anticipationMethod == Text("bank_slip")
  }

  /** The value written by the relabelling: the row's anticipation method. */
  function AnticipationOf(r: Record): Cell { r.anticipationMethod }

  /** Grouping keys: a row's cell in one column. */
  function PaymentMethodOf(r: Record): Cell { r.paymentMethod }
  function ProductOf(r: Record): Cell { r.product }
  function PriceTierOf(r: Record): Cell { r.priceTier }
  function WeekdayOf(r: Record): Cell { r.weekday }

  /** `df.loc[mask, "payment_method"] = df.loc[mask, "anticipation_method"]` on one row. */
  function PixFix(r: Record): Record
  {
    if IsFreeChannel(r) then r.(paymentMethod := r.anticipationMethod) else r
  }

  /** Pix and bank-slip rows take their anticipation method as payment method;
      every other row, and every other column, is left alone; a second pass
      changes nothing. */
  lemma PixFixMeaning(r: Record)
    ensures PixFix(r).paymentMethod == if IsFreeChannel(r) then r.anticipationMethod else r.paymentMethod
    ensures forall c :: c != PaymentMethod ==> Get(PixFix(r), c) == Get(r, c)
    ensures IsFreeChannel(r) ==> PixFix(r).paymentMethod == Text("pix") || PixFix(r).paymentMethod == Text("bank_slip")
    ensures PixFix(PixFix(r)) == PixFix(r)
  {
    if IsFreeChannel(r) {
      assert PixFix(r) == Set(r, PaymentMethod, r.anticipationMethod);
    }
  }

  /** The relabelling applied to a whole frame, in place. */
  method FixFreeChannels(df: Frame)
    modifies df.rows
    ensures forall i :: 0 <= i < df.rows.Length ==> df.rows[i] == PixFix(old(df.rows[i]))
  {
    df.AssignWhere(PaymentMethod, IsFreeChannel, AnticipationOf);
  }

  function Tpv(r: Record): real { Num(r.amountTransacted) }

  function Transactions(r: Record): real { Num(r.quantityTransactions) }

  datatype Basic = Basic(tpv: real, transactions: real, avgTicket: real)

  /** The row `agg_basic` builds from two sums: the average ticket is guarded
      against a zero transaction count. */
  function MakeBasic(amt: real, tx: real): (b: Basic)
    ensures b.tpv == amt && b.transactions == tx
    ensures tx != 0.0 ==> b.avgTicket * tx == amt
    ensures tx == 0.0 ==> b.avgTicket == 0.0
  {
    Basic(amt, tx, if tx != 0.0 then amt / tx else 0.0)
  }

  /** `agg_basic(g)`: total amount, total transactions and the guarded average ticket. */
  function AggBasic(rows: seq<Record>): (b: Basic)
    ensures b.tpv == SumBy(rows, Tpv) && b.transactions == SumBy(rows, Transactions)
    ensures b.transactions != 0.0 ==> b.avgTicket * b.transactions == b.tpv
    ensures b.transactions == 0.0 ==> b.avgTicket == 0.0
  {
    MakeBasic(SumBy(rows, Tpv), SumBy(rows, Transactions))
  }

  /** The (key, value) column pair a `groupby(key)[value]` reads. */
  function Pairs<K>(rows: seq<Record>, key: Record -> K, f: Record -> real): (p: seq<(K, real)>)
    ensures |p| == |rows|
    ensures forall i :: 0 <= i < |rows| ==> p[i] == (key(rows[i]), f(rows[i]))
  {
    seq(|rows|, i requires 0 <= i < |rows| => (key(rows[i]), f(rows[i])))
  }

  /** The mask `key(row) == k`. */
  function HasKey<K(==)>(key: Record -> K, k: K): Record -> bool
  {
    r => key(r) == k
  }

  /** A group's sum is the sum over exactly the rows that carry its key. */
  lemma {:induction false} SumIfIsGroupSum<K>(rows: seq<Record>, key: Record -> K, f: Record -> real, k: K)
    ensures SumIf(Pairs(rows, key, f), k) == SumBy(Where(rows, HasKey(key, k)), f)
  {
    if rows != [] {
      var init, last := rows[..|rows| - 1], rows[|rows| - 1];
      assert Pairs(rows, key, f) == Pairs(init, key, f) + [(key(last), f(last))];
      SumIfAppend(Pairs(init, key, f), (key(last), f(last)), k);
      SumIfIsGroupSum(init, key, f, k);
      if HasKey(key, k)(last) {
        SumByAppend(Where(init, HasKey(key, k)), last, f);
      } else {
        assert !HasKey(key, k)(last);
        assert Where(rows, HasKey(key, k)) == Where(init, HasKey(key, k));
        assert SumIf(Pairs(rows, key, f), k) == SumIf(Pairs(init, key, f), k);
      }
    }
  }

  /** The value column of a pair table sums to the column it was read from. */
  lemma PairsTotal<K>(rows: seq<Record>, key: Record -> K, f: Record -> real)
    ensures Total(Pairs(rows, key, f)) == SumBy(rows, f)
  {
    SumByPointwise(Pairs(rows, key, f), Value, rows, f);
  }

  /** `groupby(key).apply(agg_basic)`: one row per distinct key (listed in first-seen
      order, where pandas sorts the keys). */
  function GroupBasic<K(==)>(rows: seq<Record>, key: Record -> K): seq<(K, Basic)>
  {
    var tp := Pairs(rows, key, Tpv);
    var tx := Pairs(rows, key, Transactions);
    var d := Distinct(KeysOf(tp));
    seq(|d|, j requires 0 <= j < |d| => (d[j], MakeBasic(SumIf(tp, d[j]), SumIf(tx, d[j]))))
  }

  function GroupTpv<K>(g: (K, Basic)): real { g.1.tpv }

  /** Every key that occurs gets exactly one group, each group is `agg_basic` of
      the rows with its key, and the groups' amounts add up to the whole. */
  lemma GroupBasicMeaning<K>(rows: seq<Record>, key: Record -> K)
    ensures forall i, j :: 0 <= i < j < |GroupBasic(rows, key)| ==> GroupBasic(rows, key)[i].0 != GroupBasic(rows, key)[j].0
    ensures forall r :: r in rows ==> key(r) in KeysOf(GroupBasic(rows, key))
    ensures forall j :: 0 <= j < |GroupBasic(rows, key)| ==>
              GroupBasic(rows, key)[j].1 == AggBasic(Where(rows, HasKey(key, GroupBasic(rows, key)[j].0)))
    ensures SumBy(GroupBasic(rows, key), GroupTpv) == SumBy(rows, Tpv)
  {
    var g := GroupBasic(rows, key);
    var tp := Pairs(rows, key, Tpv);
    var tx := Pairs(rows, key, Transactions);
    assert KeysOf(tp) == KeysOf(tx);
    assert KeysOf(g) == Distinct(KeysOf(tp));
    forall r | r in rows ensures key(r) in KeysOf(g) {
      var i :| 0 <= i < |rows| && rows[i] == r;
      assert KeysOf(tp)[i] == key(r);
    }
    forall j | 0 <= j < |g| ensures g[j].1 == AggBasic(Where(rows, HasKey(key, g[j].0))) {
      SumIfIsGroupSum(rows, key, Tpv, g[j].0);
      SumIfIsGroupSum(rows, key, Transactions, g[j].0);
    }
    SumByPointwise(g, GroupTpv, GroupSum(tp), Value);
    GroupSumTotal(tp);
    PairsTotal(rows, key, Tpv);
  }

  /** `payment_method == "credit"`. */
  predicate IsCredit(r: Record) { r.paymentMethod == Text("credit") }

  function InstallmentsOf(r: Record): Cell { r.installments }

  /** `df[df.payment_method == "credit"].groupby("installments").apply(agg_basic)`. */
  function CreditInstallments(rows: seq<Record>): seq<(Cell, Basic)>
  {
    GroupBasic(Where(rows, IsCredit), InstallmentsOf)
  }

  /** Only credit rows take part: adding any other row leaves the breakdown as it was. */
  lemma CreditInstallmentsIgnoreOthers(rows: seq<Record>, r: Record)
    requires !IsCredit(r)
    ensures CreditInstallments(rows + [r]) == CreditInstallments(rows)
  {
    assert (rows + [r])[..|rows|] == rows;
    assert !IsCredit(r);
    assert Where(rows + [r], IsCredit) == Where(rows, IsCredit);
  }

  /** Each group is `agg_basic` of the credit rows with its installment count, and
      the groups' amounts add up to the credit amount. */
  lemma CreditInstallmentsMeaning(rows: seq<Record>)
    ensures SumBy(CreditInstallments(rows), GroupTpv) == SumBy(Where(rows, IsCredit), Tpv)
    ensures forall j :: 0 <= j < |CreditInstallments(rows)| ==>
              CreditInstallments(rows)[j].1 ==
                AggBasic(Where(Where(rows, IsCredit), HasKey(InstallmentsOf, CreditInstallments(rows)[j].0)))
  {
    GroupBasicMeaning(Where(rows, IsCredit), InstallmentsOf);
  }

  /** `t["share"] = t["tpv"] / t["tpv"].sum()`, with float division by zero. */
  function Shares<K>(t: seq<(K, real)>): (s: seq<(K, real, Float)>)
    ensures |s| == |t|
    ensures forall j :: 0 <= j < |t| ==> s[j].0 == t[j].0 && s[j].1 == t[j].1
  {
    seq(|t|, j requires 0 <= j < |t| => (t[j].0, t[j].1, Div(t[j].1, Total(t))))
  }

  function ShareOf<K>(x: (K, real, Float)): real { if x.2.Finite? then x.2.v else 0.0 }

  /** With a non-zero total every share is a finite value and the shares add up to one. */
  lemma SharesSumToOne<K>(t: seq<(K, real)>)
    requires Total(t) != 0.0
    ensures forall j :: 0 <= j < |t| ==> Shares(t)[j].2.Finite?
    ensures SumBy(Shares(t), ShareOf) == 1.0
  {
    var s := Shares(t);
    var c := Total(t);
    forall j | 0 <= j < |t| ensures ShareOf(s[j]) == Value(t[j]) / c {
      assert s[j].2 == Div(t[j].1, c);
    }
    SumByPointwise(s, ShareOf, t, x => Value(x) / c);
    SumByScaled(t, Value, x => Value(x) / c, c);
  }
}
