/** The lowest-tier study (src/q12_lowest_tier_analysis.py): the raw file is
    cleaned in place, the price tiers are ranked by TPV, the lowest and the top
    tier are compared (`kpis`, and `mix` tables of shares), and a list of
    hypotheses is drawn from fixed rules. */
module LowestTierAnalysis {
  import opened Wrappers
  import opened Text
  import opened Frames
  import opened Floats
  import opened Aggregates
  import opened Reporting

  /** Line 11: the count columns, coerced when the file has them. */
  const CountColumns: seq<Column> := [AmountTransacted, QuantityTransactions, Installments, QuantityOfMerchants]

  /** Lines 20-23: the label columns `norm` rewrites. */
  const LabelColumns: set<Column> := {PriceTier, Product, PaymentMethod, AnticipationMethod}

  /** The columns the script indexes directly: `day` (line 16), `amount_transacted`
      (line 30), `quantity_transactions` (line 48) and `installments` (line 70, the
      key of a `groupby`, which fails on a missing column even over no rows). */
  const Required: set<Column> := {Day, AmountTransacted, QuantityTransactions, Installments}

  // ---------- norm (lines 19-23) ----------

  /** Lines 20-23 as written, on one column: `norm(df.get(c, ""))`. When the file
      has no such column, `df.get` returns the string "" and `.fillna` fails on it,
      so the script stops (None). */
  function NormColumnAsWritten(columns: set<Column>, c: Column, cells: seq<Cell>): Option<seq<Cell>>
  {
    if c in columns then Some(seq(|cells|, i requires 0 <= i < |cells| => NormCell(FillBlank(cells[i]))))
    else None
  }

  /** The cell `norm` is evidently meant to give: the normalised label, and "" in
      every row when the file has no such column. */
  function NormDefault(columns: set<Column>, c: Column, cell: Cell): Cell
  {
    if c in columns then NormCell(FillBlank(cell)) else Text("")
  }

  /** Lines 20-23 as intended, on one column. */
  function NormColumn(columns: set<Column>, c: Column, cells: seq<Cell>): seq<Cell>
  {
    seq(|cells|, i requires 0 <= i < |cells| => NormDefault(columns, c, cells[i]))
  }

  /** A blank label normalises to the empty string. */
  lemma NormOfBlank()
    ensures NormCell(FillBlank(Missing)) == Text("")
  {
    assert AllSpace("");
    TrimOfBlank("");
  }

  /** Where the file has the column, the written and the intended `norm` agree;
      where it has not, the written one stops the script while the intended one
      gives every row the label "", which is what a column of missing labels
      would give. */
  lemma NormColumnDiscrepancy(columns: set<Column>, c: Column, cells: seq<Cell>)
    ensures c in columns ==> NormColumnAsWritten(columns, c, cells) == Some(NormColumn(columns, c, cells))
    ensures c !in columns ==> NormColumnAsWritten(columns, c, cells) == None
    ensures c !in columns ==> forall i :: 0 <= i < |cells| ==>
              NormColumn(columns, c, cells)[i] == Text("") == NormCell(FillBlank(Missing))
  {
    NormOfBlank();
    if c in columns {
      var w := NormColumnAsWritten(columns, c, cells).value;
      assert |w| == |NormColumn(columns, c, cells)|;
      assert forall i :: 0 <= i < |cells| ==> w[i] == NormColumn(columns, c, cells)[i];
      assert w == NormColumn(columns, c, cells);
    }
  }

  /** Every label `norm` produces is text: trimmed, lower case and without spaces. */
  lemma NormDefaultShape(columns: set<Column>, c: Column, cell: Cell)
    requires !cell.Number?
    ensures NormDefault(columns, c, cell).Text?
    ensures var s := NormDefault(columns, c, cell).s; Trimmed(s) && NoUpper(s) && NoBlank(s)
  {
    NormOfBlank();
    NormCellShape(FillBlank(cell));
  }

  // ---------- cleaning (lines 11-27) ----------

  /** Lines 16-17 on one row: the day parsed by `toDate` and the weekday named by
      `dayName` (a missing cell for a day that did not parse). */
  function Dated(toDate: Cell -> Cell, dayName: Cell -> Cell, r: Record): Record
  {
    r.(day := toDate(r.day), weekday := dayName(toDate(r.day)))
  }

  /** Lines 20-23 on one row, as intended. */
  function Normed(columns: set<Column>, r: Record): Record
  {
    r.(priceTier := NormDefault(columns, PriceTier, r.priceTier),
       product := NormDefault(columns, Product, r.product),
       paymentMethod := NormDefault(columns, PaymentMethod, r.paymentMethod),
       anticipationMethod := NormDefault(columns, AnticipationMethod, r.anticipationMethod))
  }

  /** One row as lines 11-27 leave it, given the file's columns. */
  function CleanRow(parse: string -> Option<real>, toDate: Cell -> Cell, dayName: Cell -> Cell,
                    columns: set<Column>, r: Record): Record
  {
    PixFix(Normed(columns, Dated(toDate, dayName, CoerceColumns(parse, r, PresentColumns(CountColumns, columns)))))
  }

  /** After cleaning, a count column holds a number exactly when the file has it,
      and is left as it was otherwise. */
  lemma CleanRowCounts(parse: string -> Option<real>, toDate: Cell -> Cell, dayName: Cell -> Cell,
                       columns: set<Column>, r: Record, col: Column)
    requires col in CountColumns
    ensures Get(CleanRow(parse, toDate, dayName, columns, r), col) ==
              if col in columns then ToNumber(parse, Get(r, col)) else Get(r, col)
  {
    var cs := PresentColumns(CountColumns, columns);
    PresentColumnsMeaning(CountColumns, columns);
    CoerceColumnsMeaning(parse, r, cs);
    var x := CoerceColumns(parse, r, cs);
    var y := Normed(columns, Dated(toDate, dayName, x));
    assert Get(y, col) == Get(x, col);
    PixFixMeaning(y);
  }

  /** After cleaning, every label is normalised; the payment method is the
      anticipation method on pix and bank-slip rows and its own normalised label
      on the others; the weekday is the parsed day's name. */
  lemma CleanRowLabels(parse: string -> Option<real>, toDate: Cell -> Cell, dayName: Cell -> Cell,
                       columns: set<Column>, r: Record)
    ensures var c := CleanRow(parse, toDate, dayName, columns, r);
            && c.priceTier == NormDefault(columns, PriceTier, r.priceTier)
            && c.product == NormDefault(columns, Product, r.product)
            && c.anticipationMethod == NormDefault(columns, AnticipationMethod, r.anticipationMethod)
            && c.paymentMethod ==
                 (if IsFreeChannel(c) then c.anticipationMethod else NormDefault(columns, PaymentMethod, r.paymentMethod))
            && c.day == toDate(r.day) && c.weekday == dayName(toDate(r.day))
  {
    var cs := PresentColumns(CountColumns, columns);
    PresentColumnsMeaning(CountColumns, columns);
    CoerceColumnsKeepsLabels(parse, r, cs);
    var y := Normed(columns, Dated(toDate, dayName, CoerceColumns(parse, r, cs)));
    PixFixMeaning(y);
  }

  /** Lines 16-17, in place. */
  method DateFrame(df: Frame, toDate: Cell -> Cell, dayName: Cell -> Cell)
    modifies df, df.rows
    ensures df.rows == old(df.rows) && df.columns == old(df.columns) + {Day, Weekday}
    ensures forall i :: 0 <= i < df.rows.Length ==> df.rows[i] == Dated(toDate, dayName, old(df.rows[i]))
  {
    df.Assign(Day, (r: Record) => toDate(r.day));
    df.Assign(Weekday, (r: Record) => dayName(r.day));
  }

  /** Lines 20-21, in place, as intended. */
  method NormTierAndProduct(df: Frame, cols: set<Column>)
    modifies df, df.rows
    ensures df.rows == old(df.rows) && df.columns == old(df.columns) + {PriceTier, Product}
    ensures forall i :: 0 <= i < df.rows.Length ==>
              df.rows[i] == old(df.rows[i]).(priceTier := NormDefault(cols, PriceTier, old(df.rows[i]).priceTier),
                                             product := NormDefault(cols, Product, old(df.rows[i]).product))
  {
    df.Assign(PriceTier, (r: Record) => NormDefault(cols, PriceTier, Get(r, PriceTier)));
    df.Assign(Product, (r: Record) => NormDefault(cols, Product, Get(r, Product)));
  }

  /** Lines 22-23, in place, as intended. */
  method NormMethods(df: Frame, cols: set<Column>)
    modifies df, df.rows
    ensures df.rows == old(df.rows) && df.columns == old(df.columns) + {PaymentMethod, AnticipationMethod}
    ensures forall i :: 0 <= i < df.rows.Length ==>
              df.rows[i] == old(df.rows[i]).(paymentMethod := NormDefault(cols, PaymentMethod, old(df.rows[i]).paymentMethod),
                                             anticipationMethod := NormDefault(cols, AnticipationMethod, old(df.rows[i]).anticipationMethod))
  {
    df.Assign(PaymentMethod, (r: Record) => NormDefault(cols, PaymentMethod, Get(r, PaymentMethod)));
    df.Assign(AnticipationMethod, (r: Record) => NormDefault(cols, AnticipationMethod, Get(r, AnticipationMethod)));
  }

  /** Lines 19-23, in place, as intended. */
  method NormFrame(df: Frame)
    modifies df, df.rows
    ensures df.rows == old(df.rows) && df.columns == old(df.columns) + LabelColumns
    ensures forall i :: 0 <= i < df.rows.Length ==> df.rows[i] == Normed(old(df.columns), old(df.rows[i]))
  {
    var cols := df.columns;
    ghost var s0 := df.rows[..];
    NormTierAndProduct(df, cols);
    ghost var s1 := df.rows[..];
    NormMethods(df, cols);
    assert forall i :: 0 <= i < |s0| ==> df.rows[i] == Normed(cols, s0[i]);
  }

  /** Lines 11-27, in place. A file without a `day` column stops the script
      (KeyError), and the frame is left as it was. */
  method Clean(df: Frame, parse: string -> Option<real>, toDate: Cell -> Cell, dayName: Cell -> Cell)
    returns (ok: bool)
    modifies df, df.rows
    ensures df.rows == old(df.rows)
    ensures ok <==> Day in old(df.columns)
    ensures ok ==> df.columns == old(df.columns) + {Weekday} + LabelColumns
    ensures ok ==> forall i :: 0 <= i < df.rows.Length ==>
              df.rows[i] == CleanRow(parse, toDate, dayName, old(df.columns), old(df.rows[i]))
    ensures !ok ==> df.columns == old(df.columns) && df.rows[..] == old(df.rows[..])
  {
    if Day !in df.columns {
      return false;
    }
    CleanFrame(df, parse, toDate, dayName);
    return true;
  }

  /** The labels do not depend on whether the date columns are listed. */
  lemma NormedIgnoresDates(cols: set<Column>, r: Record)
    ensures Normed(cols + {Day, Weekday}, r) == Normed(cols, r)
  {
  }

  /** Lines 11-27 on a frame that has a `day` column. */
  method CleanFrame(df: Frame, parse: string -> Option<real>, toDate: Cell -> Cell, dayName: Cell -> Cell)
    modifies df, df.rows
    requires Day in df.columns
    ensures df.rows == old(df.rows)
    ensures df.columns == old(df.columns) + {Weekday} + LabelColumns
    ensures forall i :: 0 <= i < df.rows.Length ==>
              df.rows[i] == CleanRow(parse, toDate, dayName, old(df.columns), old(df.rows[i]))
  {
    ghost var s0 := df.rows[..];
    ghost var cols := df.columns;
    CoercePresent(df, parse, CountColumns);
    ghost var s1 := df.rows[..];
    DateFrame(df, toDate, dayName);
    ghost var s2 := df.rows[..];
    NormFrame(df);
    ghost var s3 := df.rows[..];
    FixFreeChannels(df);
    ghost var s4 := df.rows[..];
    forall i | 0 <= i < |s0| ensures s4[i] == CleanRow(parse, toDate, dayName, cols, s0[i]) {
      assert s1[i] == CoerceColumns(parse, s0[i], PresentColumns(CountColumns, cols));
      assert s2[i] == Dated(toDate, dayName, s1[i]);
      assert s3[i] == Normed(cols + {Day, Weekday}, s2[i]);
      NormedIgnoresDates(cols, s2[i]);
      assert s4[i] == PixFix(s3[i]);
    }
  }

  // ---------- tiers (lines 29-34) ----------

  /** The mask of rows whose key is present: `groupby` drops missing keys. */
  function Keyed(key: Record -> Cell): Record -> bool
  {
    r => key(r) != Missing
  }

  /** `df.groupby(key)["amount_transacted"].sum()`: TPV per present key. */
  function TpvBy(rows: seq<Record>, key: Record -> Cell): seq<(Cell, real)>
  {
    GroupSum(Pairs(Where(rows, Keyed(key)), key, Tpv))
  }

  /** A grouping by a key has one entry per present key, each key once, and is
      empty exactly when no row has the key. */
  lemma TpvByKeys(rows: seq<Record>, key: Record -> Cell)
    ensures DistinctKeys(TpvBy(rows, key))
    ensures forall p :: p in TpvBy(rows, key) ==> p.0 != Missing
    ensures forall r :: r in rows && key(r) != Missing ==> key(r) in KeysOf(TpvBy(rows, key))
    ensures TpvBy(rows, key) == [] <==> Where(rows, Keyed(key)) == []
  {
    var kept := Where(rows, Keyed(key));
    var p := Pairs(kept, key, Tpv);
    var g := GroupSum(p);
    GroupSumMeaning(p);
    forall q | q in g ensures q.0 != Missing {
      var j :| 0 <= j < |g| && g[j] == q;
      assert KeysOf(g)[j] == q.0;
      var i :| 0 <= i < |p| && KeysOf(p)[i] == q.0;
      assert kept[i] in kept;
    }
    forall r | r in rows && key(r) != Missing ensures key(r) in KeysOf(g) {
      assert r in kept;
      var i :| 0 <= i < |kept| && kept[i] == r;
      assert KeysOf(p)[i] == key(r);
    }
    if kept != [] {
      assert KeysOf(p)[0] in KeysOf(g);
    }
  }

  /** Each entry of a grouping holds the TPV of the rows with its key. */
  lemma TpvBySums(rows: seq<Record>, key: Record -> Cell)
    ensures forall p :: p in TpvBy(rows, key) ==> p.1 == SumBy(Where(rows, HasKey(key, p.0)), Tpv)
  {
    var kept := Where(rows, Keyed(key));
    var p := Pairs(kept, key, Tpv);
    var g := GroupSum(p);
    GroupSumMeaning(p);
    TpvByKeys(rows, key);
    forall q | q in g ensures q.1 == SumBy(Where(rows, HasKey(key, q.0)), Tpv) {
      var j :| 0 <= j < |g| && g[j] == q;
      SumIfIsGroupSum(kept, key, Tpv, q.0);
      WhereOfWhere(rows, Keyed(key), HasKey(key, q.0));
    }
  }

  /** Together the entries of a grouping hold the TPV of every row whose key is
      present. */
  lemma TpvByTotal(rows: seq<Record>, key: Record -> Cell)
    ensures Total(TpvBy(rows, key)) == SumBy(Where(rows, Keyed(key)), Tpv)
  {
    var kept := Where(rows, Keyed(key));
    GroupSumTotal(Pairs(kept, key, Tpv));
    PairsTotal(kept, key, Tpv);
  }

  /** Lines 30-31: TPV per price tier, ascending. */
  function TierTpv(rows: seq<Record>): seq<(Cell, real)>
  {
    SortBy(TpvBy(rows, PriceTierOf), Value)
  }

  /** Line 32: the first tier of the ascending table, or "" when it is empty.
      Among tiers tied for the smallest TPV, the first seen is picked. */
  function LowestTier(rows: seq<Record>): Cell
  {
    var t := TierTpv(rows);
    if t == [] then Text("") else t[0].0
  }

  /** Line 33: the last tier of the ascending table, or "" when it is empty.
      Among tiers tied for the largest TPV, the last seen is picked. */
  function TopTier(rows: seq<Record>): Cell
  {
    var t := TierTpv(rows);
    if t == [] then Text("") else t[|t| - 1].0
  }

  /** The ascending table holds the same tiers; its first tier, the lowest, has
      the smallest TPV of all and its last, the top tier, the largest; both are ""
      exactly when no row has a price tier. */
  lemma TierExtremes(rows: seq<Record>)
    ensures var t := TpvBy(rows, PriceTierOf);
            var s := TierTpv(rows);
            && multiset(s) == multiset(t)
            && (t == [] <==> Where(rows, Keyed(PriceTierOf)) == [])
            && (t == [] ==> LowestTier(rows) == Text("") && TopTier(rows) == Text(""))
            && (t != [] ==> LowestTier(rows) == s[0].0 && TopTier(rows) == s[|s| - 1].0
                              && forall p :: p in t ==> s[0].1 <= p.1 <= s[|s| - 1].1)
  {
    var t := TpvBy(rows, PriceTierOf);
    var s := TierTpv(rows);
    TpvByKeys(rows, PriceTierOf);
    SortBySorted(t, Value);
    forall p | p in t ensures s[0].1 <= p.1 <= s[|s| - 1].1 {
      assert p in multiset(s);
      SortedEnds(s, Value, p);
    }
  }

  /** Once every row has a price tier, as after cleaning, the tier table adds up
      to the overall TPV of line 34. */
  lemma TierTotal(rows: seq<Record>)
    requires forall r :: r in rows ==> r.priceTier != Missing
    ensures Total(TierTpv(rows)) == SumBy(rows, Tpv)
  {
    forall r | r in rows ensures Keyed(PriceTierOf)(r) {
      assert PriceTierOf(r) == r.priceTier;
    }
    WhereAll(rows, Keyed(PriceTierOf));
    TpvByTotal(rows, PriceTierOf);
    SortByKeepsSum(TpvBy(rows, PriceTierOf), Value, Value);
  }

  // ---------- kpis (lines 46-51) ----------

  datatype Kpis = Kpis(tpv: real, transactions: real, merchants: Option<real>, avgTicket: real)

  function Merchants(r: Record): real { Num(r.quantityOfMerchants) }

  /** Lines 46-51: TPV, transactions, merchants (NaN, here None, when the file has
      no such column) and the average ticket, 0 when there are no transactions. */
  function KpisOf(rows: seq<Record>, columns: set<Column>): (k: Kpis)
    ensures k.tpv == SumBy(rows, Tpv) && k.transactions == SumBy(rows, Transactions)
    ensures k.merchants.Some? <==> QuantityOfMerchants in columns
    ensures k.merchants.Some? ==> k.merchants.value == SumBy(rows, Merchants)
    ensures k.transactions != 0.0 ==> k.avgTicket * k.transactions == k.tpv
    ensures k.transactions == 0.0 ==> k.avgTicket == 0.0
  {
    var b := AggBasic(rows);
    Kpis(b.tpv, b.transactions,
         if QuantityOfMerchants in columns then Some(SumBy(rows, Merchants)) else None,
         b.avgTicket)
  }

  // ---------- mix (lines 57-65) ----------

  /** One line of a mix table. */
  datatype MixRow = MixRow(key: Cell, tpv: real, share: real)

  function Share(m: MixRow): real { m.share }
  function MixKey(m: MixRow): Cell { m.key }
  function ShareDescending(m: MixRow): real { -m.share }

  /** Lines 60-64: each group's share of the total, or 0 throughout when the total
      is not positive. */
  function ShareTable(g: seq<(Cell, real)>): (m: seq<MixRow>)
    ensures |m| == |g|
  {
    var total := Total(g);
    seq(|g|, j requires 0 <= j < |g| => MixRow(g[j].0, g[j].1, if total > 0.0 then g[j].1 / total else 0.0))
  }

  /** Lines 58-64, before sorting. */
  function MixTable(rows: seq<Record>, key: Record -> Cell): seq<MixRow>
  {
    ShareTable(TpvBy(rows, key))
  }

  /** Line 65: `mix`, sorted by share, largest first. */
  function Mix(rows: seq<Record>, key: Record -> Cell): seq<MixRow>
  {
    SortBy(MixTable(rows, key), ShareDescending)
  }

  /** The shares of a table whose total is positive add up to 1. */
  lemma ShareTableSumsToOne(g: seq<(Cell, real)>)
    requires Total(g) > 0.0
    ensures SumBy(ShareTable(g), Share) == 1.0
  {
    var m := ShareTable(g);
    var c := Total(g);
    var f := (x: (Cell, real)) => Value(x) / c;
    forall j | 0 <= j < |g| ensures Share(m[j]) == f(g[j]) {
    }
    SumByPointwise(m, Share, g, f);
    SumByScaled(g, Value, f, c);
    assert SumBy(g, Value) == c;
    assert c / c == 1.0;
  }

  /** A share table keeps each group's key and TPV; when the total is positive a
      share times the total gives back the group's TPV, and otherwise it is 0. */
  lemma ShareTableMeaning(g: seq<(Cell, real)>)
    ensures forall j :: 0 <= j < |g| ==> ShareTable(g)[j].key == g[j].0 && ShareTable(g)[j].tpv == g[j].1
    ensures Total(g) > 0.0 ==> forall j :: 0 <= j < |g| ==> ShareTable(g)[j].share * Total(g) == g[j].1
    ensures Total(g) <= 0.0 ==> forall j :: 0 <= j < |g| ==> ShareTable(g)[j].share == 0.0
  {
    var c := Total(g);
    var t := ShareTable(g);
    if c > 0.0 {
      forall j | 0 <= j < |g| ensures t[j].share * c == g[j].1 {
        assert t[j].share == g[j].1 / c;
      }
    }
  }

  /** Every line of a share table holds its part of the table's total. */
  lemma ShareTableMember(g: seq<(Cell, real)>, x: MixRow)
    requires x in ShareTable(g)
    ensures Total(g) > 0.0 ==> x.share * Total(g) == x.tpv
    ensures Total(g) <= 0.0 ==> x.share == 0.0
  {
    var c := Total(g);
    var t := ShareTable(g);
    var j :| 0 <= j < |t| && t[j] == x;
    assert x.tpv == g[j].1;
    if c > 0.0 {
      assert x.share == g[j].1 / c;
    }
  }

  /** The unsorted mix has one line per present key, each key once. */
  lemma MixTableKeys(rows: seq<Record>, key: Record -> Cell)
    ensures DistinctBy(MixTable(rows, key), MixKey)
    ensures forall x :: x in MixTable(rows, key) ==> x.key != Missing
    ensures forall r :: r in rows && key(r) != Missing ==> exists x :: x in MixTable(rows, key) && x.key == key(r)
  {
    TpvByKeys(rows, key);
    ShareTableKeys(TpvBy(rows, key));
  }

  /** The share table keeps the grouping's keys, line for line. */
  lemma ShareTableKeys(g: seq<(Cell, real)>)
    ensures DistinctKeys(g) ==> DistinctBy(ShareTable(g), MixKey)
    ensures (forall p :: p in g ==> p.0 != Missing) ==> forall x :: x in ShareTable(g) ==> x.key != Missing
    ensures forall k :: k in KeysOf(g) ==> exists x :: x in ShareTable(g) && x.key == k
  {
    var t := ShareTable(g);
    assert forall j :: 0 <= j < |t| ==> t[j].key == g[j].0 by {
      ShareTableMeaning(g);
    }
    forall x | x in t ensures exists j :: 0 <= j < |g| && x.key == g[j].0 {
      var j :| 0 <= j < |t| && t[j] == x;
    }
    forall k | k in KeysOf(g) ensures exists x :: x in t && x.key == k {
      var j :| 0 <= j < |g| && KeysOf(g)[j] == k;
      assert t[j] in t;
    }
    if forall p :: p in g ==> p.0 != Missing {
      forall x | x in t ensures x.key != Missing {
        var j :| 0 <= j < |g| && x.key == g[j].0;
        assert g[j] in g;
      }
    }
  }

  /** Each line of the unsorted mix holds the TPV of the rows with its key. */
  lemma MixTableSums(rows: seq<Record>, key: Record -> Cell)
    ensures forall x :: x in MixTable(rows, key) ==> x.tpv == SumBy(Where(rows, HasKey(key, x.key)), Tpv)
  {
    var g := TpvBy(rows, key);
    var t := MixTable(rows, key);
    TpvBySums(rows, key);
    ShareTableMeaning(g);
    forall x | x in t ensures x.tpv == SumBy(Where(rows, HasKey(key, x.key)), Tpv) {
      var j :| 0 <= j < |t| && t[j] == x;
      assert g[j] in g;
    }
  }

  /** A mix has one line per present key, each key once, with that key's TPV,
      and its lines run from the largest share to the smallest. */
  lemma MixMeaning(rows: seq<Record>, key: Record -> Cell)
    ensures var m := Mix(rows, key);
            && DistinctBy(m, MixKey)
            && (forall i, j :: 0 <= i < j < |m| ==> m[i].share >= m[j].share)
            && (forall x :: x in m ==> x.key != Missing && x.tpv == SumBy(Where(rows, HasKey(key, x.key)), Tpv))
            && (forall r :: r in rows && key(r) != Missing ==> exists x :: x in m && x.key == key(r))
  {
    var t := MixTable(rows, key);
    var m := Mix(rows, key);
    MixTableKeys(rows, key);
    MixTableSums(rows, key);
    SortByMembers(t, ShareDescending);
    SortByDistinct(t, ShareDescending, MixKey);
    SortBySorted(t, ShareDescending);
    forall i, j | 0 <= i < j < |m| ensures m[i].share >= m[j].share {
      assert ShareDescending(m[i]) <= ShareDescending(m[j]);
    }
  }

  /** When the TPV of the keyed rows is positive, the shares of a mix add up
      to 1. */
  lemma MixSharesSum(rows: seq<Record>, key: Record -> Cell)
    requires SumBy(Where(rows, Keyed(key)), Tpv) > 0.0
    ensures SumBy(Mix(rows, key), Share) == 1.0
  {
    var g := TpvBy(rows, key);
    var t := MixTable(rows, key);
    TpvByTotal(rows, key);
    ShareTableSumsToOne(g);
    SortByKeepsSum(t, ShareDescending, Share);
  }

  /** Sorting the mix keeps its lines. */
  lemma MixLines(rows: seq<Record>, key: Record -> Cell)
    ensures forall x :: x in Mix(rows, key) <==> x in MixTable(rows, key)
  {
    SortByMembers(MixTable(rows, key), ShareDescending);
  }

  /** Line 70: the installments mix of the lowest tier covers credit rows only. */
  function CreditInstallmentsMix(rows: seq<Record>): seq<MixRow>
  {
    Mix(Where(rows, IsCredit), InstallmentsOf)
  }

  /** Adding a row paid by any method but credit leaves the installments mix as
      it was. */
  lemma CreditInstallmentsMixIgnoresOthers(rows: seq<Record>, r: Record)
    requires !IsCredit(r)
    ensures CreditInstallmentsMix(rows + [r]) == CreditInstallmentsMix(rows)
  {
    assert (rows + [r])[..|rows + [r]| - 1] == rows;
    assert Where(rows + [r], IsCredit) == Where(rows, IsCredit);
  }

  /** Every line of the installments mix is the TPV of the credit rows with that
      number of installments. */
  lemma CreditInstallmentsMixMeaning(rows: seq<Record>)
    ensures forall x :: x in CreditInstallmentsMix(rows) ==>
              x.tpv == SumBy(Where(Where(rows, IsCredit), HasKey(InstallmentsOf, x.key)), Tpv)
  {
    MixMeaning(Where(rows, IsCredit), InstallmentsOf);
  }

  /** Lines 101-102: the first line's key and share, or ("—", 0) on an empty table. */
  function TopShare(m: seq<MixRow>): (Cell, real)
  {
    if m == [] then (Text("—"), 0.0) else (m[0].key, m[0].share)
  }

  /** On a mix, `top_share` names the key with the largest share. */
  lemma TopShareIsLargest(rows: seq<Record>, key: Record -> Cell)
    ensures var m := Mix(rows, key);
            && (m == [] ==> TopShare(m) == (Text("—"), 0.0))
            && (m != [] ==> exists x :: x in m && TopShare(m) == (x.key, x.share))
            && forall x :: x in m ==> x.share <= TopShare(m).1
  {
    var m := Mix(rows, key);
    SortBySorted(MixTable(rows, key), ShareDescending);
    if m != [] {
      assert m[0] in m;
      forall x | x in m ensures x.share <= m[0].share {
        SortedEnds(m, ShareDescending, x);
      }
    }
  }

  // ---------- the comparison (lines 43-75) ----------

  /** What the script computes from the cleaned rows. */
  datatype Report = Report(
    tierTpv: seq<(Cell, real)>, lowest: Cell, top: Cell, overall: real,
    lo: Kpis, hi: Kpis,
    loPm: seq<MixRow>, loProduct: seq<MixRow>, loAnticipation: seq<MixRow>,
    loInstallments: seq<MixRow>, loWeekday: seq<MixRow>,
    hiPm: seq<MixRow>, hiProduct: seq<MixRow>, hiAnticipation: seq<MixRow>)

  /** Lines 30-75 on the cleaned rows. Lines 43-44 select the rows of the lowest
      and of the top tier. */
  function Analyse(rows: seq<Record>, columns: set<Column>): Report
  {
    var lowest := LowestTier(rows);
    var top := TopTier(rows);
    var lo := Where(rows, HasKey(PriceTierOf, lowest));
    var hi := Where(rows, HasKey(PriceTierOf, top));
    Report(TierTpv(rows), lowest, top, SumBy(rows, Tpv),
           KpisOf(lo, columns), KpisOf(hi, columns),
           Mix(lo, PaymentMethodOf), Mix(lo, ProductOf), Mix(lo, AnticipationOf),
           CreditInstallmentsMix(lo), Mix(lo, WeekdayOf),
           Mix(hi, PaymentMethodOf), Mix(hi, ProductOf), Mix(hi, AnticipationOf))
  }

  /** The TPV compared for the lowest tier is the smallest tier TPV and the one
      for the top tier the largest; with no tier at all both are 0. */
  lemma AnalyseTiers(rows: seq<Record>, columns: set<Column>)
    ensures var rep := Analyse(rows, columns);
            var t := TpvBy(rows, PriceTierOf);
            && (t != [] ==> forall p :: p in t ==> rep.lo.tpv <= p.1 <= rep.hi.tpv)
            && (t != [] ==> (rep.lowest, rep.lo.tpv) in t && (rep.top, rep.hi.tpv) in t)
            && (t == [] ==> rep.lo.tpv == 0.0 && rep.hi.tpv == 0.0)
  {
    var rep := Analyse(rows, columns);
    var t := TpvBy(rows, PriceTierOf);
    var s := TierTpv(rows);
    TierExtremes(rows);
    TpvBySums(rows, PriceTierOf);
    if t != [] {
      assert s[0] in multiset(t) && s[|s| - 1] in multiset(t);
      assert s[0] in t && s[|s| - 1] in t;
      assert rep.lo.tpv == s[0].1 && rep.hi.tpv == s[|s| - 1].1;
      assert (rep.lowest, rep.lo.tpv) == s[0] && (rep.top, rep.hi.tpv) == s[|s| - 1];
    } else {
      WhereOfWhere(rows, Keyed(PriceTierOf), HasKey(PriceTierOf, Text("")));
    }
  }

  // ---------- hypotheses (lines 111-126) ----------

  /** The five rules, in the order they are tried, and the fallback. */
  datatype Hypothesis = LowTicket | FewInstallments | InstantMethods | OfflineProducts | WeakWeekend | NoPattern

  /** The position of a hypothesis in the list. */
  function Rank(h: Hypothesis): nat
  {
    match h
    case LowTicket => 0
    case FewInstallments => 1
    case InstantMethods => 2
    case OfflineProducts => 3
    case WeakWeekend => 4
    case NoPattern => 5
  }

  /** Line 115: the installments value as an integer. */
  function InstKey(m: MixRow): real { TruncZero(Num(m.key)) as real }

  /** The share of the lines whose key is one of `keys`. */
  function ShareIn(keys: set<Cell>): MixRow -> real
  {
    (x: MixRow) => if x.key in keys then x.share else 0.0
  }

  /** Whether a rule fires on the report (lines 113, 115-116, 118, 120, 122). */
  predicate Fires(rep: Report, h: Hypothesis)
  {
    match h
    case LowTicket => rep.lo.avgTicket < 0.6 * rep.hi.avgTicket
    case FewInstallments =>
      rep.loInstallments != [] && SortBy(rep.loInstallments, InstKey)[0].share > 0.6
    case InstantMethods =>
      rep.loPm != [] && SumBy(rep.loPm, ShareIn({Text("pix"), Text("debit"), Text("bank_slip")})) > 0.6
    case OfflineProducts =>
      rep.loProduct != [] && rep.loProduct[0].key in {Text("pos"), Text("tap")} && rep.loProduct[0].share > 0.8
    case WeakWeekend =>
      rep.loWeekday != [] && SumBy(rep.loWeekday, ShareIn({Text("Saturday"), Text("Sunday")})) < 0.2
    case NoPattern => false
  }

  /** One `if ...: hyp.append(...)` of lines 113-123: the rule's hypothesis is
      appended when it fires. */
  method AppendIfFires(hyp: seq<Hypothesis>, fires: Hypothesis -> bool, h: Hypothesis)
    returns (hyp': seq<Hypothesis>)
    requires h != NoPattern
    requires forall x :: x in hyp ==> x != NoPattern && Rank(x) < Rank(h)
    requires forall i, j :: 0 <= i < j < |hyp| ==> Rank(hyp[i]) < Rank(hyp[j])
    ensures forall x :: x in hyp' <==> x in hyp || (x == h && fires(h))
    ensures forall i, j :: 0 <= i < j < |hyp'| ==> Rank(hyp'[i]) < Rank(hyp'[j])
  {
    hyp' := hyp;
    if fires(h) {
      hyp' := hyp + [h];
    }
  }

  /** Lines 112-126: the rules that fire, in order; the fallback alone when none
      does. The list is never empty. */
  method Hypotheses(fires: Hypothesis -> bool) returns (hyp: seq<Hypothesis>)
    ensures hyp != []
    ensures forall h :: h != NoPattern ==> (h in hyp <==> fires(h))
    ensures NoPattern in hyp <==> forall h :: h != NoPattern ==> !fires(h)
    ensures NoPattern in hyp ==> hyp == [NoPattern]
    ensures forall i, j :: 0 <= i < j < |hyp| ==> Rank(hyp[i]) < Rank(hyp[j])
  {
    hyp := [];
    hyp := AppendIfFires(hyp, fires, LowTicket);
    hyp := AppendIfFires(hyp, fires, FewInstallments);
    hyp := AppendIfFires(hyp, fires, InstantMethods);
    hyp := AppendIfFires(hyp, fires, OfflineProducts);
    hyp := AppendIfFires(hyp, fires, WeakWeekend);
    assert hyp != [] ==> hyp[0] in hyp;
    if hyp == [] {
      hyp := hyp + [NoPattern];
    }
  }

  /** The whole script on a frame: clean it in place, compare the tiers and list
      the hypotheses; a file without a required column stops it (KeyError). */
  method Run(df: Frame, parse: string -> Option<real>, toDate: Cell -> Cell, dayName: Cell -> Cell)
    returns (ok: bool, rep: Report, hyp: seq<Hypothesis>)
    modifies df, df.rows
    ensures df.rows == old(df.rows)
    ensures ok <==> Required <= old(df.columns)
    ensures ok ==> forall i :: 0 <= i < df.rows.Length ==>
              df.rows[i] == CleanRow(parse, toDate, dayName, old(df.columns), old(df.rows[i]))
    ensures ok ==> rep == Analyse(df.rows[..], old(df.columns)) && hyp != []
    ensures ok ==> forall h :: h != NoPattern ==> (h in hyp <==> Fires(rep, h))
    ensures ok ==> (NoPattern in hyp <==> forall h :: h != NoPattern ==> !Fires(rep, h))
    ensures ok ==> (NoPattern in hyp ==> hyp == [NoPattern])
    ensures ok ==> forall i, j :: 0 <= i < j < |hyp| ==> Rank(hyp[i]) < Rank(hyp[j])
    ensures !ok ==> hyp == []
  {
    rep := Analyse([], {});
    if !(Required <= df.columns) {
      return false, rep, [];
    }
    var cols := df.columns;
    ok := Clean(df, parse, toDate, dayName);
    rep := Analyse(df.rows[..], cols);
    hyp := Hypotheses(h => Fires(rep, h));
  }
}
