/** The data frames the analysis scripts work on: a set of columns and an array of
    rows, each row a record from column to cell. The scripts change frames in
    place, one column at a time (`df[c] = ...`) or on the rows a mask selects
    (`df.loc[mask, c] = ...`). */
module Frames {
  import opened Wrappers

  datatype Column =
    | Day | Weekday | Entity | Product | PaymentMethod | AnticipationMethod
    | Installments | AmountTransacted | QuantityTransactions | QuantityOfMerchants
    | PriceTier | MonthlyTier | AvgTicketRow | FeeRate | FeeRevenue | EffectiveFeeRate

  /** A cell: missing (NaN/None), text, or a number. */
  datatype Cell = Missing | Text(s: string) | Number(x: real)

  /** One row: a cell per column; a column the file does not have reads as missing. */
  datatype Record = Record(
    day: Cell, weekday: Cell, entity: Cell, product: Cell, paymentMethod: Cell,
    anticipationMethod: Cell, installments: Cell, amountTransacted: Cell,
    quantityTransactions: Cell, quantityOfMerchants: Cell, priceTier: Cell,
    monthlyTier: Cell, avgTicketRow: Cell, feeRate: Cell, feeRevenue: Cell,
    effectiveFeeRate: Cell)

  /** `row[c]`. */
  function Get(r: Record, c: Column): Cell
  {
    match c
    case Day => r.day
    case Weekday => r.weekday
    case Entity => r.entity
    case Product => r.product
    case PaymentMethod => r.paymentMethod
    case AnticipationMethod => r.anticipationMethod
    case Installments => r.installments
    case AmountTransacted => r.amountTransacted
    case QuantityTransactions => r.quantityTransactions
    case QuantityOfMerchants => r.quantityOfMerchants
    case PriceTier => r.priceTier
    case MonthlyTier => r.monthlyTier
    case AvgTicketRow => r.avgTicketRow
    case FeeRate => r.feeRate
    case FeeRevenue => r.feeRevenue
    case EffectiveFeeRate => r.effectiveFeeRate
  }

  /** The row with cell `c` replaced by `v`. */
  function Set(r: Record, c: Column, v: Cell): (r': Record)
    ensures Get(r', c) == v
  {
    match c
    case Day => r.(day := v)
    case Weekday => r.(weekday := v)
    case Entity => r.(entity := v)
    case Product => r.(product := v)
    case PaymentMethod => r.(paymentMethod := v)
    case AnticipationMethod => r.(anticipationMethod := v)
    case Installments => r.(installments := v)
    case AmountTransacted => r.(amountTransacted := v)
    case QuantityTransactions => r.(quantityTransactions := v)
    case QuantityOfMerchants => r.(quantityOfMerchants := v)
    case PriceTier => r.(priceTier := v)
    case MonthlyTier => r.(monthlyTier := v)
    case AvgTicketRow => r.(avgTicketRow := v)
    case FeeRate => r.(feeRate := v)
    case FeeRevenue => r.(feeRevenue := v)
    case EffectiveFeeRate => r.(effectiveFeeRate := v)
  }

  /** Setting one cell leaves every other cell as it was. */
  lemma SetKeepsOthers(r: Record, c: Column, v: Cell, d: Column)
    requires d != c
    ensures Get(Set(r, c, v), d) == Get(r, d)
  {
  }

  /** The number in a cell, 0 for a cell that holds none (after coercion every
      numeric cell holds one). */
  function Num(c: Cell): real
  {
    if c.Number? then c.x else 0.0
  }

  /** `pd.to_numeric(col, errors="coerce").fillna(0)`. `parse` is pandas' reading
      of a text as a number (None when it is not one). */
  function ToNumber(parse: string -> Option<real>, c: Cell): (d: Cell)
    ensures d.Number?
    ensures c.Number? ==> d == c
    ensures c == Missing ==> d == Number(0.0)
    ensures c.Text? && parse(c.s) == None ==> d == Number(0.0)
  {
    match c
    case Missing => Number(0.0)
    case Number(_) => c
    case Text(s) => Number(parse(s).GetOr(0.0))
  }

  /** The rows a mask selects, in order. */
  function Where(rows: seq<Record>, mask: Record -> bool): (sel: seq<Record>)
    ensures |sel| <= |rows|
    ensures forall r :: r in sel <==> r in rows && mask(r)
  {
    if rows == [] then []
    else
      var last := rows[|rows| - 1];
      Where(rows[..|rows| - 1], mask) + (if mask(last) then [last] else [])
  }

  /** `mask.sum()`. */
  function CountWhere(rows: seq<Record>, mask: Record -> bool): (n: nat)
  {
    if rows == [] then 0
    else CountWhere(rows[..|rows| - 1], mask) + (if mask(rows[|rows| - 1]) then 1 else 0)
  }

  /** The count of a mask is the number of rows it selects, and a mask and its
      complement share the rows between them. */
  lemma {:induction false} CountWhereMeaning(rows: seq<Record>, mask: Record -> bool)
    ensures CountWhere(rows, mask) == |Where(rows, mask)|
    ensures CountWhere(rows, mask) + CountWhere(rows, r => !mask(r)) == |rows|
  {
    if rows != [] {
      CountWhereMeaning(rows[..|rows| - 1], mask);
    }
  }

  /** Filtering by an outer mask and then by an inner one that implies it gives
      the rows the inner mask selects. */
  lemma {:induction false} WhereOfWhere(rows: seq<Record>, outer: Record -> bool, inner: Record -> bool)
    requires forall r :: inner(r) ==> outer(r)
    ensures Where(Where(rows, outer), inner) == Where(rows, inner)
  {
    if rows != [] {
      var init := rows[..|rows| - 1];
      var last := rows[|rows| - 1];
      WhereOfWhere(init, outer, inner);
      var wo := Where(rows, outer);
      if outer(last) {
        assert wo == Where(init, outer) + [last];
        assert wo[..|wo| - 1] == Where(init, outer) && wo[|wo| - 1] == last;
        assert Where(wo, inner) == Where(Where(init, outer), inner) + (if inner(last) then [last] else []);
      } else {
        assert !inner(last);
        assert wo == Where(init, outer);
      }
    }
  }

  /** A mask every row meets selects them all. */
  lemma {:induction false} WhereAll(rows: seq<Record>, mask: Record -> bool)
    requires forall r :: r in rows ==> mask(r)
    ensures Where(rows, mask) == rows
  {
    if rows != [] {
      WhereAll(rows[..|rows| - 1], mask);
      assert rows[..|rows| - 1] + [rows[|rows| - 1]] == rows;
    }
  }

  class Frame {
    var columns: set<Column>
    var rows: array<Record>

    constructor (columns: set<Column>, rows: seq<Record>)
      ensures this.columns == columns && this.rows[..] == rows && fresh(this.rows)
    {
      this.columns := columns;
      this.rows := new Record[|rows|](i requires 0 <= i < |rows| => rows[i]);
    }

    /** `df[c] = f(df)`, row by row: column `c` of every row becomes `f` of that row,
        and nothing else changes. */
    method Assign(c: Column, f: Record -> Cell)
      modifies this, rows
      ensures rows == old(rows) && columns == old(columns) + {c}
      ensures forall i :: 0 <= i < rows.Length ==> rows[i] == Set(old(rows[i]), c, f(old(rows[i])))
    {
      columns := columns + {c};
      for i := 0 to rows.Length
        invariant rows == old(rows) && columns == old(columns) + {c}
        invariant forall j :: 0 <= j < i ==> rows[j] == Set(old(rows[j]), c, f(old(rows[j])))
        invariant forall j :: i <= j < rows.Length ==> rows[j] == old(rows[j])
      {
        rows[i] := Set(rows[i], c, f(rows[i]));
      }
    }

    /** `df.loc[mask, c] = f(df.loc[mask])`: only the rows the mask selects get a new
        cell in column `c`; every other row is unchanged. */
    method AssignWhere(c: Column, mask: Record -> bool, f: Record -> Cell)
      modifies rows
      ensures forall i :: 0 <= i < rows.Length ==>
                rows[i] == if mask(old(rows[i])) then Set(old(rows[i]), c, f(old(rows[i]))) else old(rows[i])
    {
      for i := 0 to rows.Length
        invariant forall j :: 0 <= j < i ==>
                    rows[j] == if mask(old(rows[j])) then Set(old(rows[j]), c, f(old(rows[j]))) else old(rows[j])
        invariant forall j :: i <= j < rows.Length ==> rows[j] == old(rows[j])
      {
        if mask(rows[i]) {
          rows[i] := Set(rows[i], c, f(rows[i]));
        }
      }
    }

    /** `int(mask.sum())`: the number of rows the mask selects. */
    method Count(mask: Record -> bool) returns (n: nat)
      ensures n == CountWhere(rows[..], mask)
    {
      n := 0;
      for i := 0 to rows.Length
        invariant n == CountWhere(rows[..i], mask)
      {
        assert rows[..i + 1][..i] == rows[..i];
        if mask(rows[i]) {
          n := n + 1;
        }
      }
      assert rows[..rows.Length] == rows[..];
    }
  }
}
