/** The one-off data fix (src/fix_payment_method.py): on rows whose anticipation
    method is some spelling of Pix or bank slip, the payment method is rewritten
    to the canonical name of that channel. */
module FixPaymentMethod {
  import opened Text
  import opened Frames
  import opened Reporting

  /** The lower-cased anticipation methods the mask selects. */
  const MaskSpellings: set<string> := {"pix", "bank slip", "bankslip", "bank_slip"}

  /** The spellings `canon` recognises as bank slip (one more than the mask). */
  const BankSlipSpellings: set<string> := {"bank slip", "bankslip", "bank_slip", "bank  slip"}

  /** `canon(x)`: any case or padding of "pix" becomes "Pix", of a bank-slip
      spelling "Bank slip"; anything else is returned as given, unstripped. */
  function Canon(x: string): string
  {
    var s := Lower(Trim(x));
    if s == "pix" then "Pix"
    else if s in BankSlipSpellings then "Bank slip"
    else x
  }

  /** `canon` gives one of the two canonical names exactly when the stripped,
      lower-cased input is a spelling it knows, and the input itself otherwise. */
  lemma CanonCases(x: string)
    ensures Canon(x) == "Pix" || Canon(x) == "Bank slip" || Canon(x) == x
    ensures (Canon(x) == "Pix" && x != "Pix") ==> Lower(Trim(x)) == "pix"
    ensures (Canon(x) == "Bank slip" && x != "Bank slip") ==> Lower(Trim(x)) in BankSlipSpellings
    ensures Lower(Trim(x)) == "pix" ==> Canon(x) == "Pix"
    ensures Lower(Trim(x)) in BankSlipSpellings ==> Canon(x) == "Bank slip"
  {
  }

  lemma CanonOfPix()
    ensures Lower(Trim("Pix")) == "pix"
  {
    TrimOfTrimmed("Pix");
    assert Lower("Pix")[0] == 'p';
  }

  lemma CanonOfBankSlip()
    ensures Lower(Trim("Bank slip")) == "bank slip"
  {
    assert Trim("Bank slip") == "Bank slip" by {
      TrimOfTrimmed("Bank slip");
    }
    LowerOfBankSlip();
  }

  lemma LowerOfBankSlip()
    ensures Lower("Bank slip") == "bank slip"
  {
    assert Lower("Bank slip")[0] == 'b';
  }

  lemma PaddedNamesAreTrimmed()
    ensures Trim("Pix") == "Pix" && Trim("Bank slip") == "Bank slip"
  {
    TrimOfTrimmed("Pix");
    TrimOfTrimmed("Bank slip");
  }

  /** `canon` is idempotent. */
  lemma CanonIdempotent(x: string)
    ensures Canon(Canon(x)) == Canon(x)
  {
    var s := Lower(Trim(x));
    if s == "pix" {
      CanonOfPix();
    } else if s in BankSlipSpellings {
      CanonOfBankSlip();
    }
  }

  /** Every spelling the mask selects is one `canon` recognises, so a masked row
      always receives "Pix" or "Bank slip". */
  lemma MaskedSpellingsAreCanonical(a: string)
    requires Trimmed(a) && Lower(a) in MaskSpellings
    ensures Canon(a) == "Pix" || Canon(a) == "Bank slip"
  {
    TrimOfTrimmed(a);
  }

  /** Line 21: the stripped anticipation method, lower-cased, is one of the mask's spellings. */
  predicate FixMask(r: Record)
  {
    r.anticipationMethod.Text? && Lower(r.anticipationMethod.s) in MaskSpellings
  }

  /** The value written on a masked row. */
  function CanonicalChannel(r: Record): Cell
  {
    if r.anticipationMethod.Text? then Text(Canon(r.anticipationMethod.s)) else Missing
  }

  /** Lines 16-17: both columns `fillna("")` and stripped. */
  function Stripped(r: Record): Record
  {
    r.(anticipationMethod := StripCell(FillBlank(r.anticipationMethod)),
       paymentMethod := StripCell(FillBlank(r.paymentMethod)))
  }

  /** Line 32 on one (stripped) row. */
  function Rewrite(s: Record): Record
  {
    if FixMask(s) then s.(paymentMethod := CanonicalChannel(s)) else s
  }

  /** One row as the script leaves it. */
  function FixRow(r: Record): Record
  {
    Rewrite(Stripped(r))
  }

  /** Masked rows get exactly "Pix" or "Bank slip"; every other row keeps its
      stripped payment method; no column besides the two is touched. */
  lemma FixRowMeaning(r: Record)
    requires !r.anticipationMethod.Number? && !r.paymentMethod.Number?
    ensures FixRow(r).anticipationMethod == Text(Trim(FillBlank(r.anticipationMethod).s))
    ensures FixMask(FixRow(r)) ==> FixRow(r).paymentMethod in {Text("Pix"), Text("Bank slip")}
    ensures !FixMask(FixRow(r)) ==> FixRow(r).paymentMethod == Text(Trim(FillBlank(r.paymentMethod).s))
    ensures FixRow(r).(anticipationMethod := r.anticipationMethod, paymentMethod := r.paymentMethod) == r
  {
    var s := Stripped(r);
    if FixMask(s) {
      MaskedSpellingsAreCanonical(s.anticipationMethod.s);
    }
  }

  /** A cell that already holds trimmed text is left as it is by lines 16-17. */
  lemma StripCellOfTrimmed(c: Cell)
    requires c.Text? && Trimmed(c.s)
    ensures StripCell(FillBlank(c)) == c
  {
    TrimOfTrimmed(c.s);
  }

  /** Running the fix on its own output changes nothing. */
  lemma FixRowIdempotent(r: Record)
    requires !r.anticipationMethod.Number? && !r.paymentMethod.Number?
    ensures FixRow(FixRow(r)) == FixRow(r)
  {
    var f := FixRow(r);
    FixRowMeaning(r);
    StripCellOfTrimmed(f.anticipationMethod);
    if FixMask(f) {
      PaddedNamesAreTrimmed();
      StripCellOfTrimmed(f.paymentMethod);
    } else {
      TrimIdempotent(FillBlank(r.paymentMethod).s);
      StripCellOfTrimmed(f.paymentMethod);
    }
    assert Stripped(f) == f;
  }

  /** The script on a frame, in place: strip both columns, rewrite the masked
      payment methods, and report how many rows the mask selected. A file without
      one of the two columns stops the script and is left as it was. */
  method Fix(df: Frame) returns (ok: bool, updated: nat)
    modifies df, df.rows
    ensures df.rows == old(df.rows)
    ensures ok <==> AnticipationMethod in old(df.columns) && PaymentMethod in old(df.columns)
    ensures ok ==> df.columns == old(df.columns)
    ensures ok ==> forall i :: 0 <= i < df.rows.Length ==> df.rows[i] == FixRow(old(df.rows[i]))
    ensures ok ==> updated == CountWhere(df.rows[..], FixMask)
    ensures !ok ==> df.columns == old(df.columns) && df.rows[..] == old(df.rows[..]) && updated == 0
  {
    if !(AnticipationMethod in df.columns && PaymentMethod in df.columns) {
      return false, 0;
    }
    FixFrame(df);
    updated := df.Count(FixMask);
    return true, updated;
  }

  /** Lines 16-32, in place. */
  method FixFrame(df: Frame)
    modifies df, df.rows
    requires AnticipationMethod in df.columns && PaymentMethod in df.columns
    ensures df.rows == old(df.rows) && df.columns == old(df.columns)
    ensures forall i :: 0 <= i < df.rows.Length ==> df.rows[i] == FixRow(old(df.rows[i]))
  {
    ghost var s0 := df.rows[..];
    StripFrame(df);
    ghost var s1 := df.rows[..];
    RewriteFrame(df);
    assert forall i :: 0 <= i < |s0| ==> df.rows[i] == Rewrite(s1[i]);
  }

  /** Lines 16-17, in place. */
  method StripFrame(df: Frame)
    modifies df, df.rows
    ensures df.rows == old(df.rows)
    ensures df.columns == old(df.columns) + {AnticipationMethod, PaymentMethod}
    ensures forall i :: 0 <= i < df.rows.Length ==> df.rows[i] == Stripped(old(df.rows[i]))
  {
    df.Assign(AnticipationMethod, r => StripCell(FillBlank(Get(r, AnticipationMethod))));
    df.Assign(PaymentMethod, r => StripCell(FillBlank(Get(r, PaymentMethod))));
  }

  /** Line 32, in place: `df.loc[mask, "payment_method"] = ...apply(canon)`. */
  method RewriteFrame(df: Frame)
    modifies df.rows
    ensures forall i :: 0 <= i < df.rows.Length ==> df.rows[i] == Rewrite(old(df.rows[i]))
  {
    df.AssignWhere(PaymentMethod, FixMask, CanonicalChannel);
  }
}
