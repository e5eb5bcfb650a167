/** Character-level string operations used by the normalisation rules of every
    script: Python's `str.strip()`, `str.lower()`, `str.replace(" ", "_")` and
    `str.replace(" ", "")`. Lowering covers ASCII letters only. */
module Text {

  /** Python's `str.isspace()` for one character: the characters `strip()` removes. */
  predicate IsSpace(c: char)
  {
    c == ' ' || ('\t' <= c <= '\r') || ('\U{1C}' <= c <= '\U{1F}')
    || c == '\U{85}' || c == '\U{A0}' || c == '\U{1680}'
    || ('\U{2000}' <= c <= '\U{200A}') || c == '\U{2028}' || c == '\U{2029}'
    || c == '\U{202F}' || c == '\U{205F}' || c == '\U{3000}'
  }

  predicate IsUpper(c: char) { 'A' <= c <= 'Z' }

  function LowerChar(c: char): (d: char)
    ensures !IsUpper(d)
    ensures IsSpace(d) <==> IsSpace(c)
    ensures d == c || IsUpper(c)
  {
    if IsUpper(c) then (c as int - 'A' as int + 'a' as int) as char else c
  }

  /** `str.lower()` (ASCII letters). */
  function Lower(s: string): (r: string)
    ensures |r| == |s|
    ensures forall i :: 0 <= i < |s| ==> r[i] == LowerChar(s[i])
  {
    seq(|s|, i requires 0 <= i < |s| => LowerChar(s[i]))
  }

  predicate NoUpper(s: string) { forall i :: 0 <= i < |s| ==> !IsUpper(s[i]) }

  /** Lowering leaves text that has no upper-case letter as it is, so it is idempotent. */
  lemma LowerOfLower(s: string)
    requires NoUpper(s)
    ensures Lower(s) == s
  {
    assert forall i :: 0 <= i < |s| ==> Lower(s)[i] == s[i];
  }

  /** The number of white-space characters `strip()` cuts from the front. */
  function LeadingSpaces(s: string): (n: nat)
    ensures n <= |s|
    ensures forall i :: 0 <= i < n ==> IsSpace(s[i])
    ensures n < |s| ==> !IsSpace(s[n])
  {
    if s == [] || !IsSpace(s[0]) then 0 else 1 + LeadingSpaces(s[1..])
  }

  /** The number of white-space characters `strip()` cuts from the back. */
  function TrailingSpaces(s: string): (n: nat)
    ensures n <= |s|
    ensures forall i :: |s| - n <= i < |s| ==> IsSpace(s[i])
    ensures n < |s| ==> !IsSpace(s[|s| - n - 1])
  {
    if s == [] || !IsSpace(s[|s| - 1]) then 0 else 1 + TrailingSpaces(s[..|s| - 1])
  }

  /** Text with no white space at either end: what `strip()` produces. */
  predicate Trimmed(s: string)
  {
    s == [] || (!IsSpace(s[0]) && !IsSpace(s[|s| - 1]))
  }

  /** `str.strip()`: the text between the leading and the trailing white space. */
  function Trim(s: string): (r: string)
    ensures Trimmed(r)
  {
    var a := LeadingSpaces(s);
    s[a..|s| - TrailingSpaces(s[a..])]
  }

  /** What `strip()` keeps is an infix of `s` that starts after its leading white
      space, and everything it cuts from either end is white space. */
  lemma TrimMeaning(s: string)
    ensures LeadingSpaces(s) + |Trim(s)| <= |s|
    ensures Trim(s) == s[LeadingSpaces(s)..LeadingSpaces(s) + |Trim(s)|]
    ensures forall i :: 0 <= i < LeadingSpaces(s) ==> IsSpace(s[i])
    ensures forall i :: LeadingSpaces(s) + |Trim(s)| <= i < |s| ==> IsSpace(s[i])
  {
    var a := LeadingSpaces(s);
    var rest := s[a..];
    var t := TrailingSpaces(rest);
    var e := |s| - t;
    assert Trim(s) == s[a..e];
    forall i | e <= i < |s| ensures IsSpace(s[i]) {
      assert s[i] == rest[i - a];
    }
  }

  /** `strip()` leaves trimmed text unchanged, so stripping twice is stripping once. */
  lemma TrimOfTrimmed(s: string)
    requires Trimmed(s)
    ensures Trim(s) == s
  {
    assert LeadingSpaces(s) == 0;
    assert s[0..] == s;
  }

  lemma TrimIdempotent(s: string)
    ensures Trim(Trim(s)) == Trim(s)
  {
    TrimOfTrimmed(Trim(s));
  }

  predicate AllSpace(s: string) { forall i :: 0 <= i < |s| ==> IsSpace(s[i]) }

  lemma {:induction false} LeadingSpacesAfter(p: string, z: string)
    requires AllSpace(p)
    ensures LeadingSpaces(p + z) == |p| + LeadingSpaces(z)
  {
    if p != [] {
      assert (p + z)[0] == p[0];
      assert (p + z)[1..] == p[1..] + z;
      LeadingSpacesAfter(p[1..], z);
    } else {
      assert p + z == z;
    }
  }

  lemma {:induction false} TrailingSpacesBefore(z: string, q: string)
    requires AllSpace(q)
    ensures TrailingSpaces(z + q) == TrailingSpaces(z) + |q|
  {
    if q != [] {
      assert (z + q)[|z + q| - 1] == q[|q| - 1];
      assert (z + q)[..|z + q| - 1] == z + q[..|q| - 1];
      TrailingSpacesBefore(z, q[..|q| - 1]);
    } else {
      assert z + q == z;
    }
  }

  /** `strip()` is determined by its result: text made of white space, then a
      trimmed core, then white space, strips to that core. */
  lemma TrimUnique(x: string, p: string, y: string, q: string)
    requires x == p + y + q && AllSpace(p) && AllSpace(q) && Trimmed(y)
    ensures Trim(x) == y
  {
    if y == [] {
      assert AllSpace(x) by {
        assert x == p + q;
      }
      TrimOfBlank(x);
    } else {
      TrimOfPadded(p + y + q, p, y, q);
    }
  }

  /** Text that is all white space strips to nothing. */
  lemma TrimOfBlank(x: string)
    requires AllSpace(x)
    ensures Trim(x) == []
  {
    LeadingSpacesAfter(x, []);
    assert x + [] == x;
  }

  lemma TrimOfPadded(x: string, p: string, y: string, q: string)
    requires x == p + y + q && AllSpace(p) && AllSpace(q) && y != [] && Trimmed(y)
    ensures Trim(x) == y
  {
    var z := y + q;
    assert x == p + z;
    assert LeadingSpaces(x) == |p| by {
      LeadingSpacesAfter(p, z);
      assert z[0] == y[0];
    }
    assert TrailingSpaces(x[|p|..]) == |q| by {
      assert x[|p|..] == z;
      TrailingSpacesBefore(y, q);
    }
    assert x[|p|..|x| - |q|] == y;
  }

  lemma LowerAppend(a: string, b: string)
    ensures Lower(a + b) == Lower(a) + Lower(b)
  {
    assert forall i :: 0 <= i < |a + b| ==> Lower(a + b)[i] == (Lower(a) + Lower(b))[i];
  }

  lemma LowerKeepsBlank(p: string)
    requires AllSpace(p)
    ensures AllSpace(Lower(p))
  {
    forall i | 0 <= i < |p| ensures IsSpace(Lower(p)[i]) {
      assert Lower(p)[i] == LowerChar(p[i]);
    }
  }

  lemma LowerKeepsTrimmed(y: string)
    requires Trimmed(y)
    ensures Trimmed(Lower(y))
  {
    if y != [] {
      assert Lower(y)[0] == LowerChar(y[0]);
      assert Lower(y)[|y| - 1] == LowerChar(y[|y| - 1]);
    }
  }

  /** Lowering then stripping (the order the scripts write) equals stripping then
      lowering, since lowering keeps every white-space character and creates none. */
  lemma StripLowerCommute(s: string)
    ensures Trim(Lower(s)) == Lower(Trim(s))
  {
    TrimMeaning(s);
    var a := LeadingSpaces(s);
    var y := Trim(s);
    var p, q := s[..a], s[a + |y|..];
    assert s == p + y + q;
    assert AllSpace(p) && AllSpace(q);
    LowerAppend(p, y);
    LowerAppend(p + y, q);
    LowerKeepsBlank(p);
    LowerKeepsBlank(q);
    LowerKeepsTrimmed(y);
    TrimUnique(Lower(s), Lower(p), Lower(y), Lower(q));
  }

  /** `str.replace(" ", "_")`. */
  function Underscored(s: string): (r: string)
    ensures |r| == |s|
    ensures forall i :: 0 <= i < |s| ==> r[i] == if s[i] == ' ' then '_' else s[i]
  {
    seq(|s|, i requires 0 <= i < |s| => if s[i] == ' ' then '_' else s[i])
  }

  predicate NoBlank(s: string) { forall i :: 0 <= i < |s| ==> s[i] != ' ' }

  /** `str.replace(" ", "")`: every space removed, everything else kept in order. */
  function WithoutSpaces(s: string): (r: string)
    ensures NoBlank(r)
    ensures |r| <= |s|
    ensures NoBlank(s) ==> r == s
  {
    if s == [] then []
    else if s[0] == ' ' then WithoutSpaces(s[1..])
    else [s[0]] + WithoutSpaces(s[1..])
  }

  /** Removing spaces works piece by piece. */
  lemma {:induction false} WithoutSpacesAppend(a: string, b: string)
    ensures WithoutSpaces(a + b) == WithoutSpaces(a) + WithoutSpaces(b)
  {
    if a == [] {
      assert a + b == b;
    } else {
      assert (a + b)[1..] == a[1..] + b;
      WithoutSpacesAppend(a[1..], b);
    }
  }
}
