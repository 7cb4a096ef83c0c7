/** Numbers and dashes in generated names. */
module Names {
  import opened Types

  lemma {:induction false} DecimalHasNoDash(n: nat)
    ensures '-' !in Decimal(n)
    decreases n
  {
    if n >= 10 { DecimalHasNoDash(n / 10); }
    assert "0123456789"[n % 10] != '-';
  }

  lemma DigitIsUnique(i: nat, j: nat)
    requires i < 10 && j < 10 && "0123456789"[i] == "0123456789"[j]
    ensures i == j
  {
  }

  lemma {:induction false} DecimalIsUnique(n: nat, m: nat)
    requires Decimal(n) == Decimal(m)
    ensures n == m
    decreases n
  {
    var d, e := Decimal(n), Decimal(m);
    assert d[|d| - 1] == "0123456789"[n % 10] && e[|e| - 1] == "0123456789"[m % 10];
    DigitIsUnique(n % 10, m % 10);
    assert (n < 10) == (|d| == 1) && (m < 10) == (|e| == 1) by {
      if n >= 10 { assert |Decimal(n / 10)| >= 1; }
      if m >= 10 { assert |Decimal(m / 10)| >= 1; }
    }
    if n >= 10 {
      assert d[..|d| - 1] == Decimal(n / 10) && e[..|e| - 1] == Decimal(m / 10);
      DecimalIsUnique(n / 10, m / 10);
    }
  }

  lemma LastDash(s: string, p: string, d: string)
    requires s == p + "-" + d && '-' !in d
    ensures |p| < |s| && s[|p|] == '-' && p == s[..|p|] && forall i :: |p| < i < |s| ==> s[i] != '-'
  {
    forall i | |p| < i < |s| ensures s[i] != '-' { assert s[i] == d[i - |p| - 1]; }
  }

  /** A name that ends in a dash and a number determines both parts. */
  lemma NumberedIsUnique(p: string, n: nat, q: string, m: nat)
    requires p + "-" + Decimal(n) == q + "-" + Decimal(m)
    ensures p == q && n == m
  {
    var s := p + "-" + Decimal(n);
    DecimalHasNoDash(n);
    DecimalHasNoDash(m);
    LastDash(s, p, Decimal(n));
    LastDash(s, q, Decimal(m));
    assert |p| == |q|;
    assert s[|p| + 1..] == Decimal(n) == Decimal(m);
    DecimalIsUnique(n, m);
  }
}
