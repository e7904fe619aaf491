/** Fixed-width decimal numbers and separators: what makes a printed key unambiguous. */
module Text {

  predicate IsDigit(c: char) { '0' <= c <= '9' }

  function DigitOf(d: nat): (c: char)
    requires d < 10
    ensures IsDigit(c) && c as int - '0' as int == d
  {
    ('0' as int + d) as char
  }

  function Decimal(n: nat): (s: string)
    ensures |s| > 0
    ensures forall i | 0 <= i < |s| :: IsDigit(s[i])
  {
    if n < 10 then [DigitOf(n)] else Decimal(n / 10) + [DigitOf(n % 10)]
  }

  function Zeros(k: nat): (s: string)
    ensures |s| == k && forall i | 0 <= i < k :: s[i] == '0'
  {
    seq(k, i => '0')
  }

  /** Python's `{n:0{width}d}`: at least `width` digits, padded with zeros. */
  function Padded(n: nat, width: nat): (s: string)
    ensures |s| > 0 && forall i | 0 <= i < |s| :: IsDigit(s[i])
  {
    var d := Decimal(n);
    if |d| < width then Zeros(width - |d|) + d else d
  }

  /** Reads a run of digits back. */
  function Value(s: string): int
  {
    if s == "" then 0 else Value(s[..|s| - 1]) * 10 + (s[|s| - 1] as int - '0' as int)
  }

  lemma {:induction false} DecimalValue(n: nat)
    ensures Value(Decimal(n)) == n
  {
    if n >= 10 {
      DecimalValue(n / 10);
      assert Decimal(n)[..|Decimal(n)| - 1] == Decimal(n / 10);
    } else {
      assert Value("") == 0;
      assert Decimal(n)[..|Decimal(n)| - 1] == "";
    }
  }

  lemma {:induction false} LeadingZeros(k: nat, s: string)
    ensures Value(Zeros(k) + s) == Value(s)
    decreases k, |s|
  {
    var t := Zeros(k) + s;
    if s != "" {
      assert t[..|t| - 1] == Zeros(k) + s[..|s| - 1];
      LeadingZeros(k, s[..|s| - 1]);
    } else if k > 0 {
      assert t[..|t| - 1] == Zeros(k - 1) + "";
      LeadingZeros(k - 1, "");
    }
  }

  /** Padding loses nothing: the number can be read back. */
  lemma PaddedValue(n: nat, width: nat)
    ensures Value(Padded(n, width)) == n
  {
    DecimalValue(n);
    var d := Decimal(n);
    if |d| < width { LeadingZeros(width - |d|, d); }
  }

  lemma PaddedInjective(m: nat, n: nat, width: nat)
    requires Padded(m, width) == Padded(n, width)
    ensures m == n
  {
    PaddedValue(m, width);
    PaddedValue(n, width);
  }

  predicate Free(s: string, c: char) { forall i | 0 <= i < |s| :: s[i] != c }

  lemma Separator(a: string, c: char, x: string)
    ensures var s := a + [c] + x;
            && s[|a|] == c && s[..|a|] == a && s[|a| + 1..] == x
            && (forall k | 0 <= k < |a| :: s[k] == a[k])
            && (forall k | |a| < k < |s| :: s[k] == x[k - |a| - 1])
  {
  }

  /** A string splits in only one way at its first separator. */
  lemma SplitFirst(a: string, x: string, b: string, y: string, c: char)
    requires Free(a, c) && Free(b, c)
    requires a + [c] + x == b + [c] + y
    ensures a == b && x == y
  {
    Separator(a, c, x);
    Separator(b, c, y);
    var s := a + [c] + x;
    assert forall k | 0 <= k < |a| :: s[k] != c;
    assert forall k | 0 <= k < |b| :: s[k] != c;
    assert |a| == |b|;
  }

  /** And in only one way at its last separator. */
  lemma SplitLast(a: string, x: string, b: string, y: string, c: char)
    requires Free(x, c) && Free(y, c)
    requires a + [c] + x == b + [c] + y
    ensures a == b && x == y
  {
    Separator(a, c, x);
    Separator(b, c, y);
    var s := a + [c] + x;
    assert forall k | |a| < k < |s| :: s[k] != c;
    assert forall k | |b| < k < |s| :: s[k] != c;
    assert |a| == |b|;
  }
}
