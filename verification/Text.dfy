/** Decimal text, bytewise string order and line splitting: what the wire hash
    and the counter key of common/beuptransfer are made of. */
module Text {

  const DIGITS := "0123456789"

  predicate IsDigit(c: char) { '0' <= c <= '9' }

  predicate AllDigits(s: string) { forall i :: 0 <= i < |s| ==> IsDigit(s[i]) }

  function Digit(d: nat): (c: char)
    requires d < 10
    ensures IsDigit(c)
  {
    DIGITS[d]
  }

  /** `%d` of a natural number. */
  function Decimal(n: nat): (s: string)
    ensures s != "" && AllDigits(s)
  {
    if n < 10 then [Digit(n)] else Decimal(n / 10) + [Digit(n % 10)]
  }

  /** The number a string of digits denotes; the inverse of `Decimal`. */
  function Value(s: string): nat
    requires AllDigits(s)
  {
    if s == "" then 0 else 10 * Value(s[..|s| - 1]) + (s[|s| - 1] as int - '0' as int)
  }

  lemma DigitValue(d: nat)
    requires d < 10
    ensures Digit(d) as int - '0' as int == d
  {
  }

  lemma {:induction false} DecimalRoundTrip(n: nat)
    ensures Value(Decimal(n)) == n
  {
    if n < 10 {
      DigitValue(n);
      assert [Digit(n)][..0] == "";
    } else {
      DigitValue(n % 10);
      DecimalRoundTrip(n / 10);
      assert Decimal(n)[..|Decimal(n)| - 1] == Decimal(n / 10);
    }
  }

  lemma DecimalInjective(m: nat, n: nat)
    requires Decimal(m) == Decimal(n)
    ensures m == n
  {
    DecimalRoundTrip(m);
    DecimalRoundTrip(n);
  }

  /** Bytewise order of Go strings (all text here is ASCII). */
  predicate Less(a: string, b: string) {
    b != "" && (a == "" || a[0] < b[0] || (a[0] == b[0] && Less(a[1..], b[1..])))
  }

  lemma {:induction false} LessTransitive(a: string, b: string, c: string)
    requires Less(a, b) && Less(b, c)
    ensures Less(a, c)
  {
    if a != "" && a[0] == b[0] && b[0] == c[0] {
      LessTransitive(a[1..], b[1..], c[1..]);
    }
  }

  lemma {:induction false} LessTotal(a: string, b: string)
    ensures Less(a, b) || Less(b, a) || a == b
  {
    if a != "" && b != "" && a[0] == b[0] {
      LessTotal(a[1..], b[1..]);
      if a[1..] == b[1..] {
        assert a == [a[0]] + a[1..] == b;
      }
    }
  }

  lemma {:induction false} LessIrreflexive(a: string)
    ensures !Less(a, a)
  {
    if a != "" { LessIrreflexive(a[1..]); }
  }

  /** A shared prefix does not matter to the order. */
  lemma {:induction false} LessAfterPrefix(p: string, a: string, b: string)
    ensures Less(p + a, p + b) <==> Less(a, b)
  {
    if p == "" {
      assert p + a == a && p + b == b;
    } else {
      LessAfterPrefix(p[1..], a, b);
      assert (p + a)[1..] == p[1..] + a && (p + b)[1..] == p[1..] + b;
    }
  }

  /** Between heads of equal length the tails do not matter. */
  lemma {:induction false} LessByHead(a: string, b: string, x: string, y: string)
    requires |a| == |b| && Less(a, b)
    ensures Less(a + x, b + y)
  {
    assert (a + x)[0] == a[0] && (b + y)[0] == b[0];
    if a[0] == b[0] {
      LessByHead(a[1..], b[1..], x, y);
      assert (a + x)[1..] == a[1..] + x && (b + y)[1..] == b[1..] + y;
    }
  }

  function Zeros(w: nat): (s: string)
    ensures |s| == w && AllDigits(s) && forall i :: 0 <= i < w ==> s[i] == '0'
  {
    seq(w, i => '0')
  }

  /** `%0wd` of a natural number. */
  function Padded(n: nat, w: nat): (s: string)
    ensures AllDigits(s) && |s| >= w
  {
    var d := Decimal(n);
    if |d| < w then Zeros(w - |d|) + d else d
  }

  function Power10(w: nat): (p: nat)
    ensures p >= 1
  {
    if w == 0 then 1 else 10 * Power10(w - 1)
  }

  lemma {:induction false} DecimalWidth(n: nat, w: nat)
    requires n < Power10(w) && w > 0
    ensures |Decimal(n)| <= w
  {
    if n >= 10 {
      assert Power10(1) == 10 * Power10(0);
      DecimalWidth(n / 10, w - 1);
    }
  }

  lemma {:induction false} ValueOfZeros(k: nat, d: string)
    requires AllDigits(d)
    ensures AllDigits(Zeros(k) + d) && Value(Zeros(k) + d) == Value(d)
  {
    var s := Zeros(k) + d;
    if d != "" {
      ValueOfZeros(k, d[..|d| - 1]);
      assert s[..|s| - 1] == Zeros(k) + d[..|d| - 1];
    } else if k > 0 {
      ValueOfZeros(k - 1, "");
      assert s[..|s| - 1] == Zeros(k - 1) + "";
    }
  }

  lemma {:induction false} ValueBound(s: string)
    requires AllDigits(s)
    ensures Value(s) < Power10(|s|)
  {
    if s != "" { ValueBound(s[..|s| - 1]); }
  }

  lemma Shifted(x: int, p: int, v: int, d: int)
    ensures 10 * (x * p + v) + d == x * (10 * p) + (10 * v + d)
  {
  }

  lemma {:induction false} ValueSplit(s: string)
    requires AllDigits(s) && s != ""
    ensures Value(s) == (s[0] as int - '0' as int) * Power10(|s| - 1) + Value(s[1..])
  {
    if |s| > 1 {
      var h := s[..|s| - 1];
      ValueSplit(h);
      assert h[1..] == s[1..][..|s| - 2];
      Shifted(s[0] as int - '0' as int, Power10(|s| - 2), Value(h[1..]), s[|s| - 1] as int - '0' as int);
    }
  }

  lemma LeadingDigit(x: int, y: int, p: nat, u: nat, v: nat)
    requires u < p && v < p
    ensures x < y ==> x * p + u < y * p + v
    ensures x * p + u < y * p + v ==> x <= y
  {
    if x < y {
      assert (x + 1) * p <= y * p;
    } else if y < x {
      assert (y + 1) * p <= x * p;
    }
  }

  /** Digit strings of one width are ordered as the numbers they denote. */
  lemma {:induction false} WidthOrder(a: string, b: string)
    requires AllDigits(a) && AllDigits(b) && |a| == |b|
    ensures Less(a, b) <==> Value(a) < Value(b)
  {
    if a != "" {
      WidthOrder(a[1..], b[1..]);
      ValueSplit(a);
      ValueSplit(b);
      ValueBound(a[1..]);
      ValueBound(b[1..]);
      LeadingDigit(a[0] as int - '0' as int, b[0] as int - '0' as int, Power10(|a| - 1), Value(a[1..]), Value(b[1..]));
    }
  }

  lemma PaddedOrder(m: nat, n: nat, w: nat)
    requires w > 0 && m < Power10(w) && n < Power10(w)
    ensures |Padded(m, w)| == |Padded(n, w)| == w
    ensures Less(Padded(m, w), Padded(n, w)) <==> m < n
    ensures Padded(m, w) == Padded(n, w) ==> m == n
  {
    DecimalWidth(m, w);
    DecimalWidth(n, w);
    ValueOfZeros(w - |Decimal(m)|, Decimal(m));
    ValueOfZeros(w - |Decimal(n)|, Decimal(n));
    DecimalRoundTrip(m);
    DecimalRoundTrip(n);
    assert Value(Padded(m, w)) == m && Value(Padded(n, w)) == n;
    WidthOrder(Padded(m, w), Padded(n, w));
  }

  /** A field that does not contain its terminator can be cut off uniquely. */
  lemma CutAt(sep: char, a: string, x: string, b: string, y: string)
    requires sep !in a && sep !in b
    requires a + [sep] + x == b + [sep] + y
    ensures a == b && x == y
  {
    var s := a + [sep] + x;
    assert s[|a|] == sep && s[|b|] == sep;
    assert forall i :: 0 <= i < |a| ==> s[i] == a[i];
    assert forall i :: 0 <= i < |b| ==> s[i] == b[i];
    assert |a| == |b|;
    assert a == s[..|a|] == b;
    assert x == s[|a| + 1..] == y;
  }

  predicate IsHexDigit(c: char) { '0' <= c <= '9' || 'a' <= c <= 'f' }

  /** common/beuptransfer/outbox.go validHex: canonical lower-case hex of `bytes` bytes. */
  predicate ValidHex(s: string, bytes: nat) {
    |s| == 2 * bytes && forall i :: 0 <= i < |s| ==> IsHexDigit(s[i])
  }
}
