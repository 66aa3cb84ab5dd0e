/** Small value types and functions shared by the models. */
module Common {

  datatype Option<+T> = None | Some(value: T) {
    function GetOr(default: T): T {
      match this
      case Some(v) => v
      case None => default
    }
  }

  datatype Result<+T, +E> = Ok(value: T) | Err(error: E)

  function Max(a: real, b: real): real { if a >= b then a else b }

  function Min(a: real, b: real): real { if a <= b then a else b }

  function Abs(a: real): real { if a < 0.0 then -a else a }

  function MinNat(a: nat, b: nat): nat { if a <= b then a else b }

  /** What `trim` takes off. */
  predicate IsSpace(c: char) {
    c in " \t\n\r\U{000B}\U{000C}\U{00A0}\U{FEFF}\U{2028}\U{2029}\U{1680}\U{202F}\U{205F}\U{3000}"
    || '\U{2000}' <= c <= '\U{200A}'
  }

  function TrimStart(s: string): (r: string)
    ensures |r| <= |s|
  {
    if s != "" && IsSpace(s[0]) then TrimStart(s[1..]) else s
  }

  function TrimEnd(s: string): (r: string)
    ensures |r| <= |s|
  {
    if s != "" && IsSpace(s[|s| - 1]) then TrimEnd(s[..|s| - 1]) else s
  }

  // ---- Products of reals ----

  lemma MulMono(x: real, y: real, z: real)
    requires x <= y && 0.0 <= z
    ensures x * z <= y * z
  {
    assert (y - x) * z >= 0.0;
  }

  lemma PositiveProduct(a: real, b: real)
    requires 0.0 < a && 0.0 < b
    ensures 0.0 < a * b
  {
  }

  lemma PositiveFactor(a: real, x: real)
    requires 0.0 < a && 0.0 < a * x
    ensures 0.0 < x
  {
    assert x <= 0.0 ==> a * x <= 0.0;
  }

  /** `x` in a coordinate system enlarged by `k`. Glue lemmas hide the product behind this name. */
  function Scale(k: real, x: real): real { k * x }

  lemma ScaleOrder(k: real, x: real, y: real)
    requires k > 0.0
    ensures Scale(k, x) <= Scale(k, y) <==> x <= y
    ensures Scale(k, x) == Scale(k, y) <==> x == y
    ensures Scale(k, 0.0) == 0.0
  {
    assert x > y ==> k * (x - y) > 0.0;
    assert x < y ==> k * (y - x) > 0.0;
  }

  lemma ScaleLinear(k: real, x: real, y: real)
    ensures Scale(k, x + y) == Scale(k, x) + Scale(k, y)
    ensures Scale(k, x - y) == Scale(k, x) - Scale(k, y)
    ensures Scale(k, x / 2.0) == Scale(k, x) / 2.0
  {
  }

  lemma ScaleProduct(k: real, x: real, y: real)
    ensures Scale(k, x) * y == Scale(k, x * y) && x * Scale(k, y) == Scale(k, x * y)
  {
    assert k * x * y == k * (x * y);
    assert x * (k * y) == k * (x * y);
  }

  /** A ratio of two lengths is scale-free. */
  lemma ScaleRatio(k: real, x: real, y: real)
    requires k > 0.0 && y != 0.0
    ensures Scale(k, y) != 0.0 && Scale(k, x) / Scale(k, y) == x / y
    ensures Scale(k, x) / y == Scale(k, x / y)
  {
    ScaleOrder(k, y, 0.0);
    var r := x / y;
    assert r * y == x;
    assert r * (k * y) == k * (r * y);
    assert (k * r) * y == k * x;
  }

  lemma ScaleCompose(k: real, a: real, x: real)
    ensures Scale(a, Scale(k, x)) == Scale(k, Scale(a, x))
    ensures Scale(Scale(k, a), x) == Scale(k, Scale(a, x))
  {
  }

  lemma ScaleBounds(k: real, x: real, y: real)
    requires k > 0.0
    ensures Max(Scale(k, x), Scale(k, y)) == Scale(k, Max(x, y))
    ensures Min(Scale(k, x), Scale(k, y)) == Scale(k, Min(x, y))
  {
    ScaleOrder(k, x, y);
    ScaleOrder(k, y, x);
  }

  // ---- Decimal rendering of natural numbers, as string interpolation writes them ----

  predicate IsDigit(c: char) { '0' <= c <= '9' }

  function DigitChar(d: nat): (c: char)
    requires d < 10
    ensures IsDigit(c)
  {
    ('0' as int + d) as char
  }

  function DigitValue(c: char): (d: nat)
    requires IsDigit(c)
    ensures d < 10
  {
    c as int - '0' as int
  }

  function Decimal(n: nat): (s: string)
    ensures |s| >= 1 && forall c :: c in s ==> IsDigit(c)
  {
    if n < 10 then [DigitChar(n)] else Decimal(n / 10) + [DigitChar(n % 10)]
  }

  /** The number a digit string denotes; leading zeros are allowed. */
  function DecimalValue(s: string): nat
    requires forall c :: c in s ==> IsDigit(c)
  {
    if s == [] then 0 else 10 * DecimalValue(s[..|s| - 1]) + DigitValue(s[|s| - 1])
  }

  lemma {:induction false} DecimalRoundTrip(n: nat)
    ensures DecimalValue(Decimal(n)) == n
  {
    if n < 10 {
      assert DecimalValue([]) == 0;
      assert Decimal(n)[..0] == [];
    } else {
      DecimalRoundTrip(n / 10);
      assert Decimal(n)[..|Decimal(n)| - 1] == Decimal(n / 10);
    }
  }

  lemma DecimalInjective(m: nat, n: nat)
    requires Decimal(m) == Decimal(n)
    ensures m == n
  {
    DecimalRoundTrip(m);
    DecimalRoundTrip(n);
  }

  /** A digit-free separator determines where the number after it begins. */
  lemma {:induction false} SplitAtLastSeparator(p: string, q: string, sep: char, s: string, t: string)
    requires !IsDigit(sep)
    requires forall c :: c in s ==> IsDigit(c)
    requires forall c :: c in t ==> IsDigit(c)
    requires p + [sep] + s == q + [sep] + t
    ensures p == q && s == t
  {
    var whole := p + [sep] + s;
    assert whole == q + [sep] + t && whole[|p|] == sep;
    assert whole[|q|] == sep;
    assert forall k :: |p| < k < |whole| ==> whole[k] == s[k - |p| - 1];
    assert forall k :: |q| < k < |whole| ==> whole[k] == t[k - |q| - 1];
    assert |p| == |q|;
    assert whole[..|p|] == p && (q + [sep] + t)[..|q|] == q;
    assert whole[|p| + 1..] == s && (q + [sep] + t)[|q| + 1..] == t;
  }
}
