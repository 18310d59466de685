/** Python's numeric conversions, on exact reals: `float(text)`, `int(x)` and
    rounding to the nearest integer with ties to even. */
module Numero {
  import opened Base
  import opened Texto

  /** Position of the first `c` in `s`, or `|s|` when there is none. */
  function IndexOf(s: string, c: char): (k: nat)
    ensures k <= |s| && c !in s[..k] && (k < |s| ==> s[k] == c)
  {
    if |s| == 0 then 0
    else if s[0] == c then 0
    else
      var k := 1 + IndexOf(s[1..], c);
      assert s[..k] == [s[0]] + s[1..][..k - 1];
      k
  }

  /** An unsigned decimal numeral: digits with at most one point and at least one digit. */
  function UnsignedDecimal(b: string): Option<real>
  {
    var k := IndexOf(b, '.');
    var ip := b[..k];
    var fp := if k < |b| then b[k + 1..] else [];
    if AllDigits(ip) && AllDigits(fp) && |ip| + |fp| > 0 then Some(Decimal(ip, fp)) else None
  }

  /** The value of the numeral `ip.fp`. */
  function Decimal(ip: string, fp: string): real
    requires AllDigits(ip) && AllDigits(fp)
  {
    DigitsValue(ip) as real + Shift(DigitsValue(fp), |fp|)
  }

  /** `m / 10^k`, one decimal place at a time. */
  function Shift(m: nat, k: nat): (r: real)
    ensures r >= 0.0
  {
    if k == 0 then m as real else Shift(m, k - 1) / 10.0
  }

  lemma DecimalDuasCasas(ip: string, fp: string)
    requires AllDigits(ip) && AllDigits(fp) && |fp| == 2
    ensures Decimal(ip, fp) == DigitsValue(ip) as real + DigitsValue(fp) as real / 100.0
  {
    var m := DigitsValue(fp);
    assert Shift(m, 2) == Shift(m, 1) / 10.0 == (m as real / 10.0) / 10.0;
  }

  /** `float(s)`: surrounding white space, an optional sign, then a decimal
      numeral; `None` where Python raises `ValueError`. */
  function PythonFloat(s: string): Option<real>
  {
    var t := Strip(s);
    var signed := |t| > 0 && (t[0] == '-' || t[0] == '+');
    var body := if signed then t[1..] else t;
    match UnsignedDecimal(body)
    case None => None
    case Some(v) => Some(if signed && t[0] == '-' then -v else v)
  }

  /** `b` is an unsigned numeral of value `v` that starts and ends with a digit. */
  predicate Numeral(b: string, v: real)
  {
    |b| > 0 && IsDigit(b[0]) && IsDigit(b[|b| - 1]) && UnsignedDecimal(b) == Some(v)
  }

  /** `float()` of an unsigned numeral without surrounding blanks. */
  lemma PythonFloatNumeral(b: string, v: real)
    requires Numeral(b, v)
    ensures PythonFloat(b) == Some(v)
  {
    StripNoBlank(b);
  }

  /** `float()` of a minus sign followed by an unsigned numeral. */
  lemma PythonFloatNegativo(b: string, v: real)
    requires Numeral(b, v)
    ensures PythonFloat("-" + b) == Some(-v)
  {
    var m := "-" + b;
    assert m[0] == '-' && m[1..] == b && m[|m| - 1] == b[|b| - 1];
    StripNoBlank(m);
  }

  /** `float()` of a plus sign followed by an unsigned numeral. */
  lemma PythonFloatPositivo(b: string, v: real)
    requires Numeral(b, v)
    ensures PythonFloat("+" + b) == Some(v)
  {
    var m := "+" + b;
    assert m[0] == '+' && m[1..] == b && m[|m| - 1] == b[|b| - 1];
    StripNoBlank(m);
  }

  /** `float()` ignores the white space around its argument. */
  lemma PythonFloatStripped(s: string, x: string)
    requires Strip(s) == x
    ensures PythonFloat(s) == PythonFloat(x)
  {
    StripIdempotent(s);
  }

  /** `float()` of an unsigned numeral with an optional sign and any blanks
      around it is the numeral's value, negated after a minus sign. */
  lemma PythonFloatLido(w1: string, sinal: string, b: string, w2: string, v: real)
    requires Blanks(w1) && Blanks(w2) && (sinal == "" || sinal == "+" || sinal == "-") && Numeral(b, v)
    ensures PythonFloat(w1 + sinal + b + w2) == Some(if sinal == "-" then -v else v)
  {
    var x := ValorComSinal(sinal, b, v);
    PontasComSinal(sinal, b);
    ReagruparSinal(w1, sinal, b, w2);
    PythonFloatEmBrancos(w1, x, w2);
  }

  lemma ReagruparSinal(w1: string, sinal: string, b: string, w2: string)
    ensures w1 + sinal + b + w2 == w1 + (sinal + b) + w2
  {
  }

  /** An optional sign before a numeral leaves no white space at either end. */
  lemma PontasComSinal(sinal: string, b: string)
    requires (sinal == "" || sinal == "+" || sinal == "-") && |b| > 0 && IsDigit(b[0]) && IsDigit(b[|b| - 1])
    ensures var x := sinal + b; |x| > 0 && !IsSpace(x[0]) && !IsSpace(x[|x| - 1])
  {
    var x := sinal + b;
    assert x[|x| - 1] == b[|b| - 1];
    assert x[0] == if sinal == "" then b[0] else sinal[0];
  }

  /** `float()` of a numeral after an optional sign. */
  lemma ValorComSinal(sinal: string, b: string, v: real) returns (x: string)
    requires (sinal == "" || sinal == "+" || sinal == "-") && Numeral(b, v)
    ensures x == sinal + b
    ensures PythonFloat(x) == Some(if sinal == "-" then -v else v)
  {
    x := sinal + b;
    if sinal == "" {
      assert x == b;
      PythonFloatNumeral(b, v);
    } else if sinal == "+" {
      PythonFloatPositivo(b, v);
    } else {
      PythonFloatNegativo(b, v);
    }
  }

  /** `float()` ignores blanks around a text without white space at its ends. */
  lemma PythonFloatEmBrancos(w1: string, x: string, w2: string)
    requires Blanks(w1) && Blanks(w2) && |x| > 0 && !IsSpace(x[0]) && !IsSpace(x[|x| - 1])
    ensures PythonFloat(w1 + x + w2) == PythonFloat(x)
  {
    StripBlanks(w1, x, w2);
    PythonFloatStripped(w1 + x + w2, x);
  }

  /** `float()` of a run of decimal digits is its value. */
  lemma PythonFloatDigits(s: string)
    requires |s| > 0 && AllDigits(s)
    ensures PythonFloat(s) == Some(DigitsValue(s) as real)
  {
    UnsignedDecimalDigits(s);
    assert IsDigit(s[0]) && IsDigit(s[|s| - 1]);
    PythonFloatNumeral(s, DigitsValue(s) as real);
  }

  /** A run of digits without a point is an integer numeral. */
  lemma UnsignedDecimalDigits(s: string)
    requires |s| > 0 && AllDigits(s)
    ensures UnsignedDecimal(s) == Some(DigitsValue(s) as real)
  {
    NoPointInDigits(s);
    var k := IndexOf(s, '.');
    assert k == |s|;
    assert s[..k] == s;
    assert Decimal(s, []) == DigitsValue(s) as real + Shift(0, 0);
  }

  /** Digits, a point and digits make a numeral with both ends digits. */
  lemma NumeralOf(ip: string, fp: string)
    requires AllDigits(ip) && AllDigits(fp) && |ip| > 0 && |fp| > 0
    ensures Numeral(ip + ['.'] + fp, Decimal(ip, fp))
  {
    var b := ip + ['.'] + fp;
    UnsignedDecimalOf(ip, fp);
    assert b[0] == ip[0];
    assert b[|b| - 1] == fp[|fp| - 1];
  }

  lemma PythonFloatStrip(s: string)
    ensures PythonFloat(Strip(s)) == PythonFloat(s)
  {
    StripIdempotent(s);
  }

  /** A numeral with an integer part and a fraction part of decimal digits. */
  lemma UnsignedDecimalOf(ip: string, fp: string)
    requires AllDigits(ip) && AllDigits(fp) && |ip| > 0
    ensures UnsignedDecimal(ip + ['.'] + fp) == Some(Decimal(ip, fp))
  {
    var b := ip + ['.'] + fp;
    assert b[..|ip|] == ip;
    NoPointInDigits(ip);
    IndexOfAt(b, '.', |ip|);
    var k := IndexOf(b, '.');
    assert k == |ip| && k < |b|;
    assert b[..k] == ip;
    assert b[k + 1..] == fp;
    assert UnsignedDecimal(b) == Some(Decimal(ip, fp));
  }

  lemma NoPointInDigits(s: string)
    requires AllDigits(s)
    ensures '.' !in s
  {
    forall i | 0 <= i < |s| ensures s[i] != '.' {
      assert IsDigit(s[i]);
    }
  }

  lemma {:induction false} IndexOfAt(s: string, c: char, j: nat)
    requires j < |s| && s[j] == c && c !in s[..j]
    ensures IndexOf(s, c) == j
  {
    if j > 0 {
      assert s[..j][0] == s[0];
      assert s[1..][..j - 1] == s[1..j];
      assert s[1..j] == s[..j][1..];
      IndexOfAt(s[1..], c, j - 1);
    }
  }

  /** The integer nearest to `x`, ties going to the even one (how Python's
      formatting rounds the last digit kept). */
  function RoundHalfEven(x: real): (n: int)
    ensures x - 1.0 / 2.0 <= n as real <= x + 1.0 / 2.0
    ensures x - x.Floor as real == 1.0 / 2.0 ==> n % 2 == 0
    ensures x - x.Floor as real != 1.0 / 2.0 ==> x - 1.0 / 2.0 < n as real < x + 1.0 / 2.0
  {
    var f := x.Floor;
    var d := x - f as real;
    if d > 1.0 / 2.0 then f + 1
    else if d < 1.0 / 2.0 then f
    else if f % 2 == 0 then f else f + 1
  }

  lemma RoundHalfEvenOfInt(n: int)
    ensures RoundHalfEven(n as real) == n
  {
  }

  /** `round(x, 1)` on the exact value. */
  function Round1(x: real): (r: real)
    ensures x - 1.0 / 20.0 <= r <= x + 1.0 / 20.0
  {
    RoundHalfEven(x * 10.0) as real / 10.0
  }

  /** `round(x, 2)` on the exact value. */
  function Round2(x: real): (r: real)
    ensures x - 1.0 / 200.0 <= r <= x + 1.0 / 200.0
  {
    RoundHalfEven(x * 100.0) as real / 100.0
  }

  /** `int(x)`: truncation toward zero. */
  function TruncZero(x: real): (n: int)
    ensures x >= 0.0 ==> 0.0 <= n as real <= x < n as real + 1.0
    ensures x < 0.0 ==> n as real - 1.0 < x <= n as real <= 0.0
  {
    if x >= 0.0 then x.Floor else -((-x).Floor)
  }
}
