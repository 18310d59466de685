/** The string operations of Python that the services use (`str.isdigit`,
    `str.strip`, `str.lower`, `str.replace`, `int(...)` on digits, `{:0Nd}`,
    and comparison of strings), on sequences of characters. Character classes
    cover ASCII and Latin-1. */
module Texto {

  predicate IsDigit(c: char) { '0' <= c <= '9' }

  predicate AllDigits(s: string)
  {
    forall i :: 0 <= i < |s| ==> IsDigit(s[i])
  }

  function DigitValue(c: char): (d: nat)
    requires IsDigit(c)
    ensures d < 10
  {
    c as int - '0' as int
  }

  function DigitChar(d: nat): (c: char)
    requires d < 10
    ensures IsDigit(c) && DigitValue(c) == d
  {
    ('0' as int + d) as char
  }

  function Pow10(n: nat): (p: nat)
    ensures p >= 1
  {
    if n == 0 then 1 else 10 * Pow10(n - 1)
  }

  /** The value `int(s)` gives for a run of decimal digits (leading zeros allowed). */
  function DigitsValue(s: string): nat
    requires AllDigits(s)
  {
    if |s| == 0 then 0 else DigitsValue(s[..|s| - 1]) * 10 + DigitValue(s[|s| - 1])
  }

  lemma {:induction false} DigitsValueConcat(a: string, b: string)
    requires AllDigits(a) && AllDigits(b)
    ensures AllDigits(a + b)
    ensures DigitsValue(a + b) == DigitsValue(a) * Pow10(|b|) + DigitsValue(b)
  {
    assert AllDigits(a + b) by {
      forall i | 0 <= i < |a + b| ensures IsDigit((a + b)[i]) {
        if i < |a| { assert (a + b)[i] == a[i]; } else { assert (a + b)[i] == b[i - |a|]; }
      }
    }
    if |b| == 0 {
      assert a + b == a;
    } else {
      var b' := b[..|b| - 1];
      var d := DigitValue(b[|b| - 1]);
      assert (a + b)[..|a + b| - 1] == a + b';
      assert (a + b)[|a + b| - 1] == b[|b| - 1];
      DigitsValueConcat(a, b');
      var x, p, y := DigitsValue(a), Pow10(|b'|), DigitsValue(b');
      assert DigitsValue(a + b) == DigitsValue(a + b') * 10 + d;
      assert DigitsValue(a + b') == x * p + y;
      assert Pow10(|b|) == p * 10;
      assert DigitsValue(b) == y * 10 + d;
      ShiftDistributes(x, p, y, d);
    }
  }

  lemma ShiftDistributes(x: int, p: int, y: int, d: int)
    ensures (x * p + y) * 10 + d == x * (p * 10) + (y * 10 + d)
  {
  }

  lemma {:induction false} DigitsValueBound(s: string)
    requires AllDigits(s)
    ensures DigitsValue(s) < Pow10(|s|)
  {
    if |s| > 0 {
      DigitsValueBound(s[..|s| - 1]);
    }
  }

  /** Decimal rendering of a natural number, without leading zeros (Python's `str(n)`). */
  function NatToString(n: nat): (s: string)
    ensures |s| > 0 && AllDigits(s) && DigitsValue(s) == n
    decreases n
  {
    if n < 10 then
      var s := [DigitChar(n)];
      assert s[..0] == [];
      s
    else
      var p := NatToString(n / 10);
      var s := p + [DigitChar(n % 10)];
      assert s[..|s| - 1] == p;
      s
  }

  function Zeros(k: nat): (s: string)
    ensures |s| == k && AllDigits(s) && DigitsValue(s) == 0
  {
    if k == 0 then [] else
      var z := Zeros(k - 1) + ['0'];
      assert z[..|z| - 1] == Zeros(k - 1);
      z
  }

  /** `n` written with at least `width` digits, zero-padded on the left
      (Python's `f"{n:0{width}d}"` for a natural `n`). */
  function PadZeros(n: nat, width: nat): (s: string)
    ensures AllDigits(s) && DigitsValue(s) == n
    ensures |s| == if |NatToString(n)| >= width then |NatToString(n)| else width
  {
    var d := NatToString(n);
    if |d| >= width then d
    else
      DigitsValueConcat(Zeros(width - |d|), d);
      Zeros(width - |d|) + d
  }

  /** A single digit padded to `width` is `width - 1` zeros and the digit. */
  lemma PadZerosDigito(n: nat, width: nat)
    requires n < 10 && width >= 1
    ensures PadZeros(n, width) == Zeros(width - 1) + [DigitChar(n)]
  {
    assert NatToString(n) == [DigitChar(n)];
  }

  lemma {:induction false} NatToStringLength(n: nat, width: nat)
    requires width >= 1 && n < Pow10(width)
    ensures |NatToString(n)| <= width
    decreases n
  {
    if n >= 10 {
      NatToStringLength(n / 10, width - 1);
    }
  }

  lemma PadZerosWidth(n: nat, width: nat)
    requires width >= 1 && n < Pow10(width)
    ensures |PadZeros(n, width)| == width
  {
    NatToStringLength(n, width);
  }

  /** The most significant digit of a rendering of a positive number is not zero. */
  lemma {:induction false} LeadingDigit(n: nat)
    ensures n > 0 ==> NatToString(n)[0] != '0'
    decreases n
  {
    if n >= 10 {
      LeadingDigit(n / 10);
    }
  }

  lemma NonDigitAbsent(s: string, c: char)
    requires AllDigits(s) && !IsDigit(c)
    ensures c !in s
  {
    forall i | 0 <= i < |s| ensures s[i] != c {
      assert IsDigit(s[i]);
    }
  }

  /** Python's `str.isspace()`. */
  predicate IsSpace(c: char)
  {
    c == ' ' || '\t' <= c <= '\r' || '\U{001C}' <= c <= '\U{001F}' || c == '\U{0085}'
    || c == '\U{00A0}' || c == '\U{1680}' || '\U{2000}' <= c <= '\U{200A}'
    || c == '\U{2028}' || c == '\U{2029}' || c == '\U{202F}' || c == '\U{205F}'
    || c == '\U{3000}'
  }

  function StripLeft(s: string): (r: string)
    ensures |r| <= |s|
    ensures |r| == 0 || !IsSpace(r[0])
  {
    if |s| > 0 && IsSpace(s[0]) then StripLeft(s[1..]) else s
  }

  function StripRight(s: string): (r: string)
    ensures |r| <= |s|
    ensures |r| == 0 || !IsSpace(r[|r| - 1])
  {
    if |s| > 0 && IsSpace(s[|s| - 1]) then StripRight(s[..|s| - 1]) else s
  }

  /** Python's `str.strip()` with no argument. */
  function Strip(s: string): string
  {
    StripRight(StripLeft(s))
  }

  /** Stripping on the left keeps a suffix. */
  lemma {:induction false} StripLeftSuffix(s: string)
    ensures StripLeft(s) == s[|s| - |StripLeft(s)|..]
  {
    if |s| > 0 && IsSpace(s[0]) {
      StripLeftSuffix(s[1..]);
    }
  }

  /** Stripping on the right keeps a prefix. */
  lemma {:induction false} StripRightPrefix(s: string)
    ensures StripRight(s) == s[..|StripRight(s)|]
  {
    if |s| > 0 && IsSpace(s[|s| - 1]) {
      StripRightPrefix(s[..|s| - 1]);
    }
  }

  lemma StripIdempotent(s: string)
    ensures Strip(Strip(s)) == Strip(s)
  {
    var t := Strip(s);
    if |t| > 0 {
      StripRightPrefix(StripLeft(s));
      assert t == StripLeft(s)[..|t|];
      assert t[0] == StripLeft(s)[0];
    }
  }

  lemma StripNoBlank(x: string)
    requires |x| > 0 && !IsSpace(x[0]) && !IsSpace(x[|x| - 1])
    ensures Strip(x) == x
  {
    assert StripLeft(x) == x;
  }

  /** Every character of `w` is white space. */
  predicate Blanks(w: string)
  {
    forall j :: 0 <= j < |w| ==> IsSpace(w[j])
  }

  lemma {:induction false} StripLeftBlanks(w: string, y: string)
    requires Blanks(w) && |y| > 0 && !IsSpace(y[0])
    ensures StripLeft(w + y) == y
  {
    if |w| == 0 {
      assert w + y == y;
    } else {
      assert (w + y)[0] == w[0] && (w + y)[1..] == w[1..] + y;
      StripLeftBlanks(w[1..], y);
    }
  }

  lemma {:induction false} StripRightBlanks(y: string, w: string)
    requires Blanks(w) && |y| > 0 && !IsSpace(y[|y| - 1])
    ensures StripRight(y + w) == y
  {
    if |w| == 0 {
      assert y + w == y;
    } else {
      var yw := y + w;
      assert yw[|yw| - 1] == w[|w| - 1];
      assert yw[..|yw| - 1] == y + w[..|w| - 1];
      StripRightBlanks(y, w[..|w| - 1]);
    }
  }

  /** Blanks around a text without white space at either end are stripped
      away and nothing else is. */
  lemma StripBlanks(w1: string, x: string, w2: string)
    requires Blanks(w1) && Blanks(w2) && |x| > 0 && !IsSpace(x[0]) && !IsSpace(x[|x| - 1])
    ensures Strip(w1 + x + w2) == x
  {
    var xw := x + w2;
    assert xw[0] == x[0];
    StripLeftBlanks(w1, xw);
    assert w1 + x + w2 == w1 + xw;
    StripRightBlanks(x, w2);
  }

  /** Stripping a string that has one leading blank and no other leading or
      trailing white space leaves the rest. */
  lemma StripOneBlank(x: string)
    requires |x| > 0 && !IsSpace(x[0]) && !IsSpace(x[|x| - 1])
    ensures Strip([' '] + x) == x
  {
    var y := [' '] + x;
    assert y[0] == ' ' && y[1..] == x;
    assert StripLeft(y) == StripLeft(x);
    assert StripLeft(x) == x;
  }

  /** A leading blank makes no difference to `strip()`. */
  lemma StripLeadingBlank(x: string)
    ensures Strip([' '] + x) == Strip(x)
  {
    var y := [' '] + x;
    assert y[1..] == x;
  }

  /** Python's `str.lower()` on one character (ASCII and Latin-1 capitals). */
  function LowerChar(c: char): char
  {
    if 'A' <= c <= 'Z' || ('\U{00C0}' <= c <= '\U{00DE}' && c != '\U{00D7}') then
      (c as int + 32) as char
    else c
  }

  function Lower(s: string): (r: string)
    ensures |r| == |s|
    decreases |s|
  {
    if |s| == 0 then [] else [LowerChar(s[0])] + Lower(s[1..])
  }

  /** `lower()` leaves a string without capitals unchanged. */
  lemma {:induction false} LowerFixo(s: string)
    requires forall i :: 0 <= i < |s| ==> LowerChar(s[i]) == s[i]
    ensures Lower(s) == s
  {
    if |s| > 0 {
      LowerFixo(s[1..]);
    }
  }

  /** `lower()` works character by character. */
  lemma {:induction false} LowerAt(s: string, i: nat)
    requires i < |s|
    ensures Lower(s)[i] == LowerChar(s[i])
    decreases i
  {
    if i > 0 {
      LowerAt(s[1..], i - 1);
    }
  }

  /** Lower-casing twice is lower-casing once. */
  lemma {:induction false} LowerIdempotente(s: string)
    ensures Lower(Lower(s)) == Lower(s)
  {
    if |s| > 0 {
      LowerIdempotente(s[1..]);
      var l := Lower(s);
      assert l[0] == LowerChar(s[0]) && l[1..] == Lower(s[1..]);
    }
  }

  /** `lower()` neither adds, removes nor changes a digit. */
  lemma {:induction false} FilterDigitsLower(s: string)
    ensures FilterDigits(Lower(s)) == FilterDigits(s)
  {
    if |s| > 0 {
      FilterDigitsLower(s[1..]);
      var l := Lower(s);
      assert l[0] == LowerChar(s[0]) && l[1..] == Lower(s[1..]);
    }
  }

  /** `s.replace(c, "")` for a single character `c`. */
  function DeleteChar(s: string, c: char): (r: string)
    ensures |r| <= |s|
    decreases |s|
  {
    if |s| == 0 then []
    else if s[0] == c then DeleteChar(s[1..], c)
    else [s[0]] + DeleteChar(s[1..], c)
  }

  lemma DeleteCharConcat(a: string, b: string, c: char)
    ensures DeleteChar(a + b, c) == DeleteChar(a, c) + DeleteChar(b, c)
  {
    if |a| > 0 {
      assert (a + b)[1..] == a[1..] + b;
    } else {
      assert a + b == b;
    }
  }

  lemma DeleteCharAbsent(s: string, c: char)
    requires c !in s
    ensures DeleteChar(s, c) == s
  {
  }

  /** The characters left are those of `s` other than `c`. */
  lemma {:induction false} DeleteCharContents(s: string, c: char, x: char)
    ensures x in DeleteChar(s, c) <==> x in s && x != c
    decreases |s|
  {
    if |s| > 0 {
      DeleteCharContents(s[1..], c, x);
      assert s == [s[0]] + s[1..];
    }
  }

  /** `s.replace(a, b)` for single characters `a` and `b`. */
  function MapChar(s: string, a: char, b: char): (r: string)
    ensures |r| == |s|
    decreases |s|
  {
    if |s| == 0 then [] else [if s[0] == a then b else s[0]] + MapChar(s[1..], a, b)
  }

  /** Each character is replaced in place. */
  lemma {:induction false} MapCharAt(s: string, a: char, b: char, i: nat)
    requires i < |s|
    ensures MapChar(s, a, b)[i] == if s[i] == a then b else s[i]
    decreases |s|
  {
    if i > 0 {
      MapCharAt(s[1..], a, b, i - 1);
    }
  }

  lemma {:induction false} MapCharConcat(x: string, y: string, a: char, b: char)
    ensures MapChar(x + y, a, b) == MapChar(x, a, b) + MapChar(y, a, b)
    decreases |x|
  {
    if |x| == 0 {
      assert x + y == y;
    } else {
      assert (x + y)[1..] == x[1..] + y;
      MapCharConcat(x[1..], y, a, b);
    }
  }

  lemma {:induction false} MapCharAbsent(s: string, a: char, b: char)
    requires a !in s
    ensures MapChar(s, a, b) == s
    decreases |s|
  {
    if |s| > 0 {
      assert a !in s[1..];
      MapCharAbsent(s[1..], a, b);
    }
  }

  /** `s.replace(pat, rep)`: every non-overlapping occurrence of `pat`, scanning
      from the left, is replaced by `rep`. */
  function ReplaceAll(s: string, pat: string, rep: string): string
    requires |pat| > 0
    decreases |s|
  {
    if |s| < |pat| then s
    else if s[..|pat|] == pat then rep + ReplaceAll(s[|pat|..], pat, rep)
    else [s[0]] + ReplaceAll(s[1..], pat, rep)
  }

  lemma ReplaceAllAbsent(s: string, pat: string, rep: string)
    requires |pat| > 0 && pat[0] !in s
    ensures ReplaceAll(s, pat, rep) == s
    decreases |s|
  {
    if |s| >= |pat| {
      assert s[..|pat|][0] == s[0];
      ReplaceAllAbsent(s[1..], pat, rep);
    }
  }

  /** Removing a pattern never introduces a character. */
  lemma ReplaceAllRemoveKeeps(s: string, pat: string, c: char)
    requires |pat| > 0 && c !in s
    ensures c !in ReplaceAll(s, pat, "")
    decreases |s|
  {
    if |s| >= |pat| {
      if s[..|pat|] == pat {
        ReplaceAllRemoveKeeps(s[|pat|..], pat, c);
      } else {
        ReplaceAllRemoveKeeps(s[1..], pat, c);
      }
    }
  }

  /** The characters of `s` that `str.isdigit()` accepts, in order (ASCII digits). */
  function FilterDigits(s: string): (r: string)
    ensures AllDigits(r) && |r| <= |s|
  {
    if |s| == 0 then []
    else if IsDigit(s[0]) then [s[0]] + FilterDigits(s[1..])
    else FilterDigits(s[1..])
  }

  lemma FilterDigitsOfDigits(s: string)
    requires AllDigits(s)
    ensures FilterDigits(s) == s
  {
  }

  lemma FilterDigitsConcat(a: string, b: string)
    ensures FilterDigits(a + b) == FilterDigits(a) + FilterDigits(b)
  {
    if |a| == 0 {
      assert a + b == b;
    } else {
      assert (a + b)[1..] == a[1..] + b;
    }
  }

  /** Python's `a <= b` on strings: lexicographic order of code points. */
  predicate LexLe(a: string, b: string)
    decreases |a|
  {
    if |a| == 0 then true
    else if |b| == 0 then false
    else if a[0] != b[0] then a[0] < b[0]
    else LexLe(a[1..], b[1..])
  }

  lemma {:induction false} LexLeTotal(a: string, b: string)
    ensures LexLe(a, b) || LexLe(b, a)
    decreases |a|
  {
    if |a| > 0 && |b| > 0 && a[0] == b[0] {
      LexLeTotal(a[1..], b[1..]);
    }
  }

  lemma {:induction false} LexLeTransitive(a: string, b: string, c: string)
    requires LexLe(a, b) && LexLe(b, c)
    ensures LexLe(a, c)
    decreases |a|
  {
    if |a| > 0 && |b| > 0 && |c| > 0 && a[0] == b[0] && b[0] == c[0] {
      LexLeTransitive(a[1..], b[1..], c[1..]);
    }
  }

  lemma {:induction false} LexLeAntisymmetric(a: string, b: string)
    requires LexLe(a, b) && LexLe(b, a)
    ensures a == b
    decreases |a|
  {
    if |a| > 0 && |b| > 0 {
      LexLeAntisymmetric(a[1..], b[1..]);
      assert a == [a[0]] + a[1..] && b == [b[0]] + b[1..];
    }
  }
}
