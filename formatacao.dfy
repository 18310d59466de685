/** Currency parsing and formatting in the Brazilian real format
    ("R$ 1.234,50"): app/utils/formatacao.py. The local `_parse_float` and
    `_to_float` helpers of the score, suggestion and neighbourhood-suggestion
    services are copies of `MoedaParaFloat`. */
module Formatacao {
  import opened Base
  import opened Texto
  import opened Numero

  /** The text `moeda_para_float` hands to `float()`: "R$" removed, every "."
      deleted, "," turned into ".", surrounding white space stripped. */
  function LimparMoeda(s: string): string
  {
    Strip(MapChar(DeleteChar(ReplaceAll(s, "R$", ""), '.'), ',', '.'))
  }

  /** `moeda_para_float`: `None` is 0, numbers pass through, strings are
      cleaned and parsed, and a string `float()` rejects gives 0. */
  function MoedaParaFloat(v: Py): real
  {
    match v
    case PyNone => 0.0
    case PyNum(x) => x
    case PyStr(s) => PythonFloat(LimparMoeda(s)).GetOr(0.0)
  }

  /** Integer part in groups of three digits, joined by `sep`. */
  function Agrupar(n: nat, sep: char): string
    decreases n
  {
    if n < 1000 then NatToString(n) else Agrupar(n / 1000, sep) + [sep] + PadZeros(n % 1000, 3)
  }

  /** `round(|x| * 100)` with ties to even: the amount in cents that
      `f"{x:,.2f}"` prints. */
  function Centavos(x: real): (c: nat)
  {
    var n := RoundHalfEven((if x < 0.0 then -x else x) * 100.0);
    if n < 0 then 0 else n
  }

  /** An amount of `c` cents: a minus sign when `neg`, the integer part grouped
      in threes by `mil`, the decimal mark `dec` and exactly two decimals. */
  function Montar(neg: bool, c: nat, mil: char, dec: char): string
  {
    (if neg then "-" else "") + Agrupar(c / 100, mil) + [dec] + PadZeros(c % 100, 2)
  }

  /** `f"{x:,.2f}"`: sign, integer part grouped by ",", ".", two decimals. */
  function FormatoEn(x: real): string
  {
    Montar(x < 0.0, Centavos(x), ',', '.')
  }

  /** `.replace(",", "X").replace(".", ",").replace("X", ".")`. */
  function TrocarSeparadores(s: string): string
  {
    MapChar(MapChar(MapChar(s, ',', 'X'), '.', ','), 'X', '.')
  }

  /** The number `float(valor)` gives, 0 when it raises. */
  function ParaFloat(v: Py): real
  {
    match v
    case PyNone => 0.0
    case PyNum(x) => x
    case PyStr(s) => PythonFloat(s).GetOr(0.0)
  }

  /** `float_para_moeda`. */
  function FloatParaMoeda(v: Py): string
  {
    TrocarSeparadores("R$ " + FormatoEn(ParaFloat(v)))
  }

  /** The Brazilian form the formatter produces: "R$ ", a minus sign for a
      negative amount, the integer part grouped by "." in threes, "," and
      exactly two decimals. */
  function FormatoBr(x: real): string
  {
    "R$ " + Montar(x < 0.0, Centavos(x), '.', ',')
  }

  lemma TrocarDigits(s: string)
    requires AllDigits(s)
    ensures TrocarSeparadores(s) == s
  {
    NonDigitAbsent(s, ',');
    NonDigitAbsent(s, '.');
    NonDigitAbsent(s, 'X');
    TrocarSemSeparadores(s);
  }

  lemma TrocarConcat(a: string, b: string)
    ensures TrocarSeparadores(a + b) == TrocarSeparadores(a) + TrocarSeparadores(b)
  {
    MapCharConcat(a, b, ',', 'X');
    MapCharConcat(MapChar(a, ',', 'X'), MapChar(b, ',', 'X'), '.', ',');
    MapCharConcat(MapChar(MapChar(a, ',', 'X'), '.', ','), MapChar(MapChar(b, ',', 'X'), '.', ','), 'X', '.');
  }

  lemma {:induction false} TrocarAgrupar(n: nat)
    ensures TrocarSeparadores(Agrupar(n, ',')) == Agrupar(n, '.')
    decreases n
  {
    if n < 1000 {
      TrocarDigits(NatToString(n));
    } else {
      TrocarAgrupar(n / 1000);
      TrocarConcat(Agrupar(n / 1000, ',') + [','], PadZeros(n % 1000, 3));
      TrocarConcat(Agrupar(n / 1000, ','), [',']);
      TrocarDigits(PadZeros(n % 1000, 3));
    }
  }

  lemma TrocarSemSeparadores(s: string)
    requires ',' !in s && '.' !in s && 'X' !in s
    ensures TrocarSeparadores(s) == s
  {
    MapCharAbsent(s, ',', 'X');
    MapCharAbsent(s, '.', ',');
    MapCharAbsent(s, 'X', '.');
  }

  lemma TrocarPonto()
    ensures TrocarSeparadores(".") == ","
  {
    assert MapChar(".", ',', 'X') == ".";
    assert MapChar(".", '.', ',') == ",";
    assert MapChar(",", 'X', '.') == ",";
  }

  lemma TrocarPartes(pre: string, n: nat, p: string)
    requires ',' !in pre && '.' !in pre && 'X' !in pre && AllDigits(p)
    ensures TrocarSeparadores(pre + Agrupar(n, ',') + "." + p) == pre + Agrupar(n, '.') + "," + p
  {
    var g := Agrupar(n, ',');
    TrocarConcat(pre + g + ".", p);
    TrocarConcat(pre + g, ".");
    TrocarConcat(pre, g);
    TrocarSemSeparadores(pre);
    TrocarAgrupar(n);
    TrocarPonto();
    TrocarDigits(p);
  }

  lemma TrocarMontar(neg: bool, c: nat)
    ensures TrocarSeparadores("R$ " + Montar(neg, c, ',', '.')) == "R$ " + Montar(neg, c, '.', ',')
  {
    MontarPartes(neg, c, ',', '.');
    MontarPartes(neg, c, '.', ',');
    TrocarPartes("R$ " + (if neg then "-" else ""), c / 100, PadZeros(c % 100, 2));
  }

  lemma MontarPartes(neg: bool, c: nat, mil: char, dec: char)
    ensures "R$ " + Montar(neg, c, mil, dec)
            == ("R$ " + (if neg then "-" else "")) + Agrupar(c / 100, mil) + [dec] + PadZeros(c % 100, 2)
  {
  }

  /** Formatting yields the Brazilian form for every amount. */
  lemma FloatParaMoedaFormato(v: Py)
    ensures FloatParaMoeda(v) == FormatoBr(ParaFloat(v))
  {
    var x := ParaFloat(v);
    TrocarMontar(x < 0.0, Centavos(x));
  }

  /** Deleting the group separators leaves the digits of the number. */
  lemma {:induction false} AgruparDigitos(n: nat)
    ensures AllDigits(DeleteChar(Agrupar(n, '.'), '.'))
    ensures |DeleteChar(Agrupar(n, '.'), '.')| > 0
    ensures DigitsValue(DeleteChar(Agrupar(n, '.'), '.')) == n
    decreases n
  {
    if n < 1000 {
      NonDigitAbsent(NatToString(n), '.');
      DeleteCharAbsent(NatToString(n), '.');
    } else {
      var hi := Agrupar(n / 1000, '.');
      var lo := PadZeros(n % 1000, 3);
      AgruparDigitos(n / 1000);
      PadZerosWidth(n % 1000, 3);
      SemPontoGrupo(hi, lo);
      ValorGrupo(DeleteChar(hi, '.'), lo, n);
    }
  }

  lemma SemPontoGrupo(hi: string, lo: string)
    requires AllDigits(lo)
    ensures DeleteChar(hi + ['.'] + lo, '.') == DeleteChar(hi, '.') + lo
  {
    DeleteCharConcat(hi + ['.'], lo, '.');
    DeleteCharConcat(hi, ['.'], '.');
    assert DeleteChar(['.'], '.') == [];
    NonDigitAbsent(lo, '.');
    DeleteCharAbsent(lo, '.');
  }

  lemma ValorGrupo(d: string, lo: string, n: nat)
    requires AllDigits(d) && AllDigits(lo) && |lo| == 3
    requires DigitsValue(d) == n / 1000 && DigitsValue(lo) == n % 1000
    ensures AllDigits(d + lo) && DigitsValue(d + lo) == n
  {
    DigitsValueConcat(d, lo);
    assert Pow10(3) == 1000;
  }

  /** Removing "R$" from a string that starts with "R$ " and has no other "R". */
  lemma RemoverPrefixo(t: string)
    requires 'R' !in t
    ensures ReplaceAll("R$ " + t, "R$", "") == " " + t
  {
    var u := "R$ " + t;
    assert u[..2] == "R$" && u[2..] == " " + t;
    ReplaceAllAbsent(" " + t, "R$", "");
  }

  lemma Reagrupar<T>(q: seq<T>, c: seq<T>, d: seq<T>, e: seq<T>, f: seq<T>)
    ensures q + c + d + e + f == q + (c + d + e + f)
  {
  }

  lemma Reagrupar3<T>(q: seq<T>, c: seq<T>, e: seq<T>, f: seq<T>)
    ensures q + c + e + f == q + (c + e + f)
  {
  }

  /** The separators of a formatted amount `sg + a + "," + p` are removed. */
  lemma SemMilhar(sg: string, a: string, p: string)
    requires '.' !in sg && '.' !in p
    ensures DeleteChar(" " + sg + a + "," + p, '.') == " " + sg + DeleteChar(a, '.') + "," + p
  {
    DeleteCharConcat(" " + sg + a + ",", p, '.');
    DeleteCharConcat(" " + sg + a, ",", '.');
    DeleteCharConcat(" " + sg, a, '.');
    DeleteCharAbsent(" " + sg, '.');
    DeleteCharAbsent(",", '.');
    DeleteCharAbsent(p, '.');
  }

  lemma VirgulaPonto(sg: string, d: string, p: string)
    requires ',' !in sg && ',' !in d && ',' !in p
    ensures MapChar(" " + sg + d + "," + p, ',', '.') == " " + sg + d + "." + p
  {
    MapCharConcat(" " + sg + d + ",", p, ',', '.');
    MapCharConcat(" " + sg + d, ",", ',', '.');
    MapCharConcat(" " + sg, d, ',', '.');
    MapCharAbsent(" " + sg, ',', '.');
    MapCharAbsent(d, ',', '.');
    MapCharAbsent(p, ',', '.');
    assert MapChar(",", ',', '.') == ".";
  }

  lemma SemBranco(sg: string, d: string, p: string)
    requires sg == "" || sg == "-"
    requires |d| > 0 && AllDigits(d) && |p| == 2 && AllDigits(p)
    ensures Strip(" " + sg + d + "." + p) == sg + d + "." + p
  {
    var f := sg + d + "." + p;
    assert f[|f| - 1] == p[1];
    assert f[0] == if sg == "" then d[0] else '-';
    assert " " + sg + d + "." + p == [' '] + f;
    StripOneBlank(f);
  }

  /** The steps of `moeda_para_float` before `float()`, on formatted text. */
  lemma LimparPartes(sg: string, a: string, p: string)
    requires sg == "" || sg == "-"
    requires 'R' !in a && ',' !in a
    requires |DeleteChar(a, '.')| > 0 && AllDigits(DeleteChar(a, '.'))
    requires |p| == 2 && AllDigits(p)
    ensures LimparMoeda("R$ " + sg + a + "," + p) == sg + DeleteChar(a, '.') + "." + p
  {
    var d := DeleteChar(a, '.');
    NonDigitAbsent(p, 'R');
    NonDigitAbsent(p, '.');
    NonDigitAbsent(p, ',');
    NonDigitAbsent(d, ',');
    var m := " " + sg + a + "," + p;
    var x := "R$ " + sg + a + "," + p;
    var t := sg + a + "," + p;
    Reagrupar("R$ ", sg, a, ",", p);
    Reagrupar(" ", sg, a, ",", p);
    assert 'R' !in t;
    RemoverPrefixo(t);
    var r1 := ReplaceAll(x, "R$", "");
    assert r1 == m;
    SemMilhar(sg, a, p);
    var r2 := DeleteChar(r1, '.');
    assert r2 == " " + sg + d + "," + p;
    VirgulaPonto(sg, d, p);
    var r3 := MapChar(r2, ',', '.');
    assert r3 == " " + sg + d + "." + p;
    SemBranco(sg, d, p);
    assert LimparMoeda(x) == Strip(r3);
  }

  lemma LimparMontar(neg: bool, n: nat)
    ensures LimparMoeda("R$ " + Montar(neg, n, '.', ','))
            == (if neg then "-" else "") + DeleteChar(Agrupar(n / 100, '.'), '.') + "." + PadZeros(n % 100, 2)
  {
    var sg := if neg then "-" else "";
    var a := Agrupar(n / 100, '.');
    var p := PadZeros(n % 100, 2);
    AgruparDigitos(n / 100);
    PadZerosWidth(n % 100, 2);
    AgruparSem(n / 100, 'R');
    AgruparSem(n / 100, ',');
    MontarPartes(neg, n, '.', ',');
    LimparPartes(sg, a, p);
  }

  /** The grouped integer part holds only digits and the separator ".". */
  lemma {:induction false} AgruparSem(n: nat, c: char)
    requires !IsDigit(c) && c != '.'
    ensures c !in Agrupar(n, '.')
    decreases n
  {
    if n < 1000 {
      NonDigitAbsent(NatToString(n), c);
    } else {
      AgruparSem(n / 1000, c);
      NonDigitAbsent(PadZeros(n % 1000, 3), c);
    }
  }

  /** Formatted text holds only digits, ".", "," and "-". */
  lemma MontarSem(neg: bool, n: nat, c: char)
    requires !IsDigit(c) && c != '.' && c != ',' && c != '-'
    ensures c !in Montar(neg, n, '.', ',')
  {
    AgruparSem(n / 100, c);
    NonDigitAbsent(PadZeros(n % 100, 2), c);
  }

  /** The digits of an amount of cents with the decimal point before the last two. */
  lemma DuasCasas(d: string, p: string)
    requires |d| > 0 && AllDigits(d) && |p| == 2 && AllDigits(p)
    ensures Numeral(d + "." + p, DigitsValue(d) as real + DigitsValue(p) as real / 100.0)
  {
    NumeralOf(d, p);
    DecimalDuasCasas(d, p);
  }

  lemma CentavosDecimais(n: nat)
    ensures (n / 100) as real + (n % 100) as real / 100.0 == n as real / 100.0
  {
    assert n == (n / 100) * 100 + n % 100;
  }

  lemma ComSinal(l: string, neg: bool, d: string, p: string)
    requires l == (if neg then "-" else "") + d + "." + p
    ensures l == if neg then "-" + (d + "." + p) else d + "." + p
  {
    Reagrupar3(if neg then "-" else "", d, ".", p);
  }

  lemma NumeralCentavos(d: string, p: string, n: nat)
    requires |d| > 0 && AllDigits(d) && |p| == 2 && AllDigits(p)
    requires DigitsValue(d) == n / 100 && DigitsValue(p) == n % 100
    ensures Numeral(d + "." + p, n as real / 100.0)
  {
    DuasCasas(d, p);
    CentavosDecimais(n);
  }

  lemma CentavosExatos(c: int)
    ensures Centavos(c as real / 100.0) == Abs(c)
  {
    var x := c as real / 100.0;
    var m := Abs(c);
    assert (if x < 0.0 then -x else x) * 100.0 == m as real;
    RoundHalfEvenOfInt(m);
  }

  lemma MoedaFormatada(c: int)
    ensures FloatParaMoeda(PyNum(c as real / 100.0)) == "R$ " + Montar(c < 0, Abs(c), '.', ',')
  {
    var x := c as real / 100.0;
    CentavosExatos(c);
    FormatoDe(x, c < 0, Abs(c));
    assert PyNum(x) == PyNum(c as real / 100.0);
  }

  /** The text of an amount `x` of `m` whole cents. */
  lemma FormatoDe(x: real, neg: bool, m: nat)
    requires Centavos(x) == m && (x < 0.0) == neg
    ensures FloatParaMoeda(PyNum(x)) == "R$ " + Montar(neg, m, '.', ',')
  {
    FloatParaMoedaFormato(PyNum(x));
  }

  /** Reading a formatted amount of `n` cents gives the amount. */
  lemma LerFormatado(neg: bool, n: nat)
    ensures MoedaParaFloat(PyStr("R$ " + Montar(neg, n, '.', ','))) == (if neg then -(n as real / 100.0) else n as real / 100.0)
  {
    LimparMontar(neg, n);
    var m := LimparComoFloat("R$ " + Montar(neg, n, '.', ','), neg, n);
  }

  /** A text that cleans to the digits of `n` cents is read as the amount. */
  lemma LimparComoFloat(s: string, neg: bool, n: nat) returns (m: string)
    requires LimparMoeda(s) == (if neg then "-" else "") + DeleteChar(Agrupar(n / 100, '.'), '.') + "." + PadZeros(n % 100, 2)
    ensures LimparMoeda(s) == m
    ensures PythonFloat(m) == Some(if neg then -(n as real / 100.0) else n as real / 100.0)
  {
    m := CentavosFloat(neg, n);
  }

  /** The cleaned form of `n` cents, and its value under `float()`. */
  lemma CentavosFloat(neg: bool, n: nat) returns (m: string)
    ensures (if neg then "-" else "") + DeleteChar(Agrupar(n / 100, '.'), '.') + "." + PadZeros(n % 100, 2) == m
    ensures PythonFloat(m) == Some(if neg then -(n as real / 100.0) else n as real / 100.0)
  {
    AgruparDigitos(n / 100);
    PadZerosWidth(n % 100, 2);
    m := PecasFloat(neg, DeleteChar(Agrupar(n / 100, '.'), '.'), PadZeros(n % 100, 2), n);
  }

  /** A sign, integer digits, a point and two decimals under `float()`. */
  lemma PecasFloat(neg: bool, d: string, p: string, n: nat) returns (m: string)
    requires |d| > 0 && AllDigits(d) && |p| == 2 && AllDigits(p)
    requires DigitsValue(d) == n / 100 && DigitsValue(p) == n % 100
    ensures (if neg then "-" else "") + d + "." + p == m
    ensures PythonFloat(m) == Some(if neg then -(n as real / 100.0) else n as real / 100.0)
  {
    var b;
    m, b := PecasSinal(neg, d, p, n);
    ComoFloatDe(m, b, n as real / 100.0, neg);
  }

  lemma PecasSinal(neg: bool, d: string, p: string, n: nat) returns (m: string, b: string)
    requires |d| > 0 && AllDigits(d) && |p| == 2 && AllDigits(p)
    requires DigitsValue(d) == n / 100 && DigitsValue(p) == n % 100
    ensures (if neg then "-" else "") + d + "." + p == m
    ensures Numeral(b, n as real / 100.0) && m == if neg then "-" + b else b
  {
    NumeralCentavos(d, p, n);
    ComSinal((if neg then "-" else "") + d + "." + p, neg, d, p);
    m := (if neg then "-" else "") + d + "." + p;
    b := d + "." + p;
  }

  /** `float()` of a numeral, after a minus sign when `neg`. */
  lemma ComoFloatDe(m: string, b: string, v: real, neg: bool)
    requires Numeral(b, v) && m == if neg then "-" + b else b
    ensures PythonFloat(m) == Some(if neg then -v else v)
  {
    if neg {
      PythonFloatNegativo(b, v);
    } else {
      PythonFloatNumeral(b, v);
    }
  }

  /** Reading back a formatted amount of whole cents gives the amount. */
  lemma MoedaRoundTrip(c: int)
    ensures MoedaParaFloat(PyStr(FloatParaMoeda(PyNum(c as real / 100.0)))) == c as real / 100.0
  {
    MoedaFormatada(c);
    LerFormatado(c < 0, Abs(c));
  }

  /** The "R$ " prefix makes no difference to parsing. */
  lemma MoedaSemPrefixo(t: string)
    requires 'R' !in t
    ensures MoedaParaFloat(PyStr("R$ " + t)) == MoedaParaFloat(PyStr(t))
  {
    RemoverPrefixo(t);
    ReplaceAllAbsent(t, "R$", "");
    var d := DeleteChar(t, '.');
    DeleteCharConcat(" ", t, '.');
    assert DeleteChar(" ", '.') == " ";
    MapCharConcat(" ", d, ',', '.');
    assert MapChar(" ", ',', '.') == " ";
    StripLeadingBlank(MapChar(d, ',', '.'));
  }

  /** Text `float()` rejects, `None` and zero are all formatted as "R$ 0,00". */
  lemma ExemploZero(v: Py)
    requires ParaFloat(v) == 0.0
    ensures FloatParaMoeda(v) == "R$ 0,00"
  {
    FloatParaMoedaFormato(v);
    CentavosZero();
    MontarZero();
    LiteralZero();
  }
  lemma CentavosZero() ensures Centavos(0.0) == 0 {}
  lemma LiteralZero() ensures "R$ " + "0,00" == "R$ 0,00" {}
  lemma DigitoZero() ensures NatToString(0) == "0" {}
  lemma MontarZero()
    ensures Montar(false, 0, '.', ',') == "0,00"
  {
    DigitoZero();
    assert Zeros(1) == "0";
    assert PadZeros(0, 2) == "00";
    assert Agrupar(0, '.') == "0";
    assert "" + "0" + [','] + "00" == "0,00";
  }

  /** "R$ 1.234,50" is read as 1234.5. */
  lemma ExemploLer()
    ensures MoedaParaFloat(PyStr("R$ 1.234,50")) == 1234.5
  {
    MontarMilhar();
    LiteralMilhar();
    LerFormatado(false, 123450);
  }
  lemma LiteralMilhar() ensures "R$ " + "1.234,50" == "R$ 1.234,50" {}
  lemma Milhar234() ensures NatToString(234) == "234"
  {
    assert NatToString(2) == "2";
    assert NatToString(23) == "23";
  }
  lemma Milhar50() ensures PadZeros(50, 2) == "50"
  {
    assert NatToString(5) == "5";
    assert NatToString(50) == "50";
  }
  lemma Milhar1234() ensures Agrupar(1234, '.') == "1.234"
  {
    Milhar234();
    assert PadZeros(234, 3) == "234";
    assert NatToString(1) == "1";
    assert Agrupar(1, '.') == "1";
    assert "1" + ['.'] + "234" == "1.234";
  }
  lemma MontarMilhar()
    ensures Montar(false, 123450, '.', ',') == "1.234,50"
  {
    Milhar1234();
    Milhar50();
    assert 123450 / 100 == 1234 && 123450 % 100 == 50;
    assert "" + "1.234" + [','] + "50" == "1.234,50";
  }

  /** Every "." is deleted, so "1.5" is read as 15. */
  lemma ExemploPonto()
    ensures MoedaParaFloat(PyStr("1.5")) == 15.0
  {
    var s := "1.5";
    ReplaceAllAbsent(s, "R$", "");
    var d := DeleteChar(s, '.');
    assert d == "15";
    MapCharAbsent(d, ',', '.');
    StripNoBlank(d);
    assert LimparMoeda(s) == d;
    assert IndexOf(d, '.') == 2;
    assert d[..2] == d;
    assert DigitsValue(d) == 15;
    assert Numeral(d, 15.0);
    PythonFloatNumeral(d, 15.0);
  }
}
