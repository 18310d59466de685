/** The lenient amount reader of app/services/utils.py. Unlike
    `moeda_para_float` it also deletes every blank, and hands the result to
    `float()` without stripping it first. */
module Utils {
  import opened Base
  import opened Texto
  import opened Numero
  import opened Formatacao

  /** The text `normalizar_valor_monetario` hands to `float()`: "R$" removed,
      then every " ", every "." deleted and "," turned into ".". */
  function Normalizado(s: string): string
  {
    MapChar(DeleteChar(DeleteChar(ReplaceAll(s, "R$", ""), ' '), '.'), ',', '.')
  }

  /** `normalizar_valor_monetario`: `None` is 0, numbers pass through, any
      other value is read through its text, and a failed parse gives 0. */
  function NormalizarValorMonetario(v: Py): real
  {
    match v
    case PyNone => 0.0
    case PyNum(x) => x
    case PyStr(s) => PythonFloat(Normalizado(s)).GetOr(0.0)
  }

  /** On text without blanks both readers agree. */
  lemma NormalizarComoMoeda(s: string)
    requires ' ' !in s
    ensures NormalizarValorMonetario(PyStr(s)) == MoedaParaFloat(PyStr(s))
  {
    var r := ReplaceAll(s, "R$", "");
    ReplaceAllRemoveKeeps(s, "R$", ' ');
    DeleteCharAbsent(r, ' ');
    PythonFloatStrip(MapChar(DeleteChar(r, '.'), ',', '.'));
  }

  /** Text formatted by `float_para_moeda` holds one blank, after "R$", and
      both readers agree on it. */
  lemma NormalizarPrefixo(t: string)
    requires ' ' !in t && 'R' !in t
    ensures NormalizarValorMonetario(PyStr("R$ " + t)) == MoedaParaFloat(PyStr(t))
  {
    RemoverPrefixo(t);
    DeleteCharConcat(" ", t, ' ');
    assert DeleteChar(" ", ' ') == [];
    DeleteCharAbsent(t, ' ');
    assert [] + t == t;
    assert Normalizado("R$ " + t) == MapChar(DeleteChar(t, '.'), ',', '.');
    ReplaceAllAbsent(t, "R$", "");
    assert Normalizado(t) == MapChar(DeleteChar(t, '.'), ',', '.');
    NormalizarComoMoeda(t);
  }

  /** Every amount of whole cents that `float_para_moeda` writes is read back. */
  lemma NormalizarFormatado(c: int)
    ensures NormalizarValorMonetario(PyStr(FloatParaMoeda(PyNum(c as real / 100.0)))) == c as real / 100.0
  {
    var neg, n := c < 0, Abs(c);
    MoedaFormatada(c);
    MontarSem(neg, n, ' ');
    MontarSem(neg, n, 'R');
    NormalizarPrefixo(Montar(neg, n, '.', ','));
    MoedaSemPrefixo(Montar(neg, n, '.', ','));
    MoedaRoundTrip(c);
  }

  /** 'R$ 250.000,00' gives 250000. */
  lemma ExemploPrefixo()
    ensures NormalizarValorMonetario(PyStr("R$ 250.000,00")) == 250000.0
  {
    MontarDuzentos();
    MontarSem(false, 25000000, ' ');
    MontarSem(false, 25000000, 'R');
    NormalizarPrefixo("250.000,00");
    MoedaSemPrefixo("250.000,00");
    LerFormatado(false, 25000000);
    LiteralDuzentos();
  }

  /** '250.000,00' gives 250000. */
  lemma ExemploMilhar()
    ensures NormalizarValorMonetario(PyStr("250.000,00")) == 250000.0
  {
    MontarDuzentos();
    MontarSem(false, 25000000, ' ');
    MontarSem(false, 25000000, 'R');
    NormalizarComoMoeda("250.000,00");
    MoedaSemPrefixo("250.000,00");
    LerFormatado(false, 25000000);
    LiteralDuzentos();
  }

  lemma LiteralDuzentos()
    ensures "R$ " + "250.000,00" == "R$ 250.000,00"
  {
  }

  lemma MontarDuzentos()
    ensures Montar(false, 25000000, '.', ',') == "250.000,00"
  {
    AgruparDuzentos();
    DecimaisZero();
    assert 25000000 / 100 == 250000 && 25000000 % 100 == 0;
    assert "" + "250.000" + [','] + "00" == "250.000,00";
  }

  lemma DuzentosECinquenta()
    ensures NatToString(250) == "250"
  {
    assert NatToString(2) == "2";
    assert NatToString(25) == "25";
  }

  lemma DecimaisZero()
    ensures PadZeros(0, 2) == "00"
  {
    PadZerosDigito(0, 2);
    assert Zeros(1) == ['0'];
  }

  lemma MilharZero()
    ensures PadZeros(0, 3) == "000"
  {
    PadZerosDigito(0, 3);
    ZerosDois();
  }

  lemma ZerosDois()
    ensures Zeros(2) == ['0', '0']
  {
    assert Zeros(1) == ['0'];
  }

  lemma AgruparDuzentos()
    ensures Agrupar(250000, '.') == "250.000"
  {
    var cabeca := Agrupar(250, '.');
    assert cabeca == "250" by {
      DuzentosECinquenta();
    }
    var cauda := PadZeros(0, 3);
    assert cauda == "000" by {
      MilharZero();
    }
    assert Agrupar(250000, '.') == cabeca + ['.'] + cauda by {
      assert 250000 / 1000 == 250 && 250000 % 1000 == 0;
    }
    assert cabeca + ['.'] + cauda == "250.000";
  }

  /** '250000' gives 250000. */
  lemma ExemploDigitos()
    ensures NormalizarValorMonetario(PyStr("250000")) == 250000.0
  {
    var s := "250000";
    NormalizadoDigitos(s);
    DigitosDuzentos();
    PythonFloatDigits(s);
  }

  /** Digits pass through the cleaning unchanged. */
  lemma NormalizadoDigitos(s: string)
    requires AllDigits(s)
    ensures Normalizado(s) == s
  {
    NonDigitAbsent(s, 'R');
    NonDigitAbsent(s, ' ');
    NonDigitAbsent(s, '.');
    NonDigitAbsent(s, ',');
    ReplaceAllAbsent(s, "R$", "");
    DeleteCharAbsent(s, ' ');
    DeleteCharAbsent(s, '.');
    MapCharAbsent(s, ',', '.');
  }

  lemma DigitosDuzentos()
    ensures AllDigits("250000") && DigitsValue("250000") == 250000
  {
    DuzentosECinquenta();
    assert NatToString(2500) == "2500";
    assert NatToString(25000) == "25000";
    assert NatToString(250000) == "250000";
  }

  /** Blanks inside the number are deleted: "1 234" gives 1234, where
      `moeda_para_float` gives 0. */
  lemma ExemploBranco()
    ensures NormalizarValorMonetario(PyStr("1 234")) == 1234.0
    ensures MoedaParaFloat(PyStr("1 234")) == 0.0
  {
    MilDuzentos();
    assert "1" + " " + "234" == "1 234";
    assert "1" + "234" == "1234";
    BrancoEntreDigitos("1", "234");
  }

  /** Two runs of digits with a blank between them: the lenient reader
      joins them into one number, `moeda_para_float` rejects the text. */
  lemma BrancoEntreDigitos(a: string, b: string)
    requires |a| > 0 && |b| > 0 && AllDigits(a) && AllDigits(b)
    ensures NormalizarValorMonetario(PyStr(a + " " + b)) == DigitsValue(a + b) as real
    ensures MoedaParaFloat(PyStr(a + " " + b)) == 0.0
  {
    BrancoNormalizado(a, b);
    PythonFloatDigits(a + b);
    BrancoMoeda(a, b);
  }

  lemma BrancoNormalizado(a: string, b: string)
    requires |a| > 0 && |b| > 0 && AllDigits(a) && AllDigits(b)
    ensures Normalizado(a + " " + b) == a + b && AllDigits(a + b)
  {
    var s := a + " " + b;
    NonDigitAbsent(a, 'R');
    NonDigitAbsent(b, 'R');
    assert 'R' !in s;
    SemLetras(s);
    DeleteCharConcat(a + " ", b, ' ');
    DeleteCharConcat(a, " ", ' ');
    NonDigitAbsent(a, ' ');
    NonDigitAbsent(b, ' ');
    DeleteCharAbsent(a, ' ');
    DeleteCharAbsent(b, ' ');
    assert DeleteChar(" ", ' ') == [];
    assert DeleteChar(s, ' ') == a + b;
    assert AllDigits(a + b) by {
      forall i | 0 <= i < |a + b| ensures IsDigit((a + b)[i]) {
        if i < |a| { assert (a + b)[i] == a[i]; } else { assert (a + b)[i] == b[i - |a|]; }
      }
    }
    NonDigitAbsent(a + b, '.');
    NonDigitAbsent(a + b, ',');
    DeleteCharAbsent(a + b, '.');
    MapCharAbsent(a + b, ',', '.');
  }

  lemma BrancoMoeda(a: string, b: string)
    requires |a| > 0 && |b| > 0 && AllDigits(a) && AllDigits(b)
    ensures MoedaParaFloat(PyStr(a + " " + b)) == 0.0
  {
    var s := a + " " + b;
    NonDigitAbsent(a, 'R');
    NonDigitAbsent(b, 'R');
    NonDigitAbsent(a, '.');
    NonDigitAbsent(b, '.');
    NonDigitAbsent(a, ',');
    NonDigitAbsent(b, ',');
    assert 'R' !in s && '.' !in s && ',' !in s;
    SemLetras(s);
    DeleteCharAbsent(s, '.');
    MapCharAbsent(s, ',', '.');
    assert s[0] == a[0] && s[|s| - 1] == b[|b| - 1];
    StripNoBlank(s);
    assert LimparMoeda(s) == s;
    BrancoRejeitado(s, |a|);
  }

  lemma SemLetras(s: string)
    requires 'R' !in s
    ensures ReplaceAll(s, "R$", "") == s
  {
    ReplaceAllAbsent(s, "R$", "");
  }

  lemma MilDuzentos()
    ensures AllDigits("1234") && DigitsValue("1234") == 1234
  {
    assert NatToString(1) == "1";
    assert NatToString(12) == "12";
    assert NatToString(123) == "123";
    assert NatToString(1234) == "1234";
  }

  /** `float()` rejects an unsigned text without a point that holds a
      non-digit. */
  lemma BrancoRejeitado(s: string, i: nat)
    requires 0 < i < |s| && IsDigit(s[0]) && IsDigit(s[|s| - 1]) && !IsDigit(s[i]) && '.' !in s
    ensures PythonFloat(s) == None
  {
    StripNoBlank(s);
    assert IndexOf(s, '.') == |s|;
    assert s[..|s|] == s;
  }
}
