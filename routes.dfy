/** The pure helpers of app/api/routes.py behind the report: form parsing,
    the short reference-month label and month arithmetic and names. */
module Routes {
  import opened Base
  import opened Texto
  import opened Numero
  import Cub

  // ---------------------------------------------------------------------
  // Form parsing

  /** `str(valor)`: a missing field is `None`. */
  function TextoCampo(valor: Option<string>): string
  {
    match valor
    case None => "None"
    case Some(s) => s
  }

  /** `_parse_financiar`. */
  predicate ParseFinanciar(valor: Option<string>)
  {
    Lower(TextoCampo(valor)) in {"1", "true", "on", "sim"}
  }

  /** A missing field never asks for financing; the accepted spellings are
      case-insensitive. */
  lemma ParseFinanciarCasos()
    ensures !ParseFinanciar(None)
    ensures ParseFinanciar(Some("SIM")) && ParseFinanciar(Some("True")) && ParseFinanciar(Some("1"))
    ensures !ParseFinanciar(Some("nao")) && !ParseFinanciar(Some(""))
  {
    assert Lower("None") == "none";
    assert Lower("SIM") == "sim";
    assert Lower("True") == "true";
    LowerFixo("1");
    LowerFixo("nao");
  }

  /** `_parse_prazo_meses`: every digit of the text, in order, read as one
      number; 360 when there is none. */
  function ParsePrazoMeses(valor: Option<string>): nat
  {
    var txt := Lower(valor.GetOr(""));
    var digitos := FilterDigits(txt);
    if |digitos| > 0 then DigitsValue(digitos) else 360
  }

  /** The months are the number the digits of the input spell, whatever the
      letters around them. */
  lemma ParsePrazoMesesDigitos(valor: Option<string>)
    ensures var d := FilterDigits(valor.GetOr(""));
      ParsePrazoMeses(valor) == (if |d| > 0 then DigitsValue(d) else 360)
    ensures ParsePrazoMeses(None) == 360
  {
    FilterDigitsLower(valor.GetOr(""));
  }

  // ---------------------------------------------------------------------
  // Months

  /** Month abbreviations by two-digit code. */
  const MesesCurtos: map<string, string> :=
    map["01" := "jan", "02" := "fev", "03" := "mar", "04" := "abr", "05" := "mai", "06" := "jun",
        "07" := "jul", "08" := "ago", "09" := "set", "10" := "out", "11" := "nov", "12" := "dez"]

  /** `ano[-2:]`. */
  function DoisUltimos(s: string): (r: string)
    ensures |r| == Min(2, |s|) && r == s[|s| - |r|..]
  {
    if |s| >= 2 then s[|s| - 2..] else s
  }

  /** `_formatar_competencia_curta`: "YYYY-MM" becomes "mmm/YY", split at
      the first "-"; an unknown month code is kept as written; anything that
      is not 7 characters with a "-" gives "". */
  function FormatarCompetenciaCurta(competencia: Option<string>): string
  {
    var txt := Strip(competencia.GetOr(""));
    if |txt| != 7 || '-' !in txt then ""
    else
      var k := IndexOf(txt, '-');
      var ano, mes := txt[..k], txt[k + 1..];
      (if mes in MesesCurtos then MesesCurtos[mes] else mes) + "/" + DoisUltimos(ano)
  }

  /** The month code of a padded month 1..12 is in the table. */
  lemma MesCurtoConhecido(m: int)
    requires 1 <= m <= 12
    ensures PadZeros(m, 2) in MesesCurtos
  {
    if m < 10 {
      MesCurtoUmDigito(m);
    } else {
      MesCurtoDoisDigitos(m);
    }
  }

  lemma MesCurtoUmDigito(m: int)
    requires 1 <= m <= 9
    ensures PadZeros(m, 2) in MesesCurtos
  {
    PadZerosDois(m);
    var c := DigitChar(m % 10);
    assert '1' <= c <= '9';
    assert PadZeros(m, 2) == ['0', c];
  }

  lemma MesCurtoDoisDigitos(m: int)
    requires 10 <= m <= 12
    ensures PadZeros(m, 2) in MesesCurtos
  {
    PadZerosDois(m);
    var c := DigitChar(m % 10);
    assert '0' <= c <= '2';
    assert PadZeros(m, 2) == ['1', c];
  }

  /** A number below 100 padded to two digits is its tens and its units. */
  lemma PadZerosDois(n: nat)
    requires n < 100
    ensures PadZeros(n, 2) == [DigitChar(n / 10), DigitChar(n % 10)]
  {
    if n < 10 {
      PadZerosDigito(n, 2);
      assert n / 10 == 0 && n % 10 == n;
      assert Zeros(1) == ['0'] == [DigitChar(0)];
    } else {
      PadZerosDoisDigitos(n);
    }
  }

  lemma PadZerosDoisDigitos(n: nat)
    requires 10 <= n < 100
    ensures PadZeros(n, 2) == [DigitChar(n / 10), DigitChar(n % 10)]
  {
    assert NatToString(n / 10) == [DigitChar(n / 10)];
    assert NatToString(n) == NatToString(n / 10) + [DigitChar(n % 10)];
  }

  /** Four digits, "-" and two digits give the known abbreviation of the
      month code, or the code itself when it is not a month, then "/" and
      the last two digits of the year. */
  lemma FormatarCompetenciaCurtaDe(ano: string, mes: string)
    requires |ano| == 4 && AllDigits(ano) && |mes| == 2 && AllDigits(mes)
    ensures FormatarCompetenciaCurta(Some(ano + "-" + mes))
      == (if mes in MesesCurtos then MesesCurtos[mes] else mes) + "/" + ano[2..]
  {
    var r := ano + "-" + mes;
    assert r[0] == ano[0] && r[6] == mes[1];
    StripNoBlank(r);
    NonDigitAbsent(ano, '-');
    assert r[..4] == ano;
    IndexOfAt(r, '-', 4);
    assert r[5..] == mes;
  }

  /** The reference month of the CUB lookup always renders as a known
      abbreviation and the last two digits of its year. */
  lemma CompetenciaCurtaReferencia(ano: int, mes: int)
    requires 1 <= ano <= 9999 && 1 <= mes <= 12
    ensures var (a, m) := Cub.MesAnterior(ano, mes);
      PadZeros(m, 2) in MesesCurtos
      && FormatarCompetenciaCurta(Some(Cub.CompetenciaReferencia(ano, mes)))
        == MesesCurtos[PadZeros(m, 2)] + "/" + PadZeros(a, 4)[2..]
  {
    var (a, m) := Cub.MesAnterior(ano, mes);
    PadZerosWidth(a, 4);
    PadZerosWidth(m, 2);
    FormatarCompetenciaCurtaDe(PadZeros(a, 4), PadZeros(m, 2));
    MesCurtoConhecido(m);
  }

  const MesesPt: seq<string> :=
    ["Janeiro", "Fevereiro", "Marco", "Abril", "Maio", "Junho",
     "Julho", "Agosto", "Setembro", "Outubro", "Novembro", "Dezembro"]

  /** `_mes_pt`: the name at `(numero - 1) % 12`, Python's modulo being
      never negative for a positive divisor, as Dafny's is. */
  function MesPt(numero: int): string
  {
    MesesPt[(numero - 1) % 12]
  }

  /** Total for every integer, and periodic by twelve. */
  lemma MesPtPeriodico(numero: int)
    ensures MesPt(numero) in MesesPt
    ensures MesPt(numero + 12) == MesPt(numero) && MesPt(numero - 12) == MesPt(numero)
    ensures 1 <= numero <= 12 ==> MesPt(numero) == MesesPt[numero - 1]
    ensures MesPt(0) == "Dezembro" && MesPt(13) == "Janeiro"
  {
    assert (numero + 12 - 1) % 12 == (numero - 1) % 12;
    assert (numero - 12 - 1) % 12 == (numero - 1) % 12;
  }

  /** `_somar_meses`: `delta` months after `mes` of `ano`, with Python's
      floor division and modulo, which agree with Dafny's here. */
  function SomarMeses(ano: int, mes: int, delta: int): (r: (int, int))
    ensures 1 <= r.1 <= 12
    ensures r.0 * 12 + (r.1 - 1) == ano * 12 + (mes - 1) + delta
  {
    var total := (ano * 12 + (mes - 1)) + delta;
    (total / 12, total % 12 + 1)
  }

  /** The result is determined by the month count alone. */
  lemma SomarMesesUnico(ano: int, mes: int, delta: int, a: int, m: int)
    requires 1 <= m <= 12 && a * 12 + (m - 1) == ano * 12 + (mes - 1) + delta
    ensures SomarMeses(ano, mes, delta) == (a, m)
  {
    var r := SomarMeses(ano, mes, delta);
    assert (r.0 - a) * 12 == m - r.1;
  }

  /** Adding `d` then `-d` gives back any valid month, and two additions
      compose. */
  lemma SomarMesesInverso(ano: int, mes: int, d: int, e: int)
    requires 1 <= mes <= 12
    ensures var (a, m) := SomarMeses(ano, mes, d); SomarMeses(a, m, -d) == (ano, mes)
    ensures var (a, m) := SomarMeses(ano, mes, d); SomarMeses(a, m, e) == SomarMeses(ano, mes, d + e)
    ensures SomarMeses(ano, mes, 0) == (ano, mes)
  {
    var (a, m) := SomarMeses(ano, mes, d);
    SomarMesesUnico(a, m, -d, ano, mes);
    var (b, n) := SomarMeses(ano, mes, d + e);
    SomarMesesUnico(a, m, e, b, n);
    SomarMesesUnico(ano, mes, 0, ano, mes);
  }
}
