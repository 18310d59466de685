/** The payment-token store of app/services/pagamentos_mp.py: a map from
    token to a status ("pendente" or "pago") and the report data. */
module PagamentosMp {
  import opened Base

  /** `dados[token]`. */
  datatype Pagamento = Pagamento(status: string, dados: map<string, Py>)

  const LinkPagamentoPix := "https://mpago.la/1DucMHZ"

  /** The store after `registrar_pagamento_pendente`: a paid token stays
      paid, any other becomes pending, and the new data is merged over the
      old with the new keys winning. */
  function RegistrarEm(m: map<string, Pagamento>, token: string, novos: map<string, Py>): map<string, Pagamento>
  {
    var atual := if token in m then m[token].dados else map[];
    var status := if token in m && m[token].status == "pago" then "pago" else "pendente";
    m[token := Pagamento(status, atual + novos)]
  }

  /** The store after `confirmar_pagamento`. */
  function ConfirmarEm(m: map<string, Pagamento>, token: string): map<string, Pagamento>
  {
    if token in m then m[token := m[token].(status := "pago")] else m
  }

  /** `status_pagamento`. */
  function StatusEm(m: map<string, Pagamento>, token: string): string
  {
    if |token| == 0 then "inexistente"
    else if token in m then m[token].status
    else "inexistente"
  }

  /** `dados_relatorio or {}`. */
  function OuVazio(dadosRelatorio: Option<map<string, Py>>): map<string, Py>
  {
    dadosRelatorio.GetOr(map[])
  }

  /** What `criar_pagamento` registers: the report data, or the amount when
      there is none (or it is empty). */
  function DadosCriacao(valorCentavos: int, dadosRelatorio: Option<map<string, Py>>): (r: map<string, Py>)
    ensures |OuVazio(dadosRelatorio)| == 0 ==> r == map["valor_centavos" := PyNum(valorCentavos as real)]
    ensures |OuVazio(dadosRelatorio)| > 0 ==> r == dadosRelatorio.value
  {
    match dadosRelatorio
    case Some(d) => if |d| > 0 then d else map["valor_centavos" := PyNum(valorCentavos as real)]
    case None => map["valor_centavos" := PyNum(valorCentavos as real)]
  }

  /** Registering: the token is present afterwards, pending unless it was
      already paid, and its data holds every old key not overridden and every
      new key with its new value. */
  lemma RegistrarEstado(m: map<string, Pagamento>, token: string, novos: map<string, Py>)
    ensures var r := RegistrarEm(m, token, novos);
      token in r
      && (r[token].status == "pago" <==> token in m && m[token].status == "pago")
      && (r[token].status != "pago" ==> r[token].status == "pendente")
      && (forall k :: k in novos ==> k in r[token].dados && r[token].dados[k] == novos[k])
      && (token in m ==> forall k :: k in m[token].dados && k !in novos ==> k in r[token].dados && r[token].dados[k] == m[token].dados[k])
      && r[token].dados.Keys == (if token in m then m[token].dados.Keys else {}) + novos.Keys
  {
  }

  /** Confirming: a known token becomes paid; an unknown one changes nothing;
      twice is the same as once. */
  lemma ConfirmarEstado(m: map<string, Pagamento>, token: string)
    ensures token in m ==> StatusEm(ConfirmarEm(m, token), token) == (if |token| == 0 then "inexistente" else "pago")
    ensures token !in m ==> ConfirmarEm(m, token) == m
    ensures ConfirmarEm(ConfirmarEm(m, token), token) == ConfirmarEm(m, token)
  {
  }

  /** No operation moves a paid token back, and neither touches another token's record. */
  lemma PagoPermanece(m: map<string, Pagamento>, token: string, novos: map<string, Py>, outro: string)
    ensures outro in m && m[outro].status == "pago" ==>
      RegistrarEm(m, token, novos)[outro].status == "pago" && ConfirmarEm(m, token)[outro].status == "pago"
    ensures outro != token ==>
      (outro in RegistrarEm(m, token, novos) <==> outro in m)
      && (outro in ConfirmarEm(m, token) <==> outro in m)
      && (outro in m ==> RegistrarEm(m, token, novos)[outro] == m[outro] && ConfirmarEm(m, token)[outro] == m[outro])
  {
  }

  /** An empty or unknown token has no status. */
  lemma StatusInexistente(m: map<string, Pagamento>, token: string)
    ensures |token| == 0 || token !in m ==> StatusEm(m, token) == "inexistente"
    ensures |token| > 0 && token in m ==> StatusEm(m, token) == m[token].status
  {
  }

  /** A registered token is pending until confirmed, then paid. */
  lemma RegistrarConfirmar(m: map<string, Pagamento>, token: string, novos: map<string, Py>)
    requires |token| > 0 && !(token in m && m[token].status == "pago")
    ensures StatusEm(RegistrarEm(m, token, novos), token) == "pendente"
    ensures StatusEm(ConfirmarEm(RegistrarEm(m, token, novos), token), token) == "pago"
  {
  }

  /** The store (`pagamentos_mp.json`). */
  class Pagamentos {
    var registros: map<string, Pagamento>

    /** A store with no file has no records. */
    constructor ()
      ensures registros == map[]
    {
      registros := map[];
    }

    /** `registrar_pagamento_pendente`. */
    method RegistrarPagamentoPendente(token: string, dadosRelatorio: Option<map<string, Py>>) returns (r: string)
      modifies this
      ensures registros == RegistrarEm(old(registros), token, OuVazio(dadosRelatorio))
      ensures r == token
    {
      var atual := if token in registros then registros[token] else Pagamento("pendente", map[]);
      var status := atual.status;
      registros := registros[token := Pagamento(if status == "pago" then "pago" else "pendente",
                                                atual.dados + OuVazio(dadosRelatorio))];
      r := token;
    }

    /** `confirmar_pagamento`. */
    method ConfirmarPagamento(token: string)
      modifies this
      ensures registros == ConfirmarEm(old(registros), token)
    {
      if token in registros {
        registros := registros[token := registros[token].(status := "pago")];
      }
    }

    /** `status_pagamento`. */
    method StatusPagamento(token: string) returns (s: string)
      ensures s == StatusEm(registros, token)
      ensures s == "inexistente" || token in registros
    {
      if |token| == 0 {
        return "inexistente";
      }
      s := if token in registros then registros[token].status else "inexistente";
    }

    /** `criar_pagamento`; `novoToken` is the random hex the source draws
        when no token is given. */
    method CriarPagamento(valorCentavos: int, token: Option<string>, dadosRelatorio: Option<map<string, Py>>,
                          novoToken: string)
      returns (url: string, usado: string)
      modifies this
      ensures usado == (if token.Some? && |token.value| > 0 then token.value else novoToken)
      ensures url == LinkPagamentoPix + "?ref=" + usado
      ensures registros == RegistrarEm(old(registros), usado, DadosCriacao(valorCentavos, dadosRelatorio))
    {
      usado := if token.Some? && |token.value| > 0 then token.value else novoToken;
      var dados := DadosCriacao(valorCentavos, dadosRelatorio);
      var _ := RegistrarPagamentoPendente(usado, Some(dados));
      url := LinkPagamentoPix + "?ref=" + usado;
    }
  }
}
