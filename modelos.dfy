/** Data model of the credit-score service: the enumerations, the client
    profile accepted by the scoring endpoint, the analysis factor, the
    records the service answers with and stores, the service constants and
    the input bounds the validation layer enforces before scoring. */
module Modelos {

  datatype Option<T> = None | Some(value: T)

  /** Payment-history status declared by the client. */
  datatype StatusPagamento = EmDia | AtrasoLeve | AtrasoGrave | Inadimplente

  /** Risk tier, from lowest to highest risk. */
  datatype NivelRisco = Baixo | Medio | Alto | MuitoAlto

  /** Polarity of a factor; the service writes it as "positivo" / "negativo". */
  datatype Tipo = Positivo | Negativo

  /** One rule's contribution: factor name, description, signed points,
      polarity and the rule's own optional advice. */
  datatype FatorAnalise = FatorAnalise(
    fator: string,
    descricao: string,
    impacto: int,
    tipo: Tipo,
    recomendacao: Option<string>)

  /** The client profile. Money amounts are exact reals. */
  datatype ClienteInput = ClienteInput(
    nome: string,
    idade: int,
    rendaMensal: real,
    dividasTotais: real,
    historicoPagamentos: StatusPagamento,
    tempoPrimeiroCreditoMeses: int,
    consultasUltimos6Meses: int,
    quantidadeContasBancarias: int)

  /** A moment in time, supplied by the caller (the service reads the clock). */
  type Instante = int

  /** Summary of one completed scoring, as kept in the history. */
  datatype HistoricoConsulta = HistoricoConsulta(
    idConsulta: string,
    nomeCliente: string,
    score: int,
    nivelRisco: NivelRisco,
    dataConsulta: Instante)

  /** The scoring endpoint's answer. */
  datatype ScoreResponse = ScoreResponse(
    idConsulta: string,
    nomeCliente: string,
    score: int,
    nivelRisco: NivelRisco,
    mensagem: string,
    fatoresPositivos: seq<FatorAnalise>,
    fatoresNegativos: seq<FatorAnalise>,
    recomendacoes: seq<string>,
    dataConsulta: Instante)

  const SCORE_BASE: int := 500
  const SCORE_MINIMO: int := 0
  const SCORE_MAXIMO: int := 1000

  const LIMITE_RISCO_BAIXO: int := 800
  const LIMITE_RISCO_MEDIO: int := 600
  const LIMITE_RISCO_ALTO: int := 400

  // ---------------------------------------------------------------------
  // Name validation: the length bounds are checked on the raw text, then
  // the text is stripped and must still hold at least one letter; the
  // stripped text is what the profile carries.
  // ---------------------------------------------------------------------

  /** The characters Python's str.strip() removes when called without arguments. */
  predicate EhEspaco(ch: char)
  {
    var n := ch as int;
    (9 <= n <= 13) || (28 <= n <= 32) || n == 0x85 || n == 0xA0 || n == 0x1680
    || (0x2000 <= n <= 0x200A) || n == 0x2028 || n == 0x2029 || n == 0x202F
    || n == 0x205F || n == 0x3000
  }

  /** Letters: ASCII, Latin-1 and Latin Extended-A (an approximation of str.isalpha). */
  predicate EhLetra(ch: char)
  {
    var n := ch as int;
    ('A' <= ch <= 'Z') || ('a' <= ch <= 'z') || n == 0xAA || n == 0xB5 || n == 0xBA
    || (0xC0 <= n <= 0xD6) || (0xD8 <= n <= 0xF6) || (0xF8 <= n <= 0x17F)
  }

  predicate TemLetra(s: string)
  {
    exists i :: 0 <= i < |s| && EhLetra(s[i])
  }

  /** Drops leading whitespace. */
  function SemEspacoInicial(s: string): (r: string)
    ensures |r| <= |s| && r == s[|s| - |r|..]
    ensures r != [] ==> !EhEspaco(r[0])
    ensures forall i :: 0 <= i < |s| - |r| ==> EhEspaco(s[i])
  {
    if s != [] && EhEspaco(s[0]) then SemEspacoInicial(s[1..]) else s
  }

  /** Drops trailing whitespace. */
  function SemEspacoFinal(s: string): (r: string)
    ensures |r| <= |s| && r == s[..|r|]
    ensures r != [] ==> !EhEspaco(r[|r| - 1])
    ensures forall i :: |r| <= i < |s| ==> EhEspaco(s[i])
  {
    if s != [] && EhEspaco(s[|s| - 1]) then SemEspacoFinal(s[..|s| - 1]) else s
  }

  /** Python's str.strip() without arguments. */
  function Strip(s: string): (r: string)
    ensures |r| <= |s|
  {
    SemEspacoFinal(SemEspacoInicial(s))
  }

  /** The name validator: None is a validation error, Some(v) the accepted name. */
  function ValidarNome(bruto: string): (r: Option<string>)
    ensures r.Some? ==> 3 <= |bruto| <= 100 && |r.value| <= |bruto|
    ensures r.Some? ==> r.value == Strip(bruto) && TemLetra(r.value)
  {
    if 3 <= |bruto| <= 100 then
      var v := Strip(bruto);
      if TemLetra(v) then Some(v) else None
    else None
  }

  /** What an accepted name satisfies: at most 100 characters, a letter,
      and no whitespace left at either end. */
  predicate NomeAceito(nome: string)
  {
    && |nome| <= 100
    && TemLetra(nome)
    && (nome != [] ==> !EhEspaco(nome[0]) && !EhEspaco(nome[|nome| - 1]))
  }

  /** The field bounds the validation layer enforces before the engine runs. */
  predicate PerfilValido(c: ClienteInput)
  {
    && NomeAceito(c.nome)
    && 18 <= c.idade <= 100
    && c.rendaMensal >= 0.0
    && c.dividasTotais >= 0.0
    && 0 <= c.tempoPrimeiroCreditoMeses <= 600
    && 0 <= c.consultasUltimos6Meses <= 50
    && 0 <= c.quantidadeContasBancarias <= 10
  }

  /** Stripping twice removes nothing more. */
  lemma StripIdempotente(s: string)
    ensures Strip(Strip(s)) == Strip(s)
    ensures |Strip(s)| <= |s|
  {
    var u := SemEspacoInicial(s);
    var v := SemEspacoFinal(u);
    if v != [] {
      assert v[0] == u[0];
    }
    assert SemEspacoInicial(v) == v;
  }

  /** A stripped text has no whitespace at either end and is no longer than the original. */
  lemma StripNasPontas(s: string)
    ensures |Strip(s)| <= |s|
    ensures Strip(s) != [] ==> !EhEspaco(Strip(s)[0]) && !EhEspaco(Strip(s)[|Strip(s)| - 1])
  {
    var u := SemEspacoInicial(s);
    var v := SemEspacoFinal(u);
    if v != [] {
      assert v[0] == u[0];
    }
  }

  /** Every name the validator accepts satisfies NomeAceito, and stripping it again changes nothing. */
  lemma ValidarNomeAceito(bruto: string)
    ensures ValidarNome(bruto).Some? ==> NomeAceito(ValidarNome(bruto).value)
    ensures ValidarNome(bruto).Some? ==> Strip(ValidarNome(bruto).value) == ValidarNome(bruto).value
  {
    StripNasPontas(bruto);
    StripIdempotente(bruto);
  }

  /** Conversely, every name satisfying NomeAceito comes out of validation
      unchanged: as typed when it has at least 3 characters, and from the
      same text behind two leading blanks when it is shorter. So NomeAceito
      is exactly the set of names validation can produce. */
  lemma NomeAceitoValidado(n: string)
    requires NomeAceito(n)
    ensures ValidarNome(if |n| >= 3 then n else "  " + n) == Some(n)
  {
    assert n != [];
    assert SemEspacoFinal(n) == n;
    if |n| >= 3 {
      assert SemEspacoInicial(n) == n;
    } else {
      SemEspacoInicialPrefixo("  ", n);
      assert Strip("  " + n) == n;
    }
  }

  /** A two-letter name is refused. */
  lemma NomeCurtoRecusado()
    ensures ValidarNome("AB") == None
  {
  }

  /** Leading whitespace in front of a non-blank text is exactly what is dropped. */
  lemma {:induction false} SemEspacoInicialPrefixo(w: string, v: string)
    requires forall i :: 0 <= i < |w| ==> EhEspaco(w[i])
    requires v != [] && !EhEspaco(v[0])
    ensures SemEspacoInicial(w + v) == v
  {
    if w == [] {
      assert w + v == v;
    } else {
      assert (w + v)[0] == w[0];
      assert (w + v)[1..] == w[1..] + v;
      forall i | 0 <= i < |w[1..]|
        ensures EhEspaco(w[1..][i])
      {
        assert w[1..][i] == w[i + 1];
      }
      SemEspacoInicialPrefixo(w[1..], v);
    }
  }

  /** The length bound applies before stripping: "  A" passes and is kept as "A". */
  lemma NomeEncurtadoAposStrip()
    ensures ValidarNome("  A") == Some("A")
  {
    SemEspacoInicialPrefixo("  ", "A");
    assert "  " + "A" == "  A";
    assert SemEspacoFinal("A") == "A";
    assert EhLetra("A"[0]);
  }
}
