/** The body of the scoring endpoint without its HTTP transport: score,
    classify, split the factors by polarity, append one summary to the
    history and answer. The query id and the timestamp are supplied by the
    caller. */
module Api {
  import opened Modelos
  import opened Pontuacao
  import opened Risco
  import opened Historico

  /** The factors of polarity `t`, in their original order. */
  function FiltrarTipo(fs: seq<FatorAnalise>, t: Tipo): (r: seq<FatorAnalise>)
    ensures |r| <= |fs|
    ensures forall f :: f in r ==> f in fs && f.tipo == t
  {
    if fs == [] then []
    else if fs[0].tipo == t then [fs[0]] + FiltrarTipo(fs[1..], t)
    else FiltrarTipo(fs[1..], t)
  }

  /** Nothing of polarity `t` is dropped. */
  lemma {:induction false} FiltrarTipoCompleto(fs: seq<FatorAnalise>, t: Tipo)
    ensures forall f :: f in fs && f.tipo == t ==> f in FiltrarTipo(fs, t)
  {
    if fs != [] {
      FiltrarTipoCompleto(fs[1..], t);
      forall f | f in fs && f.tipo == t
        ensures f in FiltrarTipo(fs, t)
      {
        if f != fs[0] {
          assert f in fs[1..];
        }
      }
    }
  }

  /** Filtering keeps the input's order: filtering a concatenation
      concatenates the filtered parts. */
  lemma {:induction false} FiltrarTipoConcat(a: seq<FatorAnalise>, b: seq<FatorAnalise>, t: Tipo)
    ensures FiltrarTipo(a + b, t) == FiltrarTipo(a, t) + FiltrarTipo(b, t)
  {
    if a == [] {
      assert a + b == b;
    } else {
      assert (a + b)[0] == a[0];
      assert (a + b)[1..] == a[1..] + b;
      FiltrarTipoConcat(a[1..], b, t);
    }
  }

  /** The positive and negative lists together hold every factor exactly once. */
  lemma {:induction false} ParticaoPreservaFatores(fs: seq<FatorAnalise>)
    ensures multiset(FiltrarTipo(fs, Positivo)) + multiset(FiltrarTipo(fs, Negativo)) == multiset(fs)
  {
    if fs != [] {
      var f, resto := fs[0], fs[1..];
      var pos, neg := FiltrarTipo(resto, Positivo), FiltrarTipo(resto, Negativo);
      ParticaoPreservaFatores(resto);
      assert fs == [f] + resto;
      if f.tipo == Positivo {
        assert FiltrarTipo(fs, Positivo) == [f] + pos;
        assert FiltrarTipo(fs, Negativo) == neg;
        assert multiset([f] + pos) == multiset([f]) + multiset(pos);
      } else {
        assert FiltrarTipo(fs, Positivo) == pos;
        assert FiltrarTipo(fs, Negativo) == [f] + neg;
        assert multiset([f] + neg) == multiset([f]) + multiset(neg);
      }
      assert multiset(fs) == multiset([f]) + multiset(resto);
    }
  }

  /** When polarity follows the sign of the points, filtering by polarity is
      filtering by sign. */
  lemma FiltrarPorSinal(fs: seq<FatorAnalise>)
    requires forall f :: f in fs ==> (f.tipo == Positivo <==> f.impacto > 0)
    ensures forall f :: f in FiltrarTipo(fs, Positivo) <==> f in fs && f.impacto > 0
    ensures forall f :: f in FiltrarTipo(fs, Negativo) <==> f in fs && f.impacto <= 0
  {
    FiltrarTipoCompleto(fs, Positivo);
    FiltrarTipoCompleto(fs, Negativo);
  }

  /** In a scoring response the positive list holds exactly the factors that
      gained points and the negative list exactly those that did not. */
  lemma PositivosSaoGanhos(c: ClienteInput)
    ensures forall f :: f in FiltrarTipo(Fatores(c), Positivo) <==> f in Fatores(c) && f.impacto > 0
    ensures forall f :: f in FiltrarTipo(Fatores(c), Negativo) <==> f in Fatores(c) && f.impacto <= 0
  {
    TipoSegueImpacto(c);
    FiltrarPorSinal(Fatores(c));
  }

  /** The scoring endpoint: a validated profile is scored and classified, and
      only then is exactly one summary appended to the history, last. */
  method CalcularScoreEndpoint(historico: HistoricoConsultas, cliente: ClienteInput, idConsulta: string, agora: Instante)
    returns (resposta: ScoreResponse)
    requires PerfilValido(cliente)
    modifies historico
    ensures resposta.score == Score(cliente)
    ensures SCORE_MINIMO <= resposta.score <= SCORE_MAXIMO
    ensures (resposta.nivelRisco, resposta.mensagem) == ClassificarRisco(Score(cliente))
    ensures resposta.fatoresPositivos == FiltrarTipo(Fatores(cliente), Positivo)
    ensures resposta.fatoresNegativos == FiltrarTipo(Fatores(cliente), Negativo)
    ensures resposta.recomendacoes == Recomendacoes(cliente)
    ensures resposta.idConsulta == idConsulta && resposta.nomeCliente == cliente.nome && resposta.dataConsulta == agora
    ensures historico.consultas == old(historico.consultas) +
      [HistoricoConsulta(idConsulta, cliente.nome, Score(cliente), ClassificarRisco(Score(cliente)).0, agora)]
  {
    var score, fatores, recomendacoes := CalcularScore(cliente);
    var (nivelRisco, mensagem) := ClassificarRisco(score);
    var fatoresPositivos := FiltrarTipo(fatores, Positivo);
    var fatoresNegativos := FiltrarTipo(fatores, Negativo);
    historico.Registrar(HistoricoConsulta(idConsulta, cliente.nome, score, nivelRisco, agora));
    resposta := ScoreResponse(idConsulta, cliente.nome, score, nivelRisco, mensagem,
                              fatoresPositivos, fatoresNegativos, recomendacoes, agora);
  }

  /** The history endpoint: the last `limite` summaries, newest first. */
  method ListarHistorico(historico: HistoricoConsultas, limite: int) returns (lista: seq<HistoricoConsulta>)
    requires 1 <= limite <= 100
    ensures lista == UltimasConsultas(historico.consultas, limite)
    ensures |lista| <= limite && |lista| <= |historico.consultas|
  {
    lista := historico.Listar(limite);
  }
}
