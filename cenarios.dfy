/** The service's own test profiles, worked through the model. */
module Cenarios {
  import opened Modelos
  import opened Pontuacao
  import opened Risco
  import opened Historico
  import opened Api

  function Perfil(nome: string, idade: int, renda: real, dividas: real, status: StatusPagamento,
                  meses: int, consultas: int): ClienteInput
  {
    ClienteInput(nome, idade, renda, dividas, status, meses, consultas, 1)
  }

  function ClienteBom(): ClienteInput
  {
    Perfil("Maria Silva", 35, 8000.0, 1500.0, EmDia, 72, 1)
  }

  function ClienteRuim(): ClienteInput
  {
    Perfil("João Teste", 22, 1500.0, 5000.0, Inadimplente, 3, 10)
  }

  /** The good profile is valid, scores 970, is low risk and gets no recommendation. */
  lemma CenarioClienteBom()
    ensures PerfilValido(ClienteBom())
    ensures Score(ClienteBom()) == 970
    ensures ClassificarRisco(Score(ClienteBom())).0 == Baixo
    ensures Recomendacoes(ClienteBom()) == []
  {
    var c := ClienteBom();
    assert EhLetra(c.nome[0]);
    ScoreLimites(c);
    SemRecomendacoes(c);
  }

  /** The bad profile scores 100, the lowest pre-clamp total, and is very high risk;
      every rule recommends something. */
  lemma CenarioClienteRuim()
    ensures PerfilValido(ClienteRuim())
    ensures Score(ClienteRuim()) == 100
    ensures ClassificarRisco(Score(ClienteRuim())).0 == MuitoAlto
    ensures |Recomendacoes(ClienteRuim())| == 5
  {
    var c := ClienteRuim();
    assert EhLetra(c.nome[0]);
    ScoreLimites(c);
  }

  /** The all-best profile is valid and reaches the ceiling exactly, without clamping. */
  lemma CenarioScoreMaximo()
    ensures PerfilValido(Perfil("Perfeito", 40, 20000.0, 0.0, EmDia, 120, 0))
    ensures ScoreBruto(Perfil("Perfeito", 40, 20000.0, 0.0, EmDia, 120, 0)) == 1000
    ensures Score(Perfil("Perfeito", 40, 20000.0, 0.0, EmDia, 120, 0)) == 1000
  {
    var c := Perfil("Perfeito", 40, 20000.0, 0.0, EmDia, 120, 0);
    assert EhLetra(c.nome[0]);
    ScoreLimites(c);
  }

  /** The worst test profile is valid and scores 100: the floor of the clamp is never reached. */
  lemma CenarioScoreMinimo()
    ensures PerfilValido(Perfil("Critico", 18, 100.0, 50000.0, Inadimplente, 0, 50))
    ensures Score(Perfil("Critico", 18, 100.0, 50000.0, Inadimplente, 0, 50)) == 100
  {
    var c := Perfil("Critico", 18, 100.0, 50000.0, Inadimplente, 0, 50);
    assert EhLetra(c.nome[0]);
    ScoreLimites(c);
  }

  /** A fresh history lists nothing; after scoring a valid profile, the
      listing is just that scoring's summary (for the good profile: 970, low
      risk). */
  method CenarioHistoricoComConsulta(c: ClienteInput, id: string, agora: Instante)
    returns (vazia: seq<HistoricoConsulta>, lista: seq<HistoricoConsulta>)
    requires PerfilValido(c)
    ensures vazia == []
    ensures lista == [HistoricoConsulta(id, c.nome, Score(c), ClassificarRisco(Score(c)).0, agora)]
  {
    var historico := new HistoricoConsultas();
    vazia := historico.Listar(10);
    var resposta := CalcularScoreEndpoint(historico, c, id, agora);
    lista := historico.Listar(10);
  }
}
