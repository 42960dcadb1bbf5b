/** The scoring engine: five independent tiered rules, each producing one
    factor and at most one recommendation, added to a base of 500 and
    clamped to [0, 1000].

    The rules are first given as functions (the specification); the method
    CalcularScore then accumulates the score and the two lists step by step,
    as the service does, and is proved to compute exactly what the functions
    describe. */
module Pontuacao {
  import opened Modelos

  // The fixed texts of the five rules: factor names, descriptions, the
  // factor's own advice ("_DICA") and the response's recommendation ("_REC").

  const FATOR_RENDA: string := "Renda Mensal"
  const FATOR_ENDIVIDAMENTO: string := "Taxa de Endividamento"
  const FATOR_PAGAMENTOS: string := "Histórico de Pagamentos"
  const FATOR_TEMPO: string := "Tempo de Histórico"
  const FATOR_CONSULTAS: string := "Consultas Recentes"

  const RENDA_ADEQUADA: string := "Renda mensal adequada"
  const RENDA_ESTAVEL: string := "Renda mensal estável"
  const RENDA_BAIXA: string := "Renda mensal baixa"
  const RENDA_BAIXA_DICA: string := "Considere buscar fontes adicionais de renda"
  const RENDA_BAIXA_REC: string := "Busque aumentar sua renda mensal"
  const DIVIDA_BAIXA: string := "Baixo nível"
  const DIVIDA_CONTROLADA: string := "Controlado"
  const DIVIDA_ELEVADA: string := "Elevado"
  const DIVIDA_ELEVADA_DICA: string := "Reduza suas dívidas"
  const DIVIDA_ELEVADA_REC: string := "Priorize quitar dívidas com juros altos"
  const DIVIDA_CRITICA: string := "Crítico"
  const DIVIDA_CRITICA_DICA: string := "Situação urgente!"
  const DIVIDA_CRITICA_REC: string := "Procure um especialista em finanças"
  const PAGAMENTO_EM_DIA: string := "Pagamentos em dia"
  const ATRASO_LEVE: string := "Alguns atrasos pontuais"
  const ATRASO_LEVE_DICA: string := "Evite atrasos"
  const ATRASO_LEVE_REC: string := "Configure débito automático"
  const ATRASO_GRAVE: string := "Atrasos frequentes"
  const ATRASO_GRAVE_DICA: string := "Regularize os pagamentos"
  const ATRASO_GRAVE_REC: string := "Negocie pagamentos atrasados"
  const INADIMPLENCIA: string := "Inadimplência ativa"
  const INADIMPLENCIA_DICA: string := "URGENTE: Regularize!"
  const INADIMPLENCIA_REC: string := "URGENTE: Procure o Serasa Limpa Nome"
  const TEMPO_LONGO: string := "Histórico longo e consolidado"
  const TEMPO_ESTABELECIDO: string := "Histórico estabelecido"
  const TEMPO_EM_CONSTRUCAO: string := "Histórico em construção"
  const TEMPO_RECENTE: string := "Histórico muito recente"
  const TEMPO_RECENTE_REC: string := "Mantenha contas ativas para construir histórico"
  const SEM_CONSULTAS: string := "Sem consultas recentes"
  const POUCAS_CONSULTAS: string := "Poucas consultas"
  const MULTIPLAS_CONSULTAS: string := "Múltiplas consultas"
  const MULTIPLAS_CONSULTAS_REC: string := "Evite solicitar crédito em muitos lugares"
  const EXCESSO_CONSULTAS: string := "Excesso de consultas"
  const EXCESSO_CONSULTAS_REC: string := "Aguarde antes de pedir novo crédito"

  /** What one rule yields: its factor and the recommendation (if any) it
      adds to the response's recommendation list. The latter is a different
      text from the factor's own `recomendacao`. */
  datatype Avaliacao = Avaliacao(fator: FatorAnalise, recomendacao: Option<string>)

  // ---------------------------------------------------------------------
  // The five rules
  // ---------------------------------------------------------------------

  /** Rule 1: monthly income, first matching tier wins. */
  function AvaliarRenda(renda: real): (r: Avaliacao)
    ensures r.fator.fator == FATOR_RENDA
    ensures -30 <= r.fator.impacto <= 100
    ensures r.fator.tipo == Positivo <==> r.fator.impacto > 0
    ensures r.recomendacao == None <==> renda >= 2000.0
  {
    if renda >= 5000.0 then
      Avaliacao(FatorAnalise(FATOR_RENDA, RENDA_ADEQUADA, 100, Positivo, None), None)
    else if renda >= 2000.0 then
      Avaliacao(FatorAnalise(FATOR_RENDA, RENDA_ESTAVEL, 50, Positivo, None), None)
    else
      Avaliacao(FatorAnalise(FATOR_RENDA, RENDA_BAIXA, -30, Negativo,
                             Some(RENDA_BAIXA_DICA)),
                Some(RENDA_BAIXA_REC))
  }

  /** Debt-to-income ratio as a percentage, or the sentinel 999 when there
      is no positive income to divide by. */
  function TaxaEndividamento(renda: real, dividas: real): (t: real)
    ensures renda > 0.0 ==> t * renda == dividas * 100.0
    ensures renda <= 0.0 ==> t == 999.0
  {
    if renda > 0.0 then (dividas / renda) * 100.0 else 999.0
  }

  /** Rule 2: indebtedness, by ratio tier. */
  function AvaliarEndividamento(taxa: real): (r: Avaliacao)
    ensures r.fator.fator == FATOR_ENDIVIDAMENTO
    ensures -100 <= r.fator.impacto <= 125
    ensures r.fator.tipo == Positivo <==> r.fator.impacto > 0
    ensures r.recomendacao == None <==> taxa < 50.0
  {
    if taxa < 30.0 then
      Avaliacao(FatorAnalise(FATOR_ENDIVIDAMENTO, DIVIDA_BAIXA, 125, Positivo, None), None)
    else if taxa < 50.0 then
      Avaliacao(FatorAnalise(FATOR_ENDIVIDAMENTO, DIVIDA_CONTROLADA, 60, Positivo, None), None)
    else if taxa < 80.0 then
      Avaliacao(FatorAnalise(FATOR_ENDIVIDAMENTO, DIVIDA_ELEVADA, -50, Negativo, Some(DIVIDA_ELEVADA_DICA)),
                Some(DIVIDA_ELEVADA_REC))
    else
      Avaliacao(FatorAnalise(FATOR_ENDIVIDAMENTO, DIVIDA_CRITICA, -100, Negativo, Some(DIVIDA_CRITICA_DICA)),
                Some(DIVIDA_CRITICA_REC))
  }

  /** Rule 3: payment history, a lookup on the status. */
  function AvaliarPagamentos(status: StatusPagamento): (r: Avaliacao)
    ensures r.fator.fator == FATOR_PAGAMENTOS
    ensures -200 <= r.fator.impacto <= 150
    ensures r.fator.tipo == Positivo <==> r.fator.impacto > 0
    ensures r.recomendacao == None <==> status == EmDia
  {
    match status
    case EmDia =>
      Avaliacao(FatorAnalise(FATOR_PAGAMENTOS, PAGAMENTO_EM_DIA, 150, Positivo, None), None)
    case AtrasoLeve =>
      Avaliacao(FatorAnalise(FATOR_PAGAMENTOS, ATRASO_LEVE, 50, Positivo, Some(ATRASO_LEVE_DICA)),
                Some(ATRASO_LEVE_REC))
    case AtrasoGrave =>
      Avaliacao(FatorAnalise(FATOR_PAGAMENTOS, ATRASO_GRAVE, -100, Negativo, Some(ATRASO_GRAVE_DICA)),
                Some(ATRASO_GRAVE_REC))
    case Inadimplente =>
      Avaliacao(FatorAnalise(FATOR_PAGAMENTOS, INADIMPLENCIA, -200, Negativo, Some(INADIMPLENCIA_DICA)),
                Some(INADIMPLENCIA_REC))
  }

  /** Polarity derived from the sign of the points, as rules 4 and 5 do. */
  function TipoDe(pontos: int): Tipo
  {
    if pontos > 0 then Positivo else Negativo
  }

  /** Rule 4: length of the credit history in months. */
  function AvaliarTempo(meses: int): (r: Avaliacao)
    ensures r.fator.fator == FATOR_TEMPO
    ensures -20 <= r.fator.impacto <= 75
    ensures r.fator.tipo == Positivo <==> r.fator.impacto > 0
    ensures r.recomendacao == None <==> meses >= 6
  {
    var (pontos, descricao, recomendacao) :=
      if meses >= 60 then (75, TEMPO_LONGO, None)
      else if meses >= 24 then (40, TEMPO_ESTABELECIDO, None)
      else if meses >= 6 then (10, TEMPO_EM_CONSTRUCAO, None)
      else (-20, TEMPO_RECENTE, Some(TEMPO_RECENTE_REC));
    Avaliacao(FatorAnalise(FATOR_TEMPO, descricao, pontos, TipoDe(pontos), None), recomendacao)
  }

  /** Rule 5: credit inquiries in the last six months. */
  function AvaliarConsultas(consultas: int): (r: Avaliacao)
    ensures r.fator.fator == FATOR_CONSULTAS
    ensures -50 <= r.fator.impacto <= 50
    ensures r.fator.tipo == Positivo <==> r.fator.impacto > 0
    ensures r.recomendacao == None <==> consultas <= 3
  {
    var (pontos, descricao, recomendacao) :=
      if consultas == 0 then (50, SEM_CONSULTAS, None)
      else if consultas <= 3 then (20, POUCAS_CONSULTAS, None)
      else if consultas <= 6 then (-20, MULTIPLAS_CONSULTAS, Some(MULTIPLAS_CONSULTAS_REC))
      else (-50, EXCESSO_CONSULTAS, Some(EXCESSO_CONSULTAS_REC));
    Avaliacao(FatorAnalise(FATOR_CONSULTAS, descricao, pontos, TipoDe(pontos), None), recomendacao)
  }

  // ---------------------------------------------------------------------
  // The engine as a whole
  // ---------------------------------------------------------------------

  /** Rule 2 applied to a profile: the ratio is computed first. */
  function AvaliarDivida(c: ClienteInput): Avaliacao
  {
    AvaliarEndividamento(TaxaEndividamento(c.rendaMensal, c.dividasTotais))
  }

  /** The five factors, one per rule, in evaluation order. */
  function Fatores(c: ClienteInput): (r: seq<FatorAnalise>)
    ensures |r| == 5
  {
    [ AvaliarRenda(c.rendaMensal).fator,
      AvaliarDivida(c).fator,
      AvaliarPagamentos(c.historicoPagamentos).fator,
      AvaliarTempo(c.tempoPrimeiroCreditoMeses).fator,
      AvaliarConsultas(c.consultasUltimos6Meses).fator ]
  }

  /** The recommendation list: each rule's recommendation, if it has one, in rule order. */
  function Recomendacoes(c: ClienteInput): (r: seq<string>)
    ensures |r| <= 5
  {
    Lista(AvaliarRenda(c.rendaMensal).recomendacao)
    + Lista(AvaliarDivida(c).recomendacao)
    + Lista(AvaliarPagamentos(c.historicoPagamentos).recomendacao)
    + Lista(AvaliarTempo(c.tempoPrimeiroCreditoMeses).recomendacao)
    + Lista(AvaliarConsultas(c.consultasUltimos6Meses).recomendacao)
  }

  /** The score before clamping: the base plus the five rules' points. */
  function ScoreBruto(c: ClienteInput): (r: int)
    ensures 100 <= r <= 1000
  {
    SCORE_BASE
    + AvaliarRenda(c.rendaMensal).fator.impacto
    + AvaliarDivida(c).fator.impacto
    + AvaliarPagamentos(c.historicoPagamentos).fator.impacto
    + AvaliarTempo(c.tempoPrimeiroCreditoMeses).fator.impacto
    + AvaliarConsultas(c.consultasUltimos6Meses).fator.impacto
  }

  function SomaImpactos(fs: seq<FatorAnalise>): int
  {
    if fs == [] then 0 else fs[0].impacto + SomaImpactos(fs[1..])
  }

  /** Clamps a score into [SCORE_MINIMO, SCORE_MAXIMO]. */
  function Limitar(x: int): (r: int)
    ensures SCORE_MINIMO <= r <= SCORE_MAXIMO
    ensures SCORE_MINIMO <= x <= SCORE_MAXIMO ==> r == x
    ensures x < SCORE_MINIMO ==> r == SCORE_MINIMO
    ensures x > SCORE_MAXIMO ==> r == SCORE_MAXIMO
  {
    Max(SCORE_MINIMO, Min(SCORE_MAXIMO, x))
  }

  function Score(c: ClienteInput): (r: int)
    ensures SCORE_MINIMO <= r <= SCORE_MAXIMO
  {
    Limitar(ScoreBruto(c))
  }

  /** The service's scoring routine: starts at the base and applies the five
      rules in order, each appending its factor (and possibly a
      recommendation) and adding its points, then clamps the total. */
  method CalcularScore(cliente: ClienteInput) returns (score: int, fatores: seq<FatorAnalise>, recomendacoes: seq<string>)
    requires PerfilValido(cliente)
    ensures score == Score(cliente)
    ensures fatores == Fatores(cliente)
    ensures recomendacoes == Recomendacoes(cliente)
    ensures SCORE_MINIMO <= score <= SCORE_MAXIMO
  {
    score := SCORE_BASE;
    fatores := [];
    recomendacoes := [];
    score, fatores, recomendacoes := AplicarRenda(cliente.rendaMensal, score, fatores, recomendacoes);
    assert fatores == [AvaliarRenda(cliente.rendaMensal).fator];
    assert recomendacoes == Lista(AvaliarRenda(cliente.rendaMensal).recomendacao);
    score, fatores, recomendacoes := AplicarEndividamento(cliente.rendaMensal, cliente.dividasTotais, score, fatores, recomendacoes);
    score, fatores, recomendacoes := AplicarPagamentos(cliente.historicoPagamentos, score, fatores, recomendacoes);
    score, fatores, recomendacoes := AplicarTempo(cliente.tempoPrimeiroCreditoMeses, score, fatores, recomendacoes);
    score, fatores, recomendacoes := AplicarConsultas(cliente.consultasUltimos6Meses, score, fatores, recomendacoes);
    ScoreLimites(cliente);
    score := Max(SCORE_MINIMO, Min(SCORE_MAXIMO, score));
  }

  /** Rule 1 block of CalcularScore. */
  method AplicarRenda(renda: real, score: int, fatores: seq<FatorAnalise>, recomendacoes: seq<string>)
    returns (score': int, fatores': seq<FatorAnalise>, recomendacoes': seq<string>)
    ensures score' == score + AvaliarRenda(renda).fator.impacto
    ensures fatores' == fatores + [AvaliarRenda(renda).fator]
    ensures recomendacoes' == recomendacoes + Lista(AvaliarRenda(renda).recomendacao)
  {
    fatores', recomendacoes' := fatores, recomendacoes;
    var pontosRenda: int;
    if renda >= 5000.0 {
      pontosRenda := 100;
      fatores' := fatores' + [FatorAnalise(FATOR_RENDA, RENDA_ADEQUADA, pontosRenda, Positivo, None)];
    } else if renda >= 2000.0 {
      pontosRenda := 50;
      fatores' := fatores' + [FatorAnalise(FATOR_RENDA, RENDA_ESTAVEL, pontosRenda, Positivo, None)];
    } else {
      pontosRenda := -30;
      fatores' := fatores' + [FatorAnalise(FATOR_RENDA, RENDA_BAIXA, pontosRenda, Negativo,
                                           Some(RENDA_BAIXA_DICA))];
      recomendacoes' := recomendacoes' + [RENDA_BAIXA_REC];
    }
    score' := score + pontosRenda;
  }

  /** Rule 2 block of CalcularScore, including the division guard. */
  method AplicarEndividamento(renda: real, dividas: real, score: int, fatores: seq<FatorAnalise>, recomendacoes: seq<string>)
    returns (score': int, fatores': seq<FatorAnalise>, recomendacoes': seq<string>)
    ensures score' == score + AvaliarEndividamento(TaxaEndividamento(renda, dividas)).fator.impacto
    ensures fatores' == fatores + [AvaliarEndividamento(TaxaEndividamento(renda, dividas)).fator]
    ensures recomendacoes' == recomendacoes + Lista(AvaliarEndividamento(TaxaEndividamento(renda, dividas)).recomendacao)
  {
    fatores', recomendacoes' := fatores, recomendacoes;
    var taxaEndividamento: real;
    if renda > 0.0 {
      taxaEndividamento := (dividas / renda) * 100.0;
    } else {
      taxaEndividamento := 999.0;
    }
    var pontosDivida: int;
    if taxaEndividamento < 30.0 {
      pontosDivida := 125;
      fatores' := fatores' + [FatorAnalise(FATOR_ENDIVIDAMENTO, DIVIDA_BAIXA, pontosDivida, Positivo, None)];
    } else if taxaEndividamento < 50.0 {
      pontosDivida := 60;
      fatores' := fatores' + [FatorAnalise(FATOR_ENDIVIDAMENTO, DIVIDA_CONTROLADA, pontosDivida, Positivo, None)];
    } else if taxaEndividamento < 80.0 {
      pontosDivida := -50;
      fatores' := fatores' + [FatorAnalise(FATOR_ENDIVIDAMENTO, DIVIDA_ELEVADA, pontosDivida, Negativo,
                                           Some(DIVIDA_ELEVADA_DICA))];
      recomendacoes' := recomendacoes' + [DIVIDA_ELEVADA_REC];
    } else {
      pontosDivida := -100;
      fatores' := fatores' + [FatorAnalise(FATOR_ENDIVIDAMENTO, DIVIDA_CRITICA, pontosDivida, Negativo,
                                           Some(DIVIDA_CRITICA_DICA))];
      recomendacoes' := recomendacoes' + [DIVIDA_CRITICA_REC];
    }
    score' := score + pontosDivida;
  }

  /** Rule 3 block of CalcularScore. */
  method AplicarPagamentos(status: StatusPagamento, score: int, fatores: seq<FatorAnalise>, recomendacoes: seq<string>)
    returns (score': int, fatores': seq<FatorAnalise>, recomendacoes': seq<string>)
    ensures score' == score + AvaliarPagamentos(status).fator.impacto
    ensures fatores' == fatores + [AvaliarPagamentos(status).fator]
    ensures recomendacoes' == recomendacoes + Lista(AvaliarPagamentos(status).recomendacao)
  {
    fatores', recomendacoes' := fatores, recomendacoes;
    var pontosHistorico: int;
    if status == EmDia {
      pontosHistorico := 150;
      fatores' := fatores' + [FatorAnalise(FATOR_PAGAMENTOS, PAGAMENTO_EM_DIA, pontosHistorico, Positivo, None)];
    } else if status == AtrasoLeve {
      pontosHistorico := 50;
      fatores' := fatores' + [FatorAnalise(FATOR_PAGAMENTOS, ATRASO_LEVE, pontosHistorico, Positivo,
                                           Some(ATRASO_LEVE_DICA))];
      recomendacoes' := recomendacoes' + [ATRASO_LEVE_REC];
    } else if status == AtrasoGrave {
      pontosHistorico := -100;
      fatores' := fatores' + [FatorAnalise(FATOR_PAGAMENTOS, ATRASO_GRAVE, pontosHistorico, Negativo,
                                           Some(ATRASO_GRAVE_DICA))];
      recomendacoes' := recomendacoes' + [ATRASO_GRAVE_REC];
    } else {
      pontosHistorico := -200;
      fatores' := fatores' + [FatorAnalise(FATOR_PAGAMENTOS, INADIMPLENCIA, pontosHistorico, Negativo,
                                           Some(INADIMPLENCIA_DICA))];
      recomendacoes' := recomendacoes' + [INADIMPLENCIA_REC];
    }
    score' := score + pontosHistorico;
  }

  /** Rule 4 block of CalcularScore; the polarity follows the sign of the points. */
  method AplicarTempo(meses: int, score: int, fatores: seq<FatorAnalise>, recomendacoes: seq<string>)
    returns (score': int, fatores': seq<FatorAnalise>, recomendacoes': seq<string>)
    ensures score' == score + AvaliarTempo(meses).fator.impacto
    ensures fatores' == fatores + [AvaliarTempo(meses).fator]
    ensures recomendacoes' == recomendacoes + Lista(AvaliarTempo(meses).recomendacao)
  {
    recomendacoes' := recomendacoes;
    var pontosTempo: int;
    var descricao: string;
    if meses >= 60 {
      pontosTempo, descricao := 75, TEMPO_LONGO;
    } else if meses >= 24 {
      pontosTempo, descricao := 40, TEMPO_ESTABELECIDO;
    } else if meses >= 6 {
      pontosTempo, descricao := 10, TEMPO_EM_CONSTRUCAO;
    } else {
      pontosTempo, descricao := -20, TEMPO_RECENTE;
      recomendacoes' := recomendacoes' + [TEMPO_RECENTE_REC];
    }
    fatores' := fatores + [FatorAnalise(FATOR_TEMPO, descricao, pontosTempo,
                                        if pontosTempo > 0 then Positivo else Negativo, None)];
    score' := score + pontosTempo;
  }

  /** Rule 5 block of CalcularScore; the polarity follows the sign of the points. */
  method AplicarConsultas(consultas: int, score: int, fatores: seq<FatorAnalise>, recomendacoes: seq<string>)
    returns (score': int, fatores': seq<FatorAnalise>, recomendacoes': seq<string>)
    ensures score' == score + AvaliarConsultas(consultas).fator.impacto
    ensures fatores' == fatores + [AvaliarConsultas(consultas).fator]
    ensures recomendacoes' == recomendacoes + Lista(AvaliarConsultas(consultas).recomendacao)
  {
    recomendacoes' := recomendacoes;
    var pontosConsultas: int;
    var descricao: string;
    if consultas == 0 {
      pontosConsultas, descricao := 50, SEM_CONSULTAS;
    } else if consultas <= 3 {
      pontosConsultas, descricao := 20, POUCAS_CONSULTAS;
    } else if consultas <= 6 {
      pontosConsultas, descricao := -20, MULTIPLAS_CONSULTAS;
      recomendacoes' := recomendacoes' + [MULTIPLAS_CONSULTAS_REC];
    } else {
      pontosConsultas, descricao := -50, EXCESSO_CONSULTAS;
      recomendacoes' := recomendacoes' + [EXCESSO_CONSULTAS_REC];
    }
    fatores' := fatores + [FatorAnalise(FATOR_CONSULTAS, descricao, pontosConsultas,
                                        if pontosConsultas > 0 then Positivo else Negativo, None)];
    score' := score + pontosConsultas;
  }

  function Min(a: int, b: int): int { if a <= b then a else b }
  function Max(a: int, b: int): int { if a >= b then a else b }

  // ---------------------------------------------------------------------
  // Properties of the engine
  // ---------------------------------------------------------------------

  /** The pre-clamp score is the base plus the sum of the factors' points. */
  lemma ScoreBrutoSomaFatores(c: ClienteInput)
    ensures ScoreBruto(c) == SCORE_BASE + SomaImpactos(Fatores(c))
  {
    var fs := Fatores(c);
    assert fs[4..][1..] == [];
    assert fs[3..][1..] == fs[4..];
    assert fs[2..][1..] == fs[3..];
    assert fs[1..][1..] == fs[2..];
    assert SomaImpactos(fs[4..]) == fs[4].impacto;
    assert SomaImpactos(fs[3..]) == fs[3].impacto + SomaImpactos(fs[4..]);
    assert SomaImpactos(fs[2..]) == fs[2].impacto + SomaImpactos(fs[3..]);
    assert SomaImpactos(fs[1..]) == fs[1].impacto + SomaImpactos(fs[2..]);
  }

  function Lista(o: Option<string>): (r: seq<string>)
    ensures |r| <= 1
  {
    match o case Some(x) => [x] case None => []
  }

  /** The pre-clamp total already lies in range, so clamping never changes
      it and no score falls below 100. */
  lemma ScoreLimites(c: ClienteInput)
    ensures Score(c) == ScoreBruto(c)
    ensures 100 <= Score(c)
  {
  }

  /** Always five factors, named in evaluation order. */
  lemma FatoresEmOrdem(c: ClienteInput)
    ensures |Fatores(c)| == 5
    ensures Fatores(c)[0].fator == FATOR_RENDA
    ensures Fatores(c)[1].fator == FATOR_ENDIVIDAMENTO
    ensures Fatores(c)[2].fator == FATOR_PAGAMENTOS
    ensures Fatores(c)[3].fator == FATOR_TEMPO
    ensures Fatores(c)[4].fator == FATOR_CONSULTAS
  {
  }

  /** Every factor is "positivo" exactly when its points are positive. */
  lemma TipoSegueImpacto(c: ClienteInput)
    ensures forall f :: f in Fatores(c) ==> (f.tipo == Positivo <==> f.impacto > 0)
  {
    var fs := Fatores(c);
    forall f | f in fs
      ensures f.tipo == Positivo <==> f.impacto > 0
    {
      var i :| 0 <= i < |fs| && fs[i] == f;
      assert i == 0 || i == 1 || i == 2 || i == 3 || i == 4;
    }
  }

  /** With positive income the ratio tiers compare debt*100 with tier*income. */
  lemma TaxaAbaixoDe(renda: real, dividas: real, limite: real)
    requires renda > 0.0
    ensures TaxaEndividamento(renda, dividas) < limite <==> dividas * 100.0 < limite * renda
  {
    var t := TaxaEndividamento(renda, dividas);
    assert t * renda == dividas * 100.0;
    if t < limite {
      assert t * renda < limite * renda;
    } else {
      assert t * renda >= limite * renda;
    }
  }

  /** Division guard: with no income the ratio is the sentinel 999 and the
      debt rule always lands in its worst tier, whatever the debt. */
  lemma SemRendaEndividamentoCritico(c: ClienteInput)
    requires c.rendaMensal == 0.0
    ensures TaxaEndividamento(c.rendaMensal, c.dividasTotais) == 999.0
    ensures Fatores(c)[1] == FatorAnalise(FATOR_ENDIVIDAMENTO, DIVIDA_CRITICA, -100, Negativo, Some(DIVIDA_CRITICA_DICA))
    ensures DIVIDA_CRITICA_REC in Recomendacoes(c)
  {
  }

  // Monotonicity of the individual rules, all other inputs fixed.

  lemma RendaMonotona(r1: real, r2: real)
    requires r1 <= r2
    ensures AvaliarRenda(r1).fator.impacto <= AvaliarRenda(r2).fator.impacto
  {
  }

  lemma TempoMonotono(m1: int, m2: int)
    requires m1 <= m2
    ensures AvaliarTempo(m1).fator.impacto <= AvaliarTempo(m2).fator.impacto
  {
  }

  lemma ConsultasAntitonas(n1: int, n2: int)
    requires 0 <= n1 <= n2
    ensures AvaliarConsultas(n1).fator.impacto >= AvaliarConsultas(n2).fator.impacto
  {
  }

  /** More debt at the same positive income never earns more debt points. */
  lemma EndividamentoAntitono(renda: real, d1: real, d2: real)
    requires renda > 0.0 && d1 <= d2
    ensures AvaliarEndividamento(TaxaEndividamento(renda, d1)).fator.impacto
         >= AvaliarEndividamento(TaxaEndividamento(renda, d2)).fator.impacto
  {
    TaxaCrescenteNaDivida(renda, d1, d2);
  }

  lemma TaxaCrescenteNaDivida(renda: real, d1: real, d2: real)
    requires renda > 0.0 && d1 <= d2
    ensures TaxaEndividamento(renda, d1) <= TaxaEndividamento(renda, d2)
  {
    var t1, t2 := TaxaEndividamento(renda, d1), TaxaEndividamento(renda, d2);
    assert (t2 - t1) * renda == (d2 - d1) * 100.0;
    NaoNegativoPorProduto(t2 - t1, renda);
  }

  /** A factor x whose product with a positive r is non-negative is non-negative. */
  lemma NaoNegativoPorProduto(x: real, r: real)
    requires r > 0.0 && x * r >= 0.0
    ensures x >= 0.0
  {
  }

  /** The payment table is strictly ordered from on-time to defaulted. */
  lemma PagamentosOrdenados()
    ensures AvaliarPagamentos(EmDia).fator.impacto > AvaliarPagamentos(AtrasoLeve).fator.impacto
    ensures AvaliarPagamentos(AtrasoLeve).fator.impacto > AvaliarPagamentos(AtrasoGrave).fator.impacto
    ensures AvaliarPagamentos(AtrasoGrave).fator.impacto > AvaliarPagamentos(Inadimplente).fator.impacto
  {
  }

  /** For non-negative debt, raising the income never lowers the whole score:
      the income tier can only rise and the ratio can only fall (leaving the
      999 sentinel when the income becomes positive). */
  lemma ScoreMonotonoNaRenda(c: ClienteInput, renda: real)
    requires c.dividasTotais >= 0.0 && c.rendaMensal <= renda
    ensures Score(c) <= Score(c.(rendaMensal := renda))
  {
    var c2 := c.(rendaMensal := renda);
    ScoreLimites(c);
    ScoreLimites(c2);
    var t1 := TaxaEndividamento(c.rendaMensal, c.dividasTotais);
    var t2 := TaxaEndividamento(renda, c.dividasTotais);
    if c.rendaMensal > 0.0 {
      TaxaDecrescenteNaRenda(c.rendaMensal, renda, c.dividasTotais);
    }
    assert AvaliarEndividamento(t1).fator.impacto <= AvaliarEndividamento(t2).fator.impacto;
  }

  lemma TaxaDecrescenteNaRenda(r1: real, r2: real, dividas: real)
    requires 0.0 < r1 <= r2 && dividas >= 0.0
    ensures TaxaEndividamento(r2, dividas) <= TaxaEndividamento(r1, dividas)
  {
    var t1, t2 := TaxaEndividamento(r1, dividas), TaxaEndividamento(r2, dividas);
    assert t1 * r1 == dividas * 100.0;
    NaoNegativoPorProduto(t1, r1);
    assert (t1 - t2) * r2 == t1 * (r2 - r1);
    assert t1 * (r2 - r1) >= 0.0;
    NaoNegativoPorProduto(t1 - t2, r2);
  }

  /** A mild delay is a positive factor and still adds a recommendation. */
  lemma AtrasoLeveRecomenda(c: ClienteInput)
    requires c.historicoPagamentos == AtrasoLeve
    ensures Fatores(c)[2].tipo == Positivo && Fatores(c)[2].impacto == 50
    ensures ATRASO_LEVE_REC in Recomendacoes(c)
  {
  }

  /** No recommendation at all exactly when every rule is in a good tier. */
  lemma SemRecomendacoes(c: ClienteInput)
    ensures Recomendacoes(c) == [] <==>
      && c.rendaMensal >= 2000.0
      && c.dividasTotais * 100.0 < 50.0 * c.rendaMensal
      && c.historicoPagamentos == EmDia
      && c.tempoPrimeiroCreditoMeses >= 6
      && c.consultasUltimos6Meses <= 3
  {
    if c.rendaMensal > 0.0 {
      TaxaAbaixoDe(c.rendaMensal, c.dividasTotais, 50.0);
    }
  }
}
