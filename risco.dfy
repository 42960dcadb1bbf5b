/** The risk classifier: a highest-first threshold chain from the score to
    the risk tier and its fixed message. */
module Risco {
  import opened Modelos

  /** The fixed message of each risk tier. */
  const MENSAGEM_BAIXO: string := "🟢 Excelente! Perfil muito saudável."
  const MENSAGEM_MEDIO: string := "🟡 Bom! Há espaço para melhorias."
  const MENSAGEM_ALTO: string := "🟠 Atenção! Precisa de melhorias."
  const MENSAGEM_MUITO_ALTO: string := "🔴 Crítico! Ações urgentes necessárias."

  /** Maps a score to its risk tier and message; each tier includes its lower bound. */
  function ClassificarRisco(score: int): (r: (NivelRisco, string))
    ensures r.0 == Baixo <==> score >= LIMITE_RISCO_BAIXO
    ensures r.0 == Medio <==> LIMITE_RISCO_MEDIO <= score < LIMITE_RISCO_BAIXO
    ensures r.0 == Alto <==> LIMITE_RISCO_ALTO <= score < LIMITE_RISCO_MEDIO
    ensures r.0 == MuitoAlto <==> score < LIMITE_RISCO_ALTO
    ensures r.1 == Mensagem(r.0)
  {
    if score >= 800 then
      (Baixo, MENSAGEM_BAIXO)
    else if score >= 600 then
      (Medio, MENSAGEM_MEDIO)
    else if score >= 400 then
      (Alto, MENSAGEM_ALTO)
    else
      (MuitoAlto, MENSAGEM_MUITO_ALTO)
  }

  /** The fixed message that goes with each tier. */
  function Mensagem(n: NivelRisco): string
  {
    match n
    case Baixo => MENSAGEM_BAIXO
    case Medio => MENSAGEM_MEDIO
    case Alto => MENSAGEM_ALTO
    case MuitoAlto => MENSAGEM_MUITO_ALTO
  }

  /** The tiers' order by severity: 0 for lowest risk, 3 for highest. */
  function Gravidade(n: NivelRisco): nat
  {
    match n
    case Baixo => 0
    case Medio => 1
    case Alto => 2
    case MuitoAlto => 3
  }

  /** Risk never increases as the score increases. */
  lemma RiscoNaoCresce(s1: int, s2: int)
    requires s1 <= s2
    ensures Gravidade(ClassificarRisco(s2).0) <= Gravidade(ClassificarRisco(s1).0)
  {
  }

  /** The boundary scores land in the higher-score tier. */
  lemma LimitesInclusivos()
    ensures ClassificarRisco(800).0 == Baixo
    ensures ClassificarRisco(799).0 == Medio
    ensures ClassificarRisco(600).0 == Medio
    ensures ClassificarRisco(400).0 == Alto
    ensures ClassificarRisco(399).0 == MuitoAlto
  {
  }
}
