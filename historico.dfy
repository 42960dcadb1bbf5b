/** The query history: an in-memory list of summaries, appended once per
    successful scoring and read back newest first. */
module Historico {
  import opened Modelos

  function Reverso<T>(s: seq<T>): (r: seq<T>)
    ensures |r| == |s|
  {
    if s == [] then [] else Reverso(s[1..]) + [s[0]]
  }

  lemma {:induction false} ReversoEm<T>(s: seq<T>, k: int)
    requires 0 <= k < |s|
    ensures Reverso(s)[k] == s[|s| - 1 - k]
  {
    if k < |s| - 1 {
      ReversoEm(s[1..], k);
    }
  }

  /** Python's `h[-limite:]` for a positive limit: the last `limite` entries,
      or all of them when there are fewer. */
  function Ultimas<T>(h: seq<T>, limite: int): (r: seq<T>)
    requires limite >= 1
    ensures |r| == if limite < |h| then limite else |h|
    ensures r == h[|h| - |r|..]
  {
    if limite < |h| then h[|h| - limite..] else h
  }

  /** The history read: the last `limite` entries, newest first. */
  function UltimasConsultas(h: seq<HistoricoConsulta>, limite: int): (r: seq<HistoricoConsulta>)
    requires limite >= 1
    ensures |r| == if limite < |h| then limite else |h|
  {
    Reverso(Ultimas(h, limite))
  }

  /** The read returns min(limite, |h|) entries, the k-th being the k-th newest. */
  lemma UltimasConsultasSpec(h: seq<HistoricoConsulta>, limite: int)
    requires limite >= 1
    ensures |UltimasConsultas(h, limite)| == if limite < |h| then limite else |h|
    ensures forall k :: 0 <= k < |UltimasConsultas(h, limite)| ==> UltimasConsultas(h, limite)[k] == h[|h| - 1 - k]
  {
    var u := Ultimas(h, limite);
    forall k | 0 <= k < |u|
      ensures Reverso(u)[k] == h[|h| - 1 - k]
    {
      ReversoEm(u, k);
    }
  }

  /** Reversing a sequence with one more element at the end puts it first. */
  lemma {:induction false} ReversoFinal<T>(s: seq<T>, x: T)
    ensures Reverso(s + [x]) == [x] + Reverso(s)
  {
    if s == [] {
      assert s + [x] == [x];
    } else {
      assert (s + [x])[0] == s[0];
      assert (s + [x])[1..] == s[1..] + [x];
      ReversoFinal(s[1..], x);
    }
  }

  /** After one more append, the read starts with the new entry and goes on
      with what the previous history's read of one entry fewer gave. */
  lemma UltimasAposRegistro(h: seq<HistoricoConsulta>, x: HistoricoConsulta, limite: int)
    requires limite >= 2
    ensures UltimasConsultas(h + [x], limite) == [x] + UltimasConsultas(h, limite - 1)
  {
    if limite - 1 < |h| {
      assert (h + [x])[|h| + 1 - limite..] == h[|h| - (limite - 1)..] + [x];
    }
    assert Ultimas(h + [x], limite) == Ultimas(h, limite - 1) + [x];
    ReversoFinal(Ultimas(h, limite - 1), x);
  }

  /** A read of one entry returns just the newest one. */
  lemma UltimaConsulta(h: seq<HistoricoConsulta>, x: HistoricoConsulta)
    ensures UltimasConsultas(h + [x], 1) == [x]
  {
    UltimasConsultasSpec(h + [x], 1);
  }

  /** Appending R1 then R2 to an empty history and reading two gives [R2, R1]. */
  lemma DuasConsultas(r1: HistoricoConsulta, r2: HistoricoConsulta)
    ensures UltimasConsultas([r1, r2], 2) == [r2, r1]
  {
    UltimasConsultasSpec([r1, r2], 2);
  }

  /** An empty history reads as empty. */
  lemma HistoricoVazio(limite: int)
    requires limite >= 1
    ensures UltimasConsultas([], limite) == []
  {
  }

  /** The process-wide history list. */
  class HistoricoConsultas {
    var consultas: seq<HistoricoConsulta>

    /** The history starts empty. */
    constructor ()
      ensures consultas == []
    {
      consultas := [];
    }

    /** Appends one record, last. */
    method Registrar(r: HistoricoConsulta)
      modifies this
      ensures consultas == old(consultas) + [r]
    {
      consultas := consultas + [r];
    }

    /** The history listing: the last `limite` records, newest first. It
        changes nothing, so two reads with no append between agree. */
    method Listar(limite: int) returns (rs: seq<HistoricoConsulta>)
      requires 1 <= limite <= 100
      ensures rs == UltimasConsultas(consultas, limite)
      ensures |rs| == if limite < |consultas| then limite else |consultas|
      ensures forall k :: 0 <= k < |rs| ==> rs[k] == consultas[|consultas| - 1 - k]
    {
      rs := Reverso(Ultimas(consultas, limite));
      UltimasConsultasSpec(consultas, limite);
    }
  }

  /** Two records appended to a fresh history are listed newest first, and
      listing again gives the same. */
  method ListarAposDuasConsultas(r1: HistoricoConsulta, r2: HistoricoConsulta)
    returns (lista: seq<HistoricoConsulta>, denovo: seq<HistoricoConsulta>)
    ensures lista == [r2, r1]
    ensures denovo == lista
  {
    var h := new HistoricoConsultas();
    h.Registrar(r1);
    h.Registrar(r2);
    assert h.consultas == [r1, r2];
    lista := h.Listar(2);
    denovo := h.Listar(2);
    DuasConsultas(r1, r2);
  }
}
