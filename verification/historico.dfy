/**
 * Historico: the append-only list of entries an account owns.
 */
module Historicos {
  import opened Dominio

  class Historico {
    /** The list _transacoes, oldest entry first. */
    var transacoes: seq<Lancamento>

    constructor ()
      ensures transacoes == []
    {
      transacoes := [];
    }

    /**
     * adicionar_transacao: append one entry carrying the transaction's class
     * name and amount, stamped with the clock reading agora; earlier entries
     * are untouched.
     */
    method AdicionarTransacao(t: Transacao, agora: Momento)
      modifies this
      ensures |transacoes| == |old(transacoes)| + 1
      ensures transacoes[..|old(transacoes)|] == old(transacoes)
      ensures transacoes[|transacoes| - 1] == Lancamento(t.Nome(), t.valor, agora)
    {
      transacoes := transacoes + [Lancamento(t.Nome(), t.valor, agora)];
    }

    /**
     * transacoes_do_dia: walk the entries and collect, in order, those whose
     * date is hoje (the day the caller reads from its clock).
     */
    method TransacoesDoDia(hoje: Data) returns (doDia: seq<Lancamento>)
      ensures doDia == DoDia(transacoes, hoje)
      ensures forall x :: x in doDia <==> x in transacoes && x.data.dia == hoje
    {
      doDia := [];
      var i := 0;
      while i < |transacoes|
        invariant 0 <= i <= |transacoes|
        invariant doDia == DoDia(transacoes[..i], hoje)
      {
        assert transacoes[..i + 1] == transacoes[..i] + [transacoes[i]];
        DoDiaAnexa(transacoes[..i], transacoes[i], hoje);
        if transacoes[i].data.dia == hoje {
          doDia := doDia + [transacoes[i]];
        }
        i := i + 1;
      }
      assert transacoes[..i] == transacoes;
      DoDiaMembros(transacoes, hoje);
    }
  }
}
