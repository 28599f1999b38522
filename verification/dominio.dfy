/**
 * Values and pure rules of the account-and-ledger engine shared by both
 * versions of the program (desafio3-versaofinal.py and vfinal.py):
 * transactions, history entries, account variants, the rules that decide
 * whether a movement is accepted, and what an accepted movement does to an
 * account's balance and history. The classes in module Contas are proved
 * to behave exactly as the functions here say.
 */
module Dominio {

  datatype Option<T> = None | Some(value: T)

  /** A calendar day; the model only compares days for equality. */
  type Data = int

  /** When an entry is recorded: its day and the second within that day. */
  datatype Momento = Momento(dia: Data, segundo: nat)

  /** Class names that the history writes into an entry's "tipo". */
  const NomeSaque: string := "Saque"
  const NomeDeposito: string := "Deposito"

  /** Branch code of every account. */
  const AgenciaPadrao: string := "1008"
  /** Defaults of ContaCorrente.__init__: per-withdrawal limit and withdrawal count cap. */
  const LimitePadrao: real := 500.0
  const LimiteSaquesPadrao: nat := 3
  /** Number of entries dated today from which Cliente.realizar_transacao refuses (desafio3 only). */
  const LimiteTransacoesDia: nat := 2

  /** A requested movement: an instance of Saque or of Deposito. */
  datatype Transacao = Saque(valor: real) | Deposito(valor: real)
  {
    /** The class name stored as the entry's "tipo". */
    function Nome(): string
    {
      if Saque? then NomeSaque else NomeDeposito
    }
  }

  /** One history entry: the dictionary {"tipo", "valor", "data"}. */
  datatype Lancamento = Lancamento(tipo: string, valor: real, data: Momento)

  /** Conta (no extra rule) or ContaCorrente with its limite and limite_saques. */
  datatype Variante = Simples | Corrente(limite: real, limiteSaques: nat)

  /** Why a movement is refused: one printed message per refusing branch. */
  datatype Motivo = SaldoInsuficiente | ValorInvalido | LimiteExcedido | SaquesExcedidos

  datatype Veredito = Aceito | Recusado(motivo: Motivo)

  /** What an account holds that the rules read and change: _saldo and the history entries. */
  datatype Estado = Estado(saldo: real, transacoes: seq<Lancamento>)

  /** A freshly created account: balance 0, empty history. */
  const Inicial: Estado := Estado(0.0, [])

  /** One registration request: the transaction and the clock reading when it is recorded. */
  datatype Operacao = Operacao(transacao: Transacao, agora: Momento)

  /**
   * Outcome of Cliente.realizar_transacao. ErroAtributo is the AttributeError
   * that desafio3-versaofinal.py raises as written (see RealizarComoEscrito).
   */
  datatype Resultado = Efetuada | Recusada | LimiteDiarioExcedido | ErroAtributo

  /**
   * The differences between the two versions of the program: whether the
   * daily cap is enforced, whether criar_cliente validates the CPF, and the
   * variant criar_nova_conta creates.
   */
  datatype Configuracao = Configuracao(limiteDiario: bool, validaCpf: bool, novaConta: Variante)

  /** desafio3-versaofinal.py: daily cap on, no CPF check, ContaCorrente.nova_conta(..., 500, 50). */
  const Desafio3: Configuracao := Configuracao(true, false, Corrente(500.0, 50))
  /** vfinal.py: no daily cap, 11-digit CPF check, inherited nova_conta with defaults 500 and 3. */
  const VFinal: Configuracao := Configuracao(false, true, Corrente(LimitePadrao, LimiteSaquesPadrao))

  // ---------------------------------------------------------------------
  // Queries over a history
  // ---------------------------------------------------------------------

  /** The entries whose tipo is "Saque", in history order. */
  function Saques(s: seq<Lancamento>): (r: seq<Lancamento>)
    ensures |r| <= |s|
  {
    if s == [] then []
    else (if s[0].tipo == NomeSaque then [s[0]] else []) + Saques(s[1..])
  }

  /** The entries recorded on day hoje, in history order. */
  function DoDia(s: seq<Lancamento>, hoje: Data): (r: seq<Lancamento>)
    ensures |r| <= |s|
  {
    if s == [] then []
    else (if s[0].data.dia == hoje then [s[0]] else []) + DoDia(s[1..], hoje)
  }

  /** The withdrawals are exactly the history's entries of tipo "Saque". */
  lemma {:induction false} SaquesMembros(s: seq<Lancamento>)
    ensures forall x :: x in Saques(s) <==> x in s && x.tipo == NomeSaque
  {
    if s != [] {
      SaquesMembros(s[1..]);
      assert forall x :: x in s <==> x == s[0] || x in s[1..];
    }
  }

  /** The day's entries are exactly the history's entries dated hoje. */
  lemma {:induction false} DoDiaMembros(s: seq<Lancamento>, hoje: Data)
    ensures forall x :: x in DoDia(s, hoje) <==> x in s && x.data.dia == hoje
  {
    if s != [] {
      DoDiaMembros(s[1..], hoje);
      assert forall x :: x in s <==> x == s[0] || x in s[1..];
    }
  }

  lemma {:induction false} SaquesConcat(s: seq<Lancamento>, t: seq<Lancamento>)
    ensures Saques(s + t) == Saques(s) + Saques(t)
  {
    if s == [] {
      assert s + t == t;
    } else {
      var cabeca := if s[0].tipo == NomeSaque then [s[0]] else [];
      assert (s + t)[0] == s[0];
      assert (s + t)[1..] == s[1..] + t;
      SaquesConcat(s[1..], t);
      calc {
        Saques(s + t);
        cabeca + Saques(s[1..] + t);
        cabeca + (Saques(s[1..]) + Saques(t));
        (cabeca + Saques(s[1..])) + Saques(t);
        Saques(s) + Saques(t);
      }
    }
  }

  lemma {:induction false} DoDiaConcat(s: seq<Lancamento>, t: seq<Lancamento>, hoje: Data)
    ensures DoDia(s + t, hoje) == DoDia(s, hoje) + DoDia(t, hoje)
  {
    if s == [] {
      assert s + t == t;
    } else {
      var cabeca := if s[0].data.dia == hoje then [s[0]] else [];
      assert (s + t)[0] == s[0];
      assert (s + t)[1..] == s[1..] + t;
      DoDiaConcat(s[1..], t, hoje);
      calc {
        DoDia(s + t, hoje);
        cabeca + DoDia(s[1..] + t, hoje);
        cabeca + (DoDia(s[1..], hoje) + DoDia(t, hoje));
        (cabeca + DoDia(s[1..], hoje)) + DoDia(t, hoje);
        DoDia(s, hoje) + DoDia(t, hoje);
      }
    }
  }

  /** Appending one entry adds one withdrawal exactly when the entry is a "Saque". */
  lemma SaquesAnexa(s: seq<Lancamento>, x: Lancamento)
    ensures |Saques(s + [x])| == |Saques(s)| + (if x.tipo == NomeSaque then 1 else 0)
  {
    SaquesConcat(s, [x]);
    assert [x][1..] == [];
  }

  /** Appending one entry extends DoDia by that entry exactly when it is dated hoje. */
  lemma DoDiaAnexa(s: seq<Lancamento>, x: Lancamento, hoje: Data)
    ensures DoDia(s + [x], hoje) == DoDia(s, hoje) + (if x.data.dia == hoje then [x] else [])
  {
    DoDiaConcat(s, [x], hoje);
    assert [x][1..] == [];
  }

  /** Entries of other days never count towards the day's entries, wherever they stand. */
  lemma {:induction false} DiasAnterioresNaoContam(antes: seq<Lancamento>, depois: seq<Lancamento>, hoje: Data)
    requires forall i :: 0 <= i < |antes| ==> antes[i].data.dia != hoje
    ensures DoDia(antes + depois, hoje) == DoDia(depois, hoje)
  {
    DoDiaConcat(antes, depois, hoje);
    SemEntradasDoDia(antes, hoje);
  }

  lemma {:induction false} SemEntradasDoDia(s: seq<Lancamento>, hoje: Data)
    requires forall i :: 0 <= i < |s| ==> s[i].data.dia != hoje
    ensures DoDia(s, hoje) == []
  {
    if s != [] {
      SemEntradasDoDia(s[1..], hoje);
    }
  }

  /** Net effect of a history: deposits add, withdrawals subtract. */
  function Liquido(s: seq<Lancamento>): real
  {
    if s == [] then 0.0 else Sinal(s[0]) + Liquido(s[1..])
  }

  function Sinal(x: Lancamento): real
  {
    if x.tipo == NomeSaque then -x.valor
    else if x.tipo == NomeDeposito then x.valor
    else 0.0
  }

  lemma {:induction false} LiquidoConcat(s: seq<Lancamento>, t: seq<Lancamento>)
    ensures Liquido(s + t) == Liquido(s) + Liquido(t)
  {
    if s == [] {
      assert s + t == t;
    } else {
      assert (s + t)[0] == s[0];
      assert (s + t)[1..] == s[1..] + t;
      LiquidoConcat(s[1..], t);
    }
  }

  // ---------------------------------------------------------------------
  // Account rules
  // ---------------------------------------------------------------------

  /**
   * Conta.sacar: the balance check comes first, then the sign check; the
   * withdrawal is accepted exactly when 0 < valor <= saldo.
   */
  function VereditoSacarConta(saldo: real, valor: real): (r: Veredito)
    ensures r == Aceito <==> 0.0 < valor <= saldo
    ensures valor > saldo ==> r == Recusado(SaldoInsuficiente)
    ensures valor <= 0.0 && valor <= saldo ==> r == Recusado(ValorInvalido)
  {
    if valor > saldo then Recusado(SaldoInsuficiente)
    else if valor > 0.0 then Aceito
    else Recusado(ValorInvalido)
  }

  /**
   * ContaCorrente.sacar: the amount limit is checked before the withdrawal
   * count, which is recomputed from the history; then Conta.sacar decides.
   */
  function VereditoSacar(v: Variante, transacoes: seq<Lancamento>, saldo: real, valor: real): (r: Veredito)
    ensures v.Corrente? && valor > v.limite ==> r == Recusado(LimiteExcedido)
    ensures v.Corrente? && valor <= v.limite && |Saques(transacoes)| >= v.limiteSaques ==> r == Recusado(SaquesExcedidos)
    ensures r == Aceito <==>
              0.0 < valor <= saldo && (v.Corrente? ==> valor <= v.limite && |Saques(transacoes)| < v.limiteSaques)
    ensures (v.Simples? || (valor <= v.limite && |Saques(transacoes)| < v.limiteSaques)) ==> r == VereditoSacarConta(saldo, valor)
  {
    match v
    case Simples => VereditoSacarConta(saldo, valor)
    case Corrente(limite, limiteSaques) =>
      var numeroSaques := |Saques(transacoes)|;
      if valor > limite then Recusado(LimiteExcedido)
      else if numeroSaques >= limiteSaques then Recusado(SaquesExcedidos)
      else VereditoSacarConta(saldo, valor)
  }

  /** Conta.depositar: accepted exactly when valor > 0. */
  function VereditoDepositar(valor: real): (r: Veredito)
    ensures r == Aceito <==> valor > 0.0
    ensures r != Aceito ==> r.motivo == ValorInvalido
  {
    if valor > 0.0 then Aceito else Recusado(ValorInvalido)
  }

  /** The account operation a transaction's registrar calls, and its verdict. */
  function VereditoTransacao(v: Variante, e: Estado, t: Transacao): Veredito
  {
    match t
    case Saque(valor) => VereditoSacar(v, e.transacoes, e.saldo, valor)
    case Deposito(valor) => VereditoDepositar(valor)
  }

  /** Signed change of the balance an accepted transaction makes. */
  function Movimento(t: Transacao): real
  {
    match t
    case Saque(valor) => -valor
    case Deposito(valor) => valor
  }

  /**
   * Saque.registrar / Deposito.registrar: run the account operation and,
   * only when it returns True, append one entry for the transaction.
   */
  function Aplicar(v: Variante, e: Estado, t: Transacao, agora: Momento): (r: Estado)
    ensures VereditoTransacao(v, e, t) == Aceito ==>
              r.saldo == e.saldo + Movimento(t)
              && r.transacoes == e.transacoes + [Lancamento(t.Nome(), t.valor, agora)]
    ensures VereditoTransacao(v, e, t) != Aceito ==> r == e
  {
    if VereditoTransacao(v, e, t) == Aceito then
      Estado(e.saldo + Movimento(t), e.transacoes + [Lancamento(t.Nome(), t.valor, agora)])
    else e
  }

  /**
   * The ledger invariant of an account: the balance is never negative and
   * equals the net of its history, every entry is a positive Saque or
   * Deposito, and a checking account never holds more withdrawals than its cap.
   */
  ghost predicate Invariante(v: Variante, e: Estado)
  {
    && e.saldo >= 0.0
    && e.saldo == Liquido(e.transacoes)
    && (forall i :: 0 <= i < |e.transacoes| ==>
          e.transacoes[i].valor > 0.0 && (e.transacoes[i].tipo == NomeSaque || e.transacoes[i].tipo == NomeDeposito))
    && (v.Corrente? ==> |Saques(e.transacoes)| <= v.limiteSaques)
  }

  lemma InicialInvariante(v: Variante)
    ensures Invariante(v, Inicial)
  {
  }

  /** One registration keeps the ledger invariant. */
  lemma {:induction false} AplicarPreservaInvariante(v: Variante, e: Estado, t: Transacao, agora: Momento)
    requires Invariante(v, e)
    ensures Invariante(v, Aplicar(v, e, t, agora))
  {
    if VereditoTransacao(v, e, t) == Aceito {
      var x := Lancamento(t.Nome(), t.valor, agora);
      LiquidoConcat(e.transacoes, [x]);
      SaquesConcat(e.transacoes, [x]);
      assert Liquido([x]) == Movimento(t);
    }
  }

  // ---------------------------------------------------------------------
  // Sequences of registrations
  // ---------------------------------------------------------------------

  /** The account after registering each operation in turn. */
  function Executar(v: Variante, e: Estado, ops: seq<Operacao>): Estado
    decreases ops
  {
    if ops == [] then e
    else Executar(v, Aplicar(v, e, ops[0].transacao, ops[0].agora), ops[1..])
  }

  /** How many of the operations the account accepts, in turn. */
  function Sucessos(v: Variante, e: Estado, ops: seq<Operacao>): nat
    decreases ops
  {
    if ops == [] then 0
    else
      (if VereditoTransacao(v, e, ops[0].transacao) == Aceito then 1 else 0)
      + Sucessos(v, Aplicar(v, e, ops[0].transacao, ops[0].agora), ops[1..])
  }

  /** After any sequence of registrations the ledger invariant still holds; in particular the balance is not negative. */
  lemma {:induction false} ExecutarPreservaInvariante(v: Variante, e: Estado, ops: seq<Operacao>)
    requires Invariante(v, e)
    ensures Invariante(v, Executar(v, e, ops))
    ensures Executar(v, e, ops).saldo >= 0.0
    decreases ops
  {
    if ops != [] {
      AplicarPreservaInvariante(v, e, ops[0].transacao, ops[0].agora);
      ExecutarPreservaInvariante(v, Aplicar(v, e, ops[0].transacao, ops[0].agora), ops[1..]);
    }
  }

  /**
   * The history only grows, keeps its earlier entries, and gains exactly one
   * entry per accepted operation.
   */
  lemma {:induction false} RegistrosSaoSucessos(v: Variante, e: Estado, ops: seq<Operacao>)
    ensures |Executar(v, e, ops).transacoes| == |e.transacoes| + Sucessos(v, e, ops)
    ensures Executar(v, e, ops).transacoes[..|e.transacoes|] == e.transacoes
    decreases ops
  {
    if ops != [] {
      var e' := Aplicar(v, e, ops[0].transacao, ops[0].agora);
      RegistrosSaoSucessos(v, e', ops[1..]);
      assert e'.transacoes[..|e.transacoes|] == e.transacoes;
      var fim := Executar(v, e', ops[1..]).transacoes;
      assert fim[..|e.transacoes|] == fim[..|e'.transacoes|][..|e.transacoes|];
    }
  }

  /**
   * When every operation is recorded today, the day's entries grow by
   * exactly the number of accepted operations, whatever earlier days hold.
   */
  lemma {:induction false} DoDiaContaSucessos(v: Variante, e: Estado, ops: seq<Operacao>, hoje: Data)
    requires forall k :: 0 <= k < |ops| ==> ops[k].agora.dia == hoje
    ensures |DoDia(Executar(v, e, ops).transacoes, hoje)| == |DoDia(e.transacoes, hoje)| + Sucessos(v, e, ops)
    decreases ops
  {
    if ops != [] {
      var t, agora := ops[0].transacao, ops[0].agora;
      DoDiaAnexa(e.transacoes, Lancamento(t.Nome(), t.valor, agora), hoje);
      DoDiaContaSucessos(v, Aplicar(v, e, t, agora), ops[1..], hoje);
    }
  }

  /**
   * With a checking account whose cap is n, once n withdrawals are on
   * record every further withdrawal is refused, whatever its amount and the
   * balance: the cap is lifetime, not daily.
   */
  lemma {:induction false} SaquesEsgotados(limite: real, n: nat, e: Estado, ops: seq<Operacao>, valor: real)
    requires |Saques(e.transacoes)| >= n
    ensures |Saques(Executar(Corrente(limite, n), e, ops).transacoes)| >= n
    ensures VereditoSacar(Corrente(limite, n), Executar(Corrente(limite, n), e, ops).transacoes,
                          Executar(Corrente(limite, n), e, ops).saldo, valor) != Aceito
    decreases ops
  {
    var v := Corrente(limite, n);
    if ops != [] {
      var t, agora := ops[0].transacao, ops[0].agora;
      SaquesConcat(e.transacoes, [Lancamento(t.Nome(), t.valor, agora)]);
      SaquesEsgotados(limite, n, Aplicar(v, e, t, agora), ops[1..], valor);
    }
  }

  // ---------------------------------------------------------------------
  // Cliente.realizar_transacao
  // ---------------------------------------------------------------------

  /**
   * Cliente.realizar_transacao as intended: with the daily cap on, refuse
   * without touching the account when 2 or more entries are dated hoje;
   * otherwise register the transaction. With the cap off, always register.
   */
  function Realizar(cfg: Configuracao, v: Variante, e: Estado, t: Transacao, hoje: Data, agora: Momento): (r: (Estado, Resultado))
    ensures r.1 == LimiteDiarioExcedido <==> cfg.limiteDiario && |DoDia(e.transacoes, hoje)| >= LimiteTransacoesDia
    ensures r.1 == LimiteDiarioExcedido ==> r.0 == e
    ensures r.1 != LimiteDiarioExcedido ==>
              r.0 == Aplicar(v, e, t, agora) && (r.1 == Efetuada <==> VereditoTransacao(v, e, t) == Aceito)
    ensures r.1 == Efetuada <==> |r.0.transacoes| == |e.transacoes| + 1
    ensures r.1 != Efetuada ==> r.0 == e
    ensures r.1 != ErroAtributo
  {
    if cfg.limiteDiario && |DoDia(e.transacoes, hoje)| >= LimiteTransacoesDia then
      (e, LimiteDiarioExcedido)
    else
      (Aplicar(v, e, t, agora), if VereditoTransacao(v, e, t) == Aceito then Efetuada else Recusada)
  }

  /**
   * Cliente.realizar_transacao of desafio3-versaofinal.py as written: past
   * the daily cap it calls transacao.registra, a method neither Saque nor
   * Deposito defines, so it raises AttributeError before touching the account.
   */
  function RealizarComoEscrito(e: Estado, t: Transacao, hoje: Data): (r: (Estado, Resultado))
    ensures r.0 == e
    ensures r.1 == (if |DoDia(e.transacoes, hoje)| >= LimiteTransacoesDia then LimiteDiarioExcedido else ErroAtributo)
  {
    if |DoDia(e.transacoes, hoje)| >= LimiteTransacoesDia then (e, LimiteDiarioExcedido)
    else (e, ErroAtributo)
  }

  /**
   * The input that shows the misspelt call: a deposit of 100 on a fresh
   * account. As written it fails and the balance stays 0; with registrar
   * the deposit is recorded and the balance becomes 100.
   */
  lemma RegistraNuncaRegistra()
    ensures RealizarComoEscrito(Inicial, Deposito(100.0), 0) == (Inicial, ErroAtributo)
    ensures Realizar(Desafio3, Desafio3.novaConta, Inicial, Deposito(100.0), 0, Momento(0, 0)).1 == Efetuada
    ensures Realizar(Desafio3, Desafio3.novaConta, Inicial, Deposito(100.0), 0, Momento(0, 0)).0.saldo == 100.0
  {
    assert DoDia([], 0) == [];
  }

  /**
   * With the cap on and every entry recorded on the day the cap is checked
   * against, an account never holds more than 2 entries for that day.
   */
  lemma {:induction false} LimiteDiarioRespeitado(v: Variante, e: Estado, t: Transacao, hoje: Data, agora: Momento)
    requires agora.dia == hoje
    requires |DoDia(e.transacoes, hoje)| <= LimiteTransacoesDia
    ensures |DoDia(Realizar(Desafio3, v, e, t, hoje, agora).0.transacoes, hoje)| <= LimiteTransacoesDia
  {
    DoDiaAnexa(e.transacoes, Lancamento(t.Nome(), t.valor, agora), hoje);
  }

  /** Realizar keeps the ledger invariant in either configuration. */
  lemma RealizarPreservaInvariante(cfg: Configuracao, v: Variante, e: Estado, t: Transacao, hoje: Data, agora: Momento)
    requires Invariante(v, e)
    ensures Invariante(v, Realizar(cfg, v, e, t, hoje, agora).0)
  {
    AplicarPreservaInvariante(v, e, t, agora);
  }
}
