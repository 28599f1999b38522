/**
 * The objects of the ledger: Conta (and its ContaCorrente variant), Cliente
 * (as PessoaFisica) and the registration of a transaction into an account.
 * Each method is proved to change the objects exactly as the rules in
 * module Dominio say.
 */
module Contas {
  import opened Dominio
  import opened Historicos

  /**
   * An account. The variant field stands for the class: Simples is Conta,
   * Corrente(limite, limiteSaques) is ContaCorrente with those attributes.
   */
  class Conta {
    var saldo: real
    const numero: int
    const agencia: string
    const cliente: Cliente
    const historico: Historico
    const variante: Variante

    /** The balance and the history entries, as a value. */
    function EstadoAtual(): Estado
      reads this, historico
    {
      Estado(saldo, historico.transacoes)
    }

    /** The ledger invariant of this account (see Dominio.Invariante). */
    ghost predicate Valid()
      reads this, historico
    {
      Invariante(variante, EstadoAtual())
    }

    /**
     * Conta.__init__ / ContaCorrente.__init__: balance 0, branch "1008",
     * the owner, and a new empty history.
     */
    constructor (numero: int, cliente: Cliente, variante: Variante)
      ensures this.numero == numero && this.cliente == cliente && this.variante == variante
      ensures agencia == AgenciaPadrao
      ensures fresh(historico)
      ensures EstadoAtual() == Inicial
      ensures Valid()
    {
      saldo := 0.0;
      this.numero := numero;
      agencia := AgenciaPadrao;
      this.cliente := cliente;
      historico := new Historico();
      this.variante := variante;
      new;
      InicialInvariante(variante);
    }

    /**
     * Conta.sacar: refuse when valor exceeds the balance, accept when valor
     * is positive, refuse otherwise; only an accepted withdrawal changes the
     * balance, by exactly -valor.
     */
    method SacarConta(valor: real) returns (ok: bool)
      modifies this
      ensures ok <==> VereditoSacarConta(old(saldo), valor) == Aceito
      ensures saldo == if ok then old(saldo) - valor else old(saldo)
    {
      if valor > saldo {
        ok := false;
      } else if valor > 0.0 {
        saldo := saldo - valor;
        ok := true;
      } else {
        ok := false;
      }
    }

    /**
     * sacar, dispatched on the variant. ContaCorrente.sacar counts the
     * "Saque" entries of the history anew, refuses when valor exceeds the
     * limit, then when the count has reached the cap, and otherwise defers
     * to Conta.sacar.
     */
    method Sacar(valor: real) returns (ok: bool)
      modifies this
      ensures ok <==> VereditoSacar(variante, historico.transacoes, old(saldo), valor) == Aceito
      ensures saldo == if ok then old(saldo) - valor else old(saldo)
    {
      match variante
      case Simples =>
        ok := SacarConta(valor);
      case Corrente(limite, limiteSaques) =>
        var numeroSaques := |Saques(historico.transacoes)|;
        if valor > limite {
          ok := false;
        } else if numeroSaques >= limiteSaques {
          ok := false;
        } else {
          ok := SacarConta(valor);
        }
    }

    /** Conta.depositar: accept a positive valor and add it to the balance; otherwise change nothing. */
    method Depositar(valor: real) returns (ok: bool)
      modifies this
      ensures ok <==> VereditoDepositar(valor) == Aceito
      ensures saldo == if ok then old(saldo) + valor else old(saldo)
    {
      if valor > 0.0 {
        saldo := saldo + valor;
        ok := true;
      } else {
        ok := false;
      }
    }
  }

  /**
   * Saque.registrar / Deposito.registrar: call sacar or depositar on the
   * account and append an entry to its history only when that call returns
   * True. The account's ledger invariant is kept.
   */
  method Registrar(t: Transacao, conta: Conta, agora: Momento) returns (ok: bool)
    modifies conta, conta.historico
    ensures ok <==> VereditoTransacao(conta.variante, old(conta.EstadoAtual()), t) == Aceito
    ensures conta.EstadoAtual() == Aplicar(conta.variante, old(conta.EstadoAtual()), t, agora)
    ensures old(conta.Valid()) ==> conta.Valid()
  {
    ghost var antes := conta.EstadoAtual();
    match t {
      case Saque(valor) =>
        ok := conta.Sacar(valor);
      case Deposito(valor) =>
        ok := conta.Depositar(valor);
    }
    if ok {
      conta.historico.AdicionarTransacao(t, agora);
      assert conta.historico.transacoes == antes.transacoes + [Lancamento(t.Nome(), t.valor, agora)];
    }
    if Invariante(conta.variante, antes) {
      AplicarPreservaInvariante(conta.variante, antes, t, agora);
    }
  }

  /**
   * A client: the fields of PessoaFisica and the accounts it holds.
   */
  class Cliente {
    const nome: string
    const dataNasc: string
    const cpf: string
    const endereco: string
    var contas: seq<Conta>

    /** PessoaFisica.__init__: the given data and no accounts. */
    constructor (nome: string, dataNasc: string, cpf: string, endereco: string)
      ensures this.nome == nome && this.dataNasc == dataNasc && this.cpf == cpf && this.endereco == endereco
      ensures contas == []
    {
      this.nome := nome;
      this.dataNasc := dataNasc;
      this.cpf := cpf;
      this.endereco := endereco;
      contas := [];
    }

    /** adicionar_conta: append the account, with no uniqueness check. */
    method AdicionarConta(conta: Conta)
      modifies this
      ensures contas == old(contas) + [conta]
    {
      contas := contas + [conta];
    }

    /**
     * realizar_transacao. With the daily cap on (desafio3-versaofinal.py),
     * the day's entries are collected first and, when there are 2 or more,
     * the call is refused before the transaction is registered. With the cap
     * off (vfinal.py) the transaction is registered directly.
     * desafio3-versaofinal.py calls transacao.registra here, which does not
     * exist; this method makes the intended registrar call (see
     * Dominio.RealizarComoEscrito for the code as written).
     */
    method RealizarTransacao(cfg: Configuracao, conta: Conta, t: Transacao, hoje: Data, agora: Momento)
      returns (r: Resultado)
      modifies conta, conta.historico
      ensures (conta.EstadoAtual(), r) == Realizar(cfg, conta.variante, old(conta.EstadoAtual()), t, hoje, agora)
      ensures old(conta.Valid()) ==> conta.Valid()
    {
      if cfg.limiteDiario {
        var doDia := conta.historico.TransacoesDoDia(hoje);
        if |doDia| >= LimiteTransacoesDia {
          return LimiteDiarioExcedido;
        }
      }
      var ok := Registrar(t, conta, agora);
      r := if ok then Efetuada else Recusada;
    }
  }
}
