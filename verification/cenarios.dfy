/**
 * Runs of the engine from a fresh state, as the menu would drive it, proved
 * from the contracts of the methods alone.
 */
module Cenarios {
  import opened Dominio
  import opened Contas
  import opened Sistema

  /**
   * A vfinal.py account: deposit 1000, then withdraw 1500 and 600. Both
   * withdrawals fail on the amount limit of 500, which is checked before the
   * balance, and the balance stays 1000.
   */
  method LimiteAntesDoSaldo() returns (okDeposito: bool, ok1500: bool, ok600: bool, motivo1500: Veredito, motivo600: Veredito, saldo: real)
    ensures okDeposito && !ok1500 && !ok600
    ensures motivo1500 == Recusado(LimiteExcedido) && motivo600 == Recusado(LimiteExcedido)
    ensures saldo == 1000.0
  {
    var cliente := new Cliente("Ana", "01-01-1990", "12345678901", "Rua A");
    var conta := new Conta(1, cliente, VFinal.novaConta);
    var agora := Momento(0, 0);
    okDeposito := Registrar(Deposito(1000.0), conta, agora);
    motivo1500 := VereditoSacar(conta.variante, conta.historico.transacoes, conta.saldo, 1500.0);
    ok1500 := Registrar(Saque(1500.0), conta, agora);
    motivo600 := VereditoSacar(conta.variante, conta.historico.transacoes, conta.saldo, 600.0);
    ok600 := Registrar(Saque(600.0), conta, agora);
    saldo := conta.saldo;
  }

  lemma CpfExemploValido()
    ensures CpfValido("12345678901")
  {
    var cpf := "12345678901";
    forall i | 0 <= i < |cpf|
      ensures Digito(cpf[i])
    {
    }
  }

  /**
   * Under vfinal.py, registering a client and choosing option 5 yields
   * account number 1 of that client, with the defaults 500 and 3.
   */
  method NovaContaVFinal() returns (cliente: Cliente, conta: Conta)
    ensures fresh(cliente) && fresh(conta) && fresh(conta.historico)
    ensures conta.numero == 1 && conta.cliente == cliente && cliente.contas == [conta]
    ensures conta.variante == Corrente(500.0, 3)
    ensures conta.EstadoAtual() == Inicial
  {
    var cadastro := new Cadastro();
    CpfExemploValido();
    var criado := cadastro.CriarCliente(VFinal, "12345678901", "Ana", "01-01-1990", "Rua A");
    assert criado == ClienteCriado;
    cliente := cadastro.clientes[0];
    assert cadastro.clientes == [cliente] && cliente.cpf == "12345678901" && cliente.contas == [];
    assert FiltrarCliente("12345678901", cadastro.clientes) == Some(cliente);
    var achada := cadastro.OpcaoNovaConta(VFinal, "12345678901");
    conta := achada.value;
  }

  /**
   * One withdrawal of 100 from a vfinal.py account that holds n < 3
   * withdrawals and enough balance: it is accepted and recorded.
   */
  method SaqueDeCem(conta: Conta, ghost n: nat) returns (ok: bool)
    requires conta.variante == Corrente(500.0, 3) && n < 3
    requires conta.saldo >= 100.0 && |Saques(conta.historico.transacoes)| == n
    modifies conta, conta.historico
    ensures ok && conta.saldo == old(conta.saldo) - 100.0
    ensures |conta.historico.transacoes| == |old(conta.historico.transacoes)| + 1
    ensures |Saques(conta.historico.transacoes)| == n + 1
  {
    ghost var h := conta.historico.transacoes;
    ok := Registrar(Saque(100.0), conta, Momento(0, 0));
    SaquesAnexa(h, Lancamento(NomeSaque, 100.0, Momento(0, 0)));
  }

  /**
   * An account created by option 5 under vfinal.py: after a deposit of 1000
   * and three withdrawals of 100, a fourth withdrawal of 50 fails although
   * amount and balance allow it.
   */
  method QuartoSaqueRecusado() returns (oks: seq<bool>, okQuarto: bool, saldo: real, registros: nat)
    ensures oks == [true, true, true, true]
    ensures !okQuarto
    ensures saldo == 700.0 && registros == 4
  {
    var cliente, conta := NovaContaVFinal();
    var ok0 := Registrar(Deposito(1000.0), conta, Momento(0, 0));
    SaquesAnexa([], Lancamento(NomeDeposito, 1000.0, Momento(0, 0)));
    assert conta.historico.transacoes == [] + [Lancamento(NomeDeposito, 1000.0, Momento(0, 0))];
    var ok1 := SaqueDeCem(conta, 0);
    var ok2 := SaqueDeCem(conta, 1);
    var ok3 := SaqueDeCem(conta, 2);
    okQuarto := Registrar(Saque(50.0), conta, Momento(0, 0));
    oks := [ok0, ok1, ok2, ok3];
    saldo := conta.saldo;
    registros := |conta.historico.transacoes|;
  }

  /**
   * desafio3-versaofinal.py with the intended registrar call: two deposits
   * on day 7, of 10 and 20, both go through.
   */
  method DuasDoDia() returns (cliente: Cliente, conta: Conta, r1: Resultado, r2: Resultado)
    ensures fresh(conta) && fresh(conta.historico) && conta.variante == Desafio3.novaConta
    ensures r1 == Efetuada && r2 == Efetuada
    ensures conta.saldo == 30.0 && |conta.historico.transacoes| == 2
    ensures |DoDia(conta.historico.transacoes, 7)| == 2
    ensures forall i :: 0 <= i < |conta.historico.transacoes| ==> conta.historico.transacoes[i].data.dia == 7
  {
    cliente := new Cliente("Ana", "01-01-1990", "12345678901", "Rua A");
    conta := new Conta(1, cliente, Desafio3.novaConta);

    r1 := cliente.RealizarTransacao(Desafio3, conta, Deposito(10.0), 7, Momento(7, 100));
    ghost var h1 := conta.historico.transacoes;
    DoDiaAnexa([], h1[0], 7);
    assert h1 == [] + [h1[0]];
    assert r1 == Efetuada && conta.saldo == 10.0 && |h1| == 1 && |DoDia(h1, 7)| == 1;

    r2 := cliente.RealizarTransacao(Desafio3, conta, Deposito(20.0), 7, Momento(7, 200));
    ghost var h2 := conta.historico.transacoes;
    DoDiaAnexa(h1, h2[1], 7);
    assert h2 == h1 + [h2[1]];
  }

  /**
   * After those two deposits, a third valid deposit on day 7 is refused by
   * the daily cap and changes neither the balance nor the history; on day 8
   * deposits are accepted again, since entries of day 7 do not count.
   */
  method TerceiraDoDiaRecusada() returns (r3: Resultado, saldo3: real, registros3: nat, r4: Resultado, saldo: real, registros: nat)
    ensures r3 == LimiteDiarioExcedido && saldo3 == 30.0 && registros3 == 2
    ensures r4 == Efetuada && saldo == 60.0 && registros == 3
  {
    var cliente, conta, r1, r2 := DuasDoDia();
    r3 := cliente.RealizarTransacao(Desafio3, conta, Deposito(30.0), 7, Momento(7, 300));
    saldo3, registros3 := conta.saldo, |conta.historico.transacoes|;

    SemEntradasDoDia(conta.historico.transacoes, 8);
    r4 := cliente.RealizarTransacao(Desafio3, conta, Deposito(30.0), 8, Momento(8, 0));
    saldo := conta.saldo;
    registros := |conta.historico.transacoes|;
  }

  /**
   * criar_cliente twice with the same CPF: the second call is refused and
   * the list keeps one client. Under vfinal.py a 10-digit CPF is refused too.
   */
  method CpfRepetidoRecusado() returns (r1: ResultadoCadastro, r2: ResultadoCadastro, r3: ResultadoCadastro, total: nat)
    ensures r1 == ClienteCriado && r2 == ClienteJaExiste && r3 == CpfInvalido
    ensures total == 1
  {
    var cadastro := new Cadastro();
    CpfExemploValido();
    r1 := cadastro.CriarCliente(VFinal, "12345678901", "Ana", "01-01-1990", "Rua A");
    r2 := cadastro.CriarCliente(VFinal, "12345678901", "Bia", "02-02-1992", "Rua B");
    r3 := cadastro.CriarCliente(VFinal, "1234567890", "Caio", "03-03-1993", "Rua C");
    total := |cadastro.clientes|;
  }
}
