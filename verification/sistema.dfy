/**
 * The system functions around the ledger: looking a client up by CPF, the
 * account a client operates on, and the lists of clients and accounts that
 * criar_cliente and criar_nova_conta extend. The two lists, which the
 * program keeps as locals of main, are the fields of a Cadastro object.
 */
module Sistema {
  import opened Dominio
  import opened Contas

  /** The clients whose cpf equals the given one, in list order (the comprehension in filtrar_cliente). */
  function ComCpf(cpf: string, clientes: seq<Cliente>): (r: seq<Cliente>)
    ensures forall k :: 0 <= k < |r| ==> r[k] in clientes && r[k].cpf == cpf
    ensures forall i :: 0 <= i < |clientes| && clientes[i].cpf == cpf ==> clientes[i] in r
    ensures r != [] ==> exists i :: 0 <= i < |clientes| && clientes[i] == r[0]
                                   && forall j :: 0 <= j < i ==> clientes[j].cpf != cpf
  {
    if clientes == [] then []
    else
      var resto := ComCpf(cpf, clientes[1..]);
      assert forall i :: 1 <= i < |clientes| ==> clientes[i] == clientes[1..][i - 1];
      if clientes[0].cpf == cpf then
        [clientes[0]] + resto
      else
        assert resto != [] ==> exists i :: 1 <= i < |clientes| && clientes[i] == resto[0]
                                          && forall j :: 0 <= j < i ==> clientes[j].cpf != cpf by {
          if resto != [] {
            var i :| 0 <= i < |clientes[1..]| && clientes[1..][i] == resto[0]
                     && forall j :: 0 <= j < i ==> clientes[1..][j].cpf != cpf;
            assert clientes[i + 1] == resto[0];
          }
        }
        resto
  }

  /** filtrar_cliente: the first client with that CPF, or None when no client has it. */
  function FiltrarCliente(cpf: string, clientes: seq<Cliente>): (r: Option<Cliente>)
    ensures r.None? <==> forall i :: 0 <= i < |clientes| ==> clientes[i].cpf != cpf
    ensures r.Some? ==> r.value.cpf == cpf && exists i :: 0 <= i < |clientes| && clientes[i] == r.value
                                                        && forall j :: 0 <= j < i ==> clientes[j].cpf != cpf
  {
    var filtrados := ComCpf(cpf, clientes);
    if filtrados != [] then Some(filtrados[0]) else None
  }

  /** recuperar_conta_cliente: the client's first account, or None when it has none. */
  function RecuperarContaCliente(cliente: Cliente): (r: Option<Conta>)
    reads cliente
    ensures r.None? <==> cliente.contas == []
    ensures r.Some? ==> r.value in cliente.contas && r.value == cliente.contas[0]
  {
    if cliente.contas == [] then None else Some(cliente.contas[0])
  }

  predicate Digito(c: char)
  {
    '0' <= c <= '9'
  }

  /** str.isdigit over ASCII: non-empty and every character a digit. */
  function EhNumerico(s: string): (r: bool)
    ensures r <==> |s| > 0 && forall i :: 0 <= i < |s| ==> Digito(s[i])
  {
    |s| > 0 && Digito(s[0]) && (|s| == 1 || EhNumerico(s[1..]))
  }

  /** The CPF test of criar_cliente in vfinal.py: only digits, exactly 11 of them. */
  function CpfValido(cpf: string): (r: bool)
    ensures r <==> |cpf| == 11 && forall i :: 0 <= i < |cpf| ==> Digito(cpf[i])
  {
    EhNumerico(cpf) && |cpf| == 11
  }

  datatype ResultadoCadastro = CpfInvalido | ClienteJaExiste | ClienteCriado

  /** The lists clientes and contas that main creates and passes to the system functions. */
  class Cadastro {
    var clientes: seq<Cliente>
    var contas: seq<Conta>

    /**
     * No two clients share a CPF, and every account belongs to a registered
     * client that lists it among its accounts.
     */
    ghost predicate Valid()
      reads this, clientes
    {
      && (forall i, j :: 0 <= i < j < |clientes| ==> clientes[i].cpf != clientes[j].cpf)
      && (forall i :: 0 <= i < |contas| ==> contas[i].cliente in clientes && contas[i] in contas[i].cliente.contas)
    }

    /** Accounts are numbered 1, 2, 3, ... in creation order. */
    predicate NumeracaoSequencial()
      reads this
    {
      forall i :: 0 <= i < |contas| ==> contas[i].numero == i + 1
    }

    /** main: clientes = [] and contas = []. */
    constructor ()
      ensures clientes == [] && contas == []
      ensures Valid() && NumeracaoSequencial()
    {
      clientes := [];
      contas := [];
    }

    /**
     * criar_cliente: when the configuration checks the CPF, one that is not
     * 11 digits is refused; a CPF that a client already has is refused; in
     * both cases the list is unchanged. Otherwise exactly one new client,
     * with no accounts and the given data, is appended.
     */
    method CriarCliente(cfg: Configuracao, cpf: string, nome: string, dataNasc: string, endereco: string)
      returns (r: ResultadoCadastro)
      requires Valid()
      modifies this
      ensures Valid() && contas == old(contas)
      ensures r == CpfInvalido <==> cfg.validaCpf && !CpfValido(cpf)
      ensures r == ClienteJaExiste <==> r != CpfInvalido && FiltrarCliente(cpf, old(clientes)).Some?
      ensures r != ClienteCriado ==> clientes == old(clientes)
      ensures r == ClienteCriado ==>
                && |clientes| == |old(clientes)| + 1
                && clientes[..|old(clientes)|] == old(clientes)
                && fresh(clientes[|old(clientes)|])
                && clientes[|old(clientes)|].cpf == cpf
                && clientes[|old(clientes)|].nome == nome
                && clientes[|old(clientes)|].dataNasc == dataNasc
                && clientes[|old(clientes)|].endereco == endereco
                && clientes[|old(clientes)|].contas == []
    {
      if cfg.validaCpf && !CpfValido(cpf) {
        return CpfInvalido;
      }
      var existente := FiltrarCliente(cpf, clientes);
      if existente.Some? {
        return ClienteJaExiste;
      }
      var cliente := new Cliente(nome, dataNasc, cpf, endereco);
      clientes := clientes + [cliente];
      r := ClienteCriado;
    }

    /**
     * criar_nova_conta: look the client up by CPF; when there is none,
     * nothing changes. Otherwise a new account with the given number, the
     * configuration's variant, balance 0 and an empty history is appended to
     * both contas and the client's own accounts; no other client changes.
     */
    method CriarNovaConta(cfg: Configuracao, numeroConta: int, cpf: string) returns (conta: Option<Conta>)
      requires Valid()
      modifies this, clientes
      ensures Valid() && clientes == old(clientes)
      ensures conta.None? <==> FiltrarCliente(cpf, clientes).None?
      ensures conta.None? ==>
                contas == old(contas) && forall i :: 0 <= i < |clientes| ==> clientes[i].contas == old(clientes[i].contas)
      ensures conta.Some? ==>
                var dono := FiltrarCliente(cpf, clientes).value;
                && fresh(conta.value) && fresh(conta.value.historico)
                && conta.value.numero == numeroConta
                && conta.value.cliente == dono
                && conta.value.variante == cfg.novaConta
                && conta.value.agencia == AgenciaPadrao
                && conta.value.EstadoAtual() == Inicial
                && contas == old(contas) + [conta.value]
                && dono.contas == old(dono.contas) + [conta.value]
                && forall i :: 0 <= i < |clientes| && clientes[i] != dono ==> clientes[i].contas == old(clientes[i].contas)
    {
      var achado := FiltrarCliente(cpf, clientes);
      if achado.None? {
        return None;
      }
      var cliente := achado.value;
      var nova := new Conta(numeroConta, cliente, cfg.novaConta);
      contas := contas + [nova];
      cliente.AdicionarConta(nova);
      conta := Some(nova);
      assert forall i :: 0 <= i < |old(contas)| ==> contas[i] == old(contas)[i];
    }

    /**
     * Option 5 of main: the new account's number is len(contas) + 1, so
     * numbering stays sequential.
     */
    method OpcaoNovaConta(cfg: Configuracao, cpf: string) returns (conta: Option<Conta>)
      requires Valid() && NumeracaoSequencial()
      modifies this, clientes
      ensures Valid() && NumeracaoSequencial() && clientes == old(clientes)
      ensures conta.None? <==> FiltrarCliente(cpf, clientes).None?
      ensures conta.None? ==>
                contas == old(contas) && forall i :: 0 <= i < |clientes| ==> clientes[i].contas == old(clientes[i].contas)
      ensures conta.Some? ==>
                var dono := FiltrarCliente(cpf, clientes).value;
                && fresh(conta.value) && fresh(conta.value.historico)
                && conta.value.numero == |contas|
                && conta.value.cliente == dono
                && conta.value.variante == cfg.novaConta
                && conta.value.agencia == AgenciaPadrao
                && conta.value.EstadoAtual() == Inicial
                && contas == old(contas) + [conta.value]
                && dono.contas == old(dono.contas) + [conta.value]
                && forall i :: 0 <= i < |clientes| && clientes[i] != dono ==> clientes[i].contas == old(clientes[i].contas)
    {
      conta := CriarNovaConta(cfg, |contas| + 1, cpf);
    }
  }
}
