# Retail-banking ledger engine in Dafny

This project models the account-and-ledger engine of a small banking simulation. The simulation exists as two near-identical Python programs, `desafio3-versaofinal.py` and `vfinal.py`. The engine covers:

- a `Conta` holds a balance (`_saldo`) and a `Historico`, the append-only list of entry dictionaries `{tipo, valor, data}`;
- `ContaCorrente` adds a per-withdrawal amount limit (`limite`) and a lifetime cap on withdrawals (`limite_saques`). The count of withdrawals is recomputed from the history on every call;
- `Saque` and `Deposito` are transactions whose `registrar` runs the account operation and records an entry only when it succeeds;
- `Cliente.realizar_transacao` registers a transaction on an account. `desafio3-versaofinal.py` first refuses it when 2 entries are already dated today; `vfinal.py` has no such gate;
- the system functions `filtrar_cliente`, `recuperar_conta_cliente`, `criar_cliente` and `criar_nova_conta` keep the lists of clients and accounts.

The two programs are two configurations of one model (`Dominio.Configuracao`):

- `Desafio3`: daily cap on, no CPF check, new accounts are `ContaCorrente` with limit 500 and withdrawal cap 50;
- `VFinal`: no daily cap, CPF must be 11 ASCII digits, new accounts come from the inherited `nova_conta` with the constructor defaults 500 and 3.

Layout:

- `dominio.dfy` (module `Dominio`): the values and the pure rules. It holds the verdict of each account operation (`VereditoSacar`, ...), the effect of a registration (`Aplicar`) and of `realizar_transacao` (`Realizar`), and the ledger invariant (`Invariante`). The lemmas about them live here too.
- `historico.dfy` (module `Historicos`): class `Historico`.
- `contas.dfy` (module `Contas`): classes `Conta` and `Cliente`, and `Registrar`. Every state-changing method is proved to leave the objects exactly as the matching `Dominio` function says.
- `sistema.dfy` (module `Sistema`): client lookup, the CPF test, and class `Cadastro`, which holds the `clientes` and `contas` lists that `main` creates.
- `cenarios.dfy` (module `Cenarios`): runs of the engine from a fresh state, proved from the method contracts alone.

Modelling choices:

- Amounts are `real`.
- A date is an abstract day number (`Data`). A timestamp is `Momento(dia, segundo)`.
- The clock readings are parameters. `hoje` is the day `transacoes_do_dia` compares against. `agora` is the moment `adicionar_transacao` records.
- `Conta` and `ContaCorrente` are one class. Its constant `variante` selects the withdrawal rule: `Simples` for `Conta`, `Corrente(limite, limiteSaques)` for `ContaCorrente`.
- `PessoaFisica` is folded into `Cliente`, since it is the only kind of client ever created.
- Printed messages become return values. The account operations return `bool` as the source does, and `Veredito`/`Motivo` name the branch taken. `realizar_transacao` returns a `Resultado`.

Three behaviours of the code worth stating plainly:

- A withdrawal of 1500 from a balance of 1000 fails on the 500 limit, not on the balance, because `ContaCorrente.sacar` tests the limit first (vfinal.py:96). `Cenarios.LimiteAntesDoSaldo` proves this.
- The two files create accounts with different withdrawal caps. vfinal.py:293 uses the constructor defaults 500 and 3 (vfinal.py:86); desafio3-versaofinal.py:347 passes 500 and 50.
- The daily gate refuses once 2 entries are dated today (`>= 2`, desafio3-versaofinal.py:34), so at most 2 transactions go through per day when entries are stamped on the day the gate checks (see "## Left out").

## Model

| member | source | states |
|---|---|---|
| `Dominio.Saques` | desafio3-versaofinal.py:124-126 | the withdrawals recomputed from the history are never more than its entries |
| `Dominio.SaquesMembros` | desafio3-versaofinal.py:125 | an entry counts as a withdrawal iff it is in the history and its tipo is "Saque" |
| `Dominio.SaquesConcat` | vfinal.py:92-95 | the withdrawal filter distributes over concatenation, so it keeps history order |
| `Dominio.SaquesAnexa` | vfinal.py:124-129 | appending an entry raises the withdrawal count by one iff the entry is a "Saque" |
| `Dominio.DoDia` | desafio3-versaofinal.py:168-175 | the day's entries are never more than the history's |
| `Dominio.DoDiaMembros` | desafio3-versaofinal.py:171-174 | an entry is among the day's entries iff it is in the history and dated hoje |
| `Dominio.DoDiaConcat` | desafio3-versaofinal.py:170-175 | the day filter distributes over concatenation: an order-preserving subsequence |
| `Dominio.DoDiaAnexa` | desafio3-versaofinal.py:173-174 | appending an entry adds it to the day's entries exactly when it is dated hoje |
| `Dominio.SemEntradasDoDia` | desafio3-versaofinal.py:172-173 | a history with no entry dated hoje yields no entries for hoje |
| `Dominio.DiasAnterioresNaoContam` | desafio3-versaofinal.py:172-174 | entries of other days placed before the rest never change the day's entries |
| `Dominio.VereditoSacarConta` | desafio3-versaofinal.py:85-98 | Conta.sacar succeeds iff 0 < valor <= saldo; valor > saldo is reported as insufficient balance before the sign check |
| `Dominio.VereditoSacar` | desafio3-versaofinal.py:123-138 | ContaCorrente.sacar: valor > limite fails with the limit error whatever the count; otherwise a count at the cap fails even when amount and balance allow it; success iff all three checks pass; when the limit and count checks pass, the verdict (acceptance or its refusal reason) is exactly that of Conta.sacar (`VereditoSacarConta`) |
| `Dominio.VereditoDepositar` | desafio3-versaofinal.py:100-109 | depositar succeeds iff valor > 0, and otherwise reports an invalid amount |
| `Dominio.Aplicar` | desafio3-versaofinal.py:198-213 | registrar: on success the balance moves by exactly ±valor and exactly one entry {tipo, valor, data} is appended; on failure balance and history are unchanged |
| `Dominio.InicialInvariante` | desafio3-versaofinal.py:54-59 | a new account (balance 0, empty history) satisfies the ledger invariant; the `Conta` constructor uses it to establish `Valid` |
| `Dominio.AplicarPreservaInvariante` | desafio3-versaofinal.py:198-213 | one registration keeps: balance >= 0, balance == net of the history, entries positive Saque/Deposito, withdrawals never above limite_saques |
| `Dominio.ExecutarPreservaInvariante` | vfinal.py:151-166 | after any sequence of registrations the invariant still holds, so the balance never goes negative |
| `Dominio.RegistrosSaoSucessos` | vfinal.py:151-166 | over any sequence of registrations the history keeps its old entries and gains exactly one entry per successful operation |
| `Dominio.DoDiaContaSucessos` | desafio3-versaofinal.py:168-175 | after N successful operations recorded today, the day's entries grew by exactly N, whatever earlier days hold |
| `Dominio.SaquesEsgotados` | vfinal.py:100-103 | once limite_saques withdrawals are on record, every later withdrawal fails whatever amount, balance or operations in between |
| `Dominio.Realizar` | desafio3-versaofinal.py:33-39 | LimiteDiarioExcedido is returned iff the daily cap is on and 2 or more entries are dated hoje, and then balance and history are unchanged; in every other case the account ends as registrar leaves it (`Aplicar`) and the result is Efetuada iff the account operation accepts; Efetuada iff exactly one entry was added |
| `Dominio.RealizarComoEscrito` | desafio3-versaofinal.py:39 | as written the call never changes the account: it is refused by the cap or fails on the missing `registra` |
| `Dominio.RegistraNuncaRegistra` | desafio3-versaofinal.py:39 | a deposit of 100 on a fresh account fails as written and is recorded with balance 100 when `registrar` is called |
| `Dominio.LimiteDiarioRespeitado` | desafio3-versaofinal.py:33-37 | when entries are stamped on the day the cap checks, an account never holds more than 2 entries for that day |
| `Dominio.RealizarPreservaInvariante` | desafio3-versaofinal.py:33-39 | realizar_transacao keeps the ledger invariant in both configurations |
| `Historicos.Historico.constructor` | desafio3-versaofinal.py:149-150 | a new history is empty |
| `Historicos.Historico.AdicionarTransacao` | desafio3-versaofinal.py:156-161 | append-only: length grows by one, earlier entries untouched, last entry has the class name, amount and timestamp |
| `Historicos.Historico.TransacoesDoDia` | desafio3-versaofinal.py:168-175 | the loop returns exactly the entries dated hoje, in history order |
| `Contas.Conta.constructor` | vfinal.py:86-89 | balance 0, branch "1008", the given number, owner and variant, and a fresh empty history |
| `Contas.Conta.SacarConta` | vfinal.py:58-71 | returns True iff 0 < valor <= saldo; balance drops by exactly valor on True and is unchanged on False |
| `Contas.Conta.Sacar` | vfinal.py:91-106 | returns True iff the limit, the recomputed count and Conta.sacar all allow it; balance changes by exactly -valor only then |
| `Contas.Conta.Depositar` | vfinal.py:73-82 | returns True iff valor > 0; balance grows by exactly valor on True and is unchanged on False |
| `Contas.Registrar` | vfinal.py:151-166 | the account ends exactly as Dominio.Aplicar says, the result is the account operation's, and the ledger invariant is kept |
| `Contas.Cliente.constructor` | vfinal.py:18-23 | a new client has the given name, birth date, CPF and address and no accounts |
| `Contas.Cliente.AdicionarConta` | vfinal.py:14-15 | the account is appended to the client's list |
| `Contas.Cliente.RealizarTransacao` | vfinal.py:11-12 | the account ends exactly as Dominio.Realizar says (a direct registrar call for vfinal.py, the daily gate first for desafio3-versaofinal.py), and the invariant is kept |
| `Sistema.ComCpf` | vfinal.py:191 | the filtered list holds exactly the clients with that CPF, and its head is the first such client |
| `Sistema.FiltrarCliente` | vfinal.py:190-192 | None iff no client has the CPF; otherwise the first client in list order that has it |
| `Sistema.RecuperarContaCliente` | vfinal.py:195-199 | None iff the client has no account; otherwise its first account |
| `Sistema.EhNumerico` | vfinal.py:266 | true iff the string is non-empty and every character is an ASCII digit |
| `Sistema.CpfValido` | vfinal.py:264-268 | a CPF is accepted iff it has exactly 11 characters, all digits |
| `Sistema.Cadastro.constructor` | vfinal.py:309-310 | empty lists of clients and accounts, which satisfy the registry invariants |
| `Sistema.Cadastro.CriarCliente` | vfinal.py:263-282 | invalid CPF (vfinal.py only) or an existing CPF is refused with the list unchanged; otherwise exactly one new client with that CPF is appended; CPFs stay unique |
| `Sistema.Cadastro.CriarNovaConta` | vfinal.py:285-297 | unknown CPF changes nothing; otherwise a fresh account with the configured variant is appended to both `contas` and the client's own list, and no other client changes |
| `Sistema.Cadastro.OpcaoNovaConta` | vfinal.py:323-325 | the new account's number is len(contas)+1, so accounts stay numbered 1, 2, 3, ... |
| `Cenarios.LimiteAntesDoSaldo` | vfinal.py:96-99 | on a fresh account, deposit 1000 succeeds; withdrawals of 1500 and 600 both fail, each with the limit reason (`Recusado(LimiteExcedido)`); the balance stays 1000 |
| `Cenarios.NovaContaVFinal` | vfinal.py:293 | an account made by option 5 in vfinal.py has limit 500 and withdrawal cap 3 |
| `Cenarios.QuartoSaqueRecusado` | vfinal.py:100-103 | after a deposit of 1000 and three withdrawals of 100, a fourth of 50 fails; balance 700, 4 entries |
| `Cenarios.DuasDoDia` | desafio3-versaofinal.py:33-39 | two deposits on one day both go through under the daily cap |
| `Cenarios.TerceiraDoDiaRecusada` | desafio3-versaofinal.py:34-37 | a third valid deposit that day is refused with no change; the next day deposits are accepted again |
| `Cenarios.CpfRepetidoRecusado` | vfinal.py:266-274 | a second client with the same CPF is refused, as is a 10-digit CPF; the list keeps one client |

## Findings

| source | as written | input that shows it | evidently intended | confidence | as-written member | corrected member |
|---|---|---|---|---|---|---|
| desafio3-versaofinal.py:39 | past the daily cap, `realizar_transacao` calls `transacao.registra(conta)`, a method neither `Saque` nor `Deposito` has, so it raises AttributeError and no movement is ever made | `Deposito(100.0)` on a fresh account (no entries today): as written it fails and the balance stays 0 (`Dominio.RegistraNuncaRegistra`) | call `transacao.registrar(conta)`, as vfinal.py:12 does | high, not executed | `Dominio.RealizarComoEscrito` | `Dominio.Realizar` |

## Left out

- The menu, the `main` loop, `input`, `print` and `textwrap`: console I/O with no ledger logic. Each printed message is a return value (`Veredito`, `Resultado`, `ResultadoCadastro`, `Option`) instead.
- `log_transacao` (desafio3-versaofinal.py:215-219): a logging wrapper, not ledger logic. As written it returns None, so the functions it decorates become None and calling them raises TypeError. The model uses their undecorated bodies.
- `contasIterador`, `__str__`, `listar_contas`, `gerar_relatorio` and `exibir_extrato`: display and report rendering. The iterator reads a misspelt attribute (desafio3-versaofinal.py:18). The type filter of `gerar_relatorio` compares a bound method with a string, so a type filter never matches (desafio3-versaofinal.py:165).
- Wall-clock time: `datetime.now()`, `utcnow()` and the `strftime`/`strptime` round trip are not modelled. Entries are stamped with the parameter `agora`; the daily check compares with the parameter `hoje`. The source stamps local time but checks against the UTC date, so near midnight the two can disagree. For that reason `Dominio.LimiteDiarioRespeitado` assumes `agora.dia == hoje`.
- Timestamps non-decreasing along the history: the source does not enforce it, so the model does not state it.
- Floating-point amounts: amounts are exact `real`s, with no rounding. `float(input(...))` parsing and its `ValueError` are left out.
- `str.isdigit` on non-ASCII digits and `.strip()`: the CPF test is over ASCII '0'..'9', and input is taken as already stripped.
- `Conta.nova_conta` and `ContaCorrente.nova_conta` (class-method factories): they only forward to the constructor. The configuration's `novaConta` variant stands for which factory and which arguments each program uses.
- `Cliente.indice_conta` (desafio3-versaofinal.py:31): set but never read.
- The `Conta`/`ContaCorrente` and `Cliente`/`PessoaFisica` inheritance: one class each, with `variante` selecting the withdrawal rule.
- `Dominio.Saques`: its own contract states only the length bound. Membership, order and counting are stated by `Dominio.SaquesMembros`, `Dominio.SaquesConcat` and `Dominio.SaquesAnexa`.
- `Dominio.DoDia`: its own contract states only the length bound. Membership and order are stated by `Dominio.DoDiaMembros`, `Dominio.DoDiaConcat` and `Dominio.DoDiaAnexa`.
