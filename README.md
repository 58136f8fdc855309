# A verified model of the banking ledger core

This project models the account and transaction domain of a small retail
banking program written in Python (`modelando_sistema_bancario.py`). It covers
these parts:

- a **Conta** (account) holds a balance and a **Historico** (an append-only list of
  records `{tipo, valor, data}`);
- `depositar` accepts only positive amounts;
- `sacar` refuses an amount above the balance, then a non-positive amount;
- a **ContaCorrente** (checking account) overrides `sacar` with ordered checks:
  the single-withdrawal ceiling `limite` (R$500 by default), then the withdrawal
  cap `limiteSaques` (3 by default), then the balance, and then the base `sacar`;
- a **Saque** or **Deposito** transaction is recorded by `registrar`: it runs the
  account operation and appends to the history only when that returns True;
- a **Cliente** delegates transactions and collects its accounts;
- `filtrar_cliente` finds the first customer with a given CPF (tax ID).

Modules:

- `Registros` (`registros.dfy`): the transaction and record types and the pure
  queries on a history. These are the withdrawal filter and count, and the net
  movement of a history.
- `Regras` (`regras.dfy`): the rules as functions on values.
  - `ResultadoDeposito`, `ResultadoSaqueBase` and `ResultadoSaque` say which
    branch an operation takes.
  - `SaldoApos` gives the new balance.
  - `Aplicar` is the recording protocol and `Executar` runs a sequence of
    recorded transactions.
  - `Consistente` is the account invariant, and the lemmas say what every run keeps.
- `Banco` (`banco.dfy`): the classes `Historico`, `Conta` and `Cliente` and the
  method `Registrar`. The classes update their fields in place. Each account
  operation and the recording method are proved against the functions of `Regras`. `FiltrarCliente` and a client
  scenario are also here.

Modelling choices:

- Amounts are integers in centavos. The program reads amounts in reais, so
  R$10.50 is `1050` and the default ceiling `limite=500` (R$500) is `50000`.
- `Conta` and `ContaCorrente` are one class. Its `const modalidade` is either
  `Simples` or `Corrente(limite, limiteSaques)`, and `Sacar` dispatches on it as
  Python's override does.
- `PessoaFisica` is folded into `Cliente`, because only natural-person
  customers are ever created.
- The `Saque`/`Deposito` class pair is the closed type `Tipo`, and a
  transaction is `Transacao(tipo, valor)`.
- The methods return the same booleans as the Python methods. The `Resultado`
  tag names the branch, so it stands for the message each branch prints.
- The timestamp of a record is a string the caller supplies.

`limiteSaques` is meant as a daily limit: its refusal message speaks of the
maximum number of *daily* withdrawals. The code, however, counts every `Saque`
record in the history and ignores the `data` field (lines 92-94), so the cap
holds for the account's whole life. The model follows the code.
`NumeroSaquesIgnoraData` states that the count does not depend on the stamps.
`CenarioTetoDeSaques` shows a withdrawal on the next day being refused by the
cap.

`Conta.sacar` checks the balance before it checks the sign of the amount
(lines 62-71). So an amount that is not positive and also above a negative
balance takes the insufficient-funds branch. The model keeps this order
(`ResultadoSaqueBase`). Both branches return False, so only the branch tag
differs.

## Model

| member | source | states |
|---|---|---|
| Registros.RegistroDe | modelando_sistema_bancario.py:126-132 | the record built for a transaction carries its kind, its amount and the supplied stamp, and it moves the balance by +amount for a deposit and -amount for a withdrawal |
| Registros.Saques | modelando_sistema_bancario.py:92-94 | the filtered list of withdrawals is no longer than the history |
| Registros.SaquesFiltra | modelando_sistema_bancario.py:92-94 | the filtered list holds exactly the history's `Saque` records |
| Registros.NumeroSaques | modelando_sistema_bancario.py:92-94 | the number of `Saque` records, the length that the cap check at line 97 compares; it is at most the history's length, and `NumeroSaquesAppend` characterises it record by record |
| Registros.SaquesConcat | modelando_sistema_bancario.py:92-94 | filtering and counting withdrawals distribute over concatenation of histories |
| Registros.NumeroSaquesAppend | modelando_sistema_bancario.py:92-94 | appending a record raises the withdrawal count by one exactly when the record is a `Saque` |
| Registros.NumeroSaquesIgnoraData | modelando_sistema_bancario.py:92-94 | the withdrawal count depends only on the kinds of the records, not on amounts or stamps, so the cap is not per day |
| Registros.LiquidoConcat | modelando_sistema_bancario.py:60-83 | the net balance movement of two histories laid end to end is the sum of their movements |
| Regras.ResultadoDeposito | modelando_sistema_bancario.py:75-83 | a deposit succeeds iff the amount is positive; otherwise it fails as an invalid amount |
| Regras.ResultadoSaqueBase | modelando_sistema_bancario.py:60-73 | a base withdrawal succeeds iff 0 < amount <= balance; it fails for insufficient funds iff amount > balance, and as invalid otherwise |
| Regras.ResultadoSaque | modelando_sistema_bancario.py:91-108 | the checking-account withdrawal succeeds iff 0 < amount <= balance, amount <= `limite` and the withdrawal count < `limiteSaques`. The first failing check decides, in the order ceiling, count, balance, and a base account behaves as the base withdrawal |
| Regras.ResultadoDe | modelando_sistema_bancario.py:153-169 | the account operation a transaction triggers (`sacar` at line 154, `depositar` at line 167) succeeds iff a deposit's amount is positive, or a withdrawal's amount is positive, within the balance and, on a checking account, within the ceiling with the count below the cap; a success always has a positive amount |
| Regras.SaldoApos | modelando_sistema_bancario.py:60-83 | the balance is unchanged on failure, rises by the amount on a successful deposit and falls by it on a successful withdrawal, and a non-negative balance stays non-negative |
| Regras.Aplicar | modelando_sistema_bancario.py:145-169 | on success exactly one record with the transaction's kind and amount is appended. On failure balance and history are unchanged, and the balance moves by the recorded net movement |
| Regras.AplicarPreserva | modelando_sistema_bancario.py:145-169 | one recorded transaction keeps the invariant: balance = opening + net movement, balance >= 0, recorded amounts positive, withdrawals <= cap |
| Regras.ExecutarPreserva | modelando_sistema_bancario.py:145-169 | any sequence of recorded transactions keeps that invariant |
| Regras.DesdeAbertura | modelando_sistema_bancario.py:24-108 | from an opening balance >= 0, after any sequence of recordings the balance is >= 0 and equals opening + net movement. A checking account then holds at most `limiteSaques` withdrawals |
| Regras.ExecutarEstende | modelando_sistema_bancario.py:118-133 | recording only ever extends the history: the old history is a prefix and at most one record is added per transaction |
| Regras.TetoAtingido | modelando_sistema_bancario.py:91-108 | once a checking account holds `limiteSaques` withdrawals, no further withdrawal is ever recorded |
| Banco.Historico.constructor | modelando_sistema_bancario.py:119-120 | a new history is empty |
| Banco.Historico.AdicionarTransacao | modelando_sistema_bancario.py:125-133 | the history grows by exactly one record at the end, and every earlier record keeps its position and contents |
| Banco.Cliente.constructor | modelando_sistema_bancario.py:17-22 | a new customer has the given name, CPF, address and birth date and no accounts |
| Banco.Cliente.RealizarTransacao | modelando_sistema_bancario.py:11-12 | the account ends in the state the recording protocol `Aplicar` gives |
| Banco.Cliente.AdicionarConta | modelando_sistema_bancario.py:14-15 | the account is appended to the customer's accounts |
| Banco.Conta.constructor | modelando_sistema_bancario.py:25-34 | a base account opens with the given balance (0 by default), branch "0001" and an empty fresh history |
| Banco.Conta.NovaCorrente | modelando_sistema_bancario.py:86-89 | a checking account opens at balance 0 with the given ceiling (default 50000 centavos, R$500) and cap (default 3) |
| Banco.Conta.Depositar | modelando_sistema_bancario.py:75-83 | returns True iff the amount is positive, and the balance becomes the one `SaldoApos` gives |
| Banco.Conta.SacarBase | modelando_sistema_bancario.py:60-73 | returns True iff 0 < amount <= balance, and then the balance falls by the amount; otherwise it is unchanged |
| Banco.Conta.Sacar | modelando_sistema_bancario.py:91-108 | returns True iff `ResultadoSaque` is a success for the account's kind, balance and history, and the balance becomes the one `SaldoApos` gives |
| Banco.Registrar | modelando_sistema_bancario.py:153-156 | the account's balance and history end as `Aplicar` gives: one record appended iff the account operation returned True |
| Banco.FiltrarCliente | modelando_sistema_bancario.py:187-190 | returns the first customer in list order whose CPF matches, and none iff no customer matches |
| Banco.CenarioRecusas | modelando_sistema_bancario.py:91-108 | on a new default checking account: R$100 at balance 0 is refused by the checking account's own balance check; after a deposit of R$1000, R$1500 and R$600 are both refused by the ceiling, checked before the balance; R$400 is recorded. Final balance 60000 centavos (R$600), two records, refusal branches insufficient funds, ceiling, ceiling |
| Banco.CenarioTetoDeSaques | modelando_sistema_bancario.py:91-108 | on a new default checking account holding R$10, three withdrawals of R$1 are recorded and a fourth on a later day is refused by the cap: balance 700 centavos (R$7), four records, three withdrawals |

`Banco.Registrar` also covers `Deposito.registrar` (lines 166-169): it
dispatches on the transaction's kind.

## Left out

- The menu loop, `main`, and every `input` and `print` call are not modelled.
  The success and error messages are not modelled as text. The branch that
  would print each one is the `Resultado` tag.
- `exibir_extrato`, `listar_contas` and `ContaCorrente.__str__` are not
  modelled, because they only format text. This includes the `:.2f` rendering
  of floats.
- Floating-point amounts and `float(input(...))` parsing are not modelled.
  Amounts are exact centavos. An entry with fractions of a centavo (e.g.
  10.005, which the program accepts) cannot be represented, and float rounding
  of sums such as 0.1 + 0.2 is not captured.
- The clock read `datetime.now()` at line 130 is not modelled. The stamp is a
  parameter of `Registrar` and `AdicionarTransacao`.
- The public `saldo` setter (lines 40-42) has no method of its own. `Conta.saldo`
  is still a public field that any caller may assign, just as the setter
  allowed. The invariants in `Regras` (`Consistente`, `DesdeAbertura`) hold
  only when nothing assigns the balance directly.
- `Conta.Depositar` and `Conta.Sacar` can also be called directly, without
  `Registrar`, as the Python methods can. Such a call moves the balance
  without adding a record, so it breaks `saldo == saldoInicial + Liquido(...)`.
  The program itself never does this. The invariants assume that the account
  operations and `adicionar_transacao` are reached only through `registrar`.
- The `Transacao` abstract base class and its `abc` machinery are replaced by
  the closed type `Tipo`.
- `criar_cliente`, `criar_conta`, `recuperar_conta_cliente` and the account
  numbering `len(contas) + 1` are not modelled. They are interactive glue
  around prompts.
- `Conta.nova_conta` is the `Conta` constructor. The program calls it only on
  `ContaCorrente`, which the `NovaCorrente` constructor covers.
- Python's dynamic typing is not modelled. The model does not capture a
  transaction applied to something that is not an account, or an amount that
  is not a number.
