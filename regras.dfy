/** The business rules of the ledger, on values: which branch a deposit or a
    withdrawal takes, what it does to the balance, how the recording
    protocol changes an account, and the invariants that any sequence of
    recorded transactions keeps. The classes in module Banco are proved
    against these functions. */
module Regras {
  import opened Registros

  /** The kind of account. `Simples` is the base `Conta`; `Corrente` is
      `ContaCorrente`, with its ceiling on a single withdrawal (`limite`,
      R$500, that is 50000 centavos, by default) and its cap on the number of withdrawals
      (`limiteSaques`, 3 by default). */
  datatype Modalidade = Simples | Corrente(limite: int, limiteSaques: int)

  /** Which branch an account operation took. The program reports only
      success or failure (and prints a message per branch); the tag names
      the branch, and `Sucesso` is the only one that returns True. */
  datatype Resultado =
    | Sucesso
    | ValorInvalido       // amount not positive
    | SaldoInsuficiente   // amount above the balance
    | LimiteExcedido      // amount above the checking account's ceiling
    | SaquesExcedidos     // withdrawal cap already reached

  /** What an account holds that the rules look at: its balance and its
      history. */
  datatype Estado = Estado(saldo: int, transacoes: seq<Registro>)

  /** `Conta.depositar`: only a positive amount is accepted. */
  function ResultadoDeposito(valor: int): (r: Resultado)
    ensures r == Sucesso <==> valor > 0
    ensures r != Sucesso ==> r == ValorInvalido
  {
    if valor > 0 then Sucesso else ValorInvalido
  }

  /** `Conta.sacar`: an amount above the balance is refused first, then a
      non-positive amount. */
  function ResultadoSaqueBase(saldo: int, valor: int): (r: Resultado)
    ensures r == Sucesso <==> 0 < valor <= saldo
    ensures r == SaldoInsuficiente <==> valor > saldo
    ensures r == ValorInvalido <==> valor <= 0 && valor <= saldo
  {
    if valor > saldo then SaldoInsuficiente
    else if valor > 0 then Sucesso
    else ValorInvalido
  }

  /** The withdrawal an account of kind `m` performs, `ContaCorrente.sacar`
      overriding `Conta.sacar`. The checking account runs its checks in a
      fixed order and the first that fails decides: the ceiling, then the
      withdrawal count of the history `h`, then the balance; only when all
      pass does the base withdrawal run. */
  function ResultadoSaque(m: Modalidade, saldo: int, h: seq<Registro>, valor: int): (r: Resultado)
    ensures r == Sucesso <==>
      0 < valor <= saldo && (m.Corrente? ==> valor <= m.limite && NumeroSaques(h) < m.limiteSaques)
    ensures m.Simples? ==> r == ResultadoSaqueBase(saldo, valor)
    ensures m.Corrente? && valor > m.limite ==> r == LimiteExcedido
    ensures m.Corrente? && valor <= m.limite && NumeroSaques(h) >= m.limiteSaques ==> r == SaquesExcedidos
    ensures m.Corrente? && valor <= m.limite && NumeroSaques(h) < m.limiteSaques && valor > saldo ==>
      r == SaldoInsuficiente
    ensures m.Corrente? && valor <= m.limite && NumeroSaques(h) < m.limiteSaques ==>
      r == ResultadoSaqueBase(saldo, valor)
  {
    match m
    case Simples => ResultadoSaqueBase(saldo, valor)
    case Corrente(limite, limiteSaques) =>
      if valor > limite then LimiteExcedido
      else if NumeroSaques(h) >= limiteSaques then SaquesExcedidos
      else if valor > saldo then SaldoInsuficiente
      else ResultadoSaqueBase(saldo, valor)
  }

  /** The account operation a transaction calls: `Deposito.registrar` calls
      `depositar`, `Saque.registrar` calls `sacar`. */
  function ResultadoDe(m: Modalidade, e: Estado, t: Transacao): (r: Resultado)
    ensures r == Sucesso <==>
      match t.tipo
      case Deposito => t.valor > 0
      case Saque =>
        0 < t.valor <= e.saldo &&
        (m.Corrente? ==> t.valor <= m.limite && NumeroSaques(e.transacoes) < m.limiteSaques)
    ensures r == Sucesso ==> t.valor > 0
  {
    match t.tipo
    case Deposito => ResultadoDeposito(t.valor)
    case Saque => ResultadoSaque(m, e.saldo, e.transacoes, t.valor)
  }

  /** The balance after the account operation of `t`. */
  function SaldoApos(m: Modalidade, e: Estado, t: Transacao): (s: int)
    ensures ResultadoDe(m, e, t) != Sucesso ==> s == e.saldo
    ensures ResultadoDe(m, e, t) == Sucesso && t.tipo == Deposito ==> s == e.saldo + t.valor && t.valor > 0
    ensures ResultadoDe(m, e, t) == Sucesso && t.tipo == Saque ==> s == e.saldo - t.valor && 0 < t.valor <= e.saldo
    ensures e.saldo >= 0 ==> s >= 0
  {
    if ResultadoDe(m, e, t) != Sucesso then e.saldo
    else match t.tipo
      case Deposito => e.saldo + t.valor
      case Saque => e.saldo - t.valor
  }

  /** `registrar`: run the account operation and append the transaction to
      the history only if the operation succeeded. */
  function Aplicar(m: Modalidade, e: Estado, t: Transacao, data: Stamp): (r: Estado)
    ensures ResultadoDe(m, e, t) == Sucesso ==> r.transacoes == e.transacoes + [RegistroDe(t, data)]
    ensures ResultadoDe(m, e, t) != Sucesso ==> r == e
    ensures r.saldo == SaldoApos(m, e, t)
    ensures r.saldo - e.saldo == Liquido(r.transacoes) - Liquido(e.transacoes)
  {
    if ResultadoDe(m, e, t) == Sucesso then
      var registro := RegistroDe(t, data);
      LiquidoConcat(e.transacoes, [registro]);
      assert Liquido([registro]) == Efeito(registro) by {
        assert [registro][1..] == [];
      }
      Estado(SaldoApos(m, e, t), e.transacoes + [registro])
    else
      e
  }

  /** The transactions a customer issues, each with the time it is recorded at. */
  type Operacoes = seq<(Transacao, Stamp)>

  /** The account after recording `ops` in order. */
  function Executar(m: Modalidade, e: Estado, ops: Operacoes): Estado
    decreases ops
  {
    if ops == [] then e
    else Executar(m, Aplicar(m, e, ops[0].0, ops[0].1), ops[1..])
  }

  /** The most withdrawals an account of kind `m` can ever record: the cap,
      or none when the cap is negative. */
  function Teto(m: Modalidade): nat
    requires m.Corrente?
  {
    if m.limiteSaques < 0 then 0 else m.limiteSaques
  }

  /** The account invariant for an account opened with balance `saldoInicial`
      whose history is written only by `registrar`: the balance is the
      opening balance plus the recorded net movement and is not negative,
      every recorded amount is positive, and a checking account never holds
      more withdrawals than its cap. */
  predicate Consistente(m: Modalidade, saldoInicial: int, e: Estado)
  {
    && e.saldo == saldoInicial + Liquido(e.transacoes)
    && e.saldo >= 0
    && (forall i :: 0 <= i < |e.transacoes| ==> e.transacoes[i].valor > 0)
    && (m.Corrente? ==> NumeroSaques(e.transacoes) <= Teto(m))
  }

  /** Recording one transaction keeps the account invariant. */
  lemma AplicarPreserva(m: Modalidade, saldoInicial: int, e: Estado, t: Transacao, data: Stamp)
    requires Consistente(m, saldoInicial, e)
    ensures Consistente(m, saldoInicial, Aplicar(m, e, t, data))
  {
    NumeroSaquesAppend(e.transacoes, RegistroDe(t, data));
  }

  /** Recording any sequence of transactions keeps the account invariant. */
  lemma {:induction false} ExecutarPreserva(m: Modalidade, saldoInicial: int, e: Estado, ops: Operacoes)
    requires Consistente(m, saldoInicial, e)
    ensures Consistente(m, saldoInicial, Executar(m, e, ops))
    decreases ops
  {
    if ops != [] {
      AplicarPreserva(m, saldoInicial, e, ops[0].0, ops[0].1);
      ExecutarPreserva(m, saldoInicial, Aplicar(m, e, ops[0].0, ops[0].1), ops[1..]);
    }
  }

  /** From the opening of an account with a non-negative balance (every
      account the program opens starts at 0), whatever is recorded: the balance stays
      non-negative and equal to the opening balance plus the net movement,
      and a checking account with a non-negative cap records at most
      `limiteSaques` withdrawals. */
  lemma DesdeAbertura(m: Modalidade, saldoInicial: int, ops: Operacoes)
    requires saldoInicial >= 0
    ensures Executar(m, Estado(saldoInicial, []), ops).saldo >= 0
    ensures Executar(m, Estado(saldoInicial, []), ops).saldo ==
            saldoInicial + Liquido(Executar(m, Estado(saldoInicial, []), ops).transacoes)
    ensures m.Corrente? && m.limiteSaques >= 0 ==>
            NumeroSaques(Executar(m, Estado(saldoInicial, []), ops).transacoes) <= m.limiteSaques
  {
    ExecutarPreserva(m, saldoInicial, Estado(saldoInicial, []), ops);
  }

  /** The history is append-only: recording never removes, reorders or edits
      a record, and adds at most one record per transaction. */
  lemma {:induction false} ExecutarEstende(m: Modalidade, e: Estado, ops: Operacoes)
    ensures e.transacoes <= Executar(m, e, ops).transacoes
    ensures |Executar(m, e, ops).transacoes| <= |e.transacoes| + |ops|
    decreases ops
  {
    if ops != [] {
      var e' := Aplicar(m, e, ops[0].0, ops[0].1);
      ExecutarEstende(m, e', ops[1..]);
    }
  }

  /** Once a checking account's history holds `limiteSaques` withdrawals,
      no further withdrawal is ever recorded, whatever the balance. */
  lemma {:induction false} TetoAtingido(m: Modalidade, e: Estado, ops: Operacoes)
    requires m.Corrente? && NumeroSaques(e.transacoes) >= m.limiteSaques
    ensures NumeroSaques(Executar(m, e, ops).transacoes) == NumeroSaques(e.transacoes)
    decreases ops
  {
    if ops != [] {
      var e' := Aplicar(m, e, ops[0].0, ops[0].1);
      if ResultadoDe(m, e, ops[0].0) == Sucesso {
        NumeroSaquesAppend(e.transacoes, RegistroDe(ops[0].0, ops[0].1));
      }
      TetoAtingido(m, e', ops[1..]);
    }
  }
}
