/** The objects of the ledger: an account's history, the account itself
    (base or checking), the customer who owns accounts, the recording
    protocol that ties an account operation to the history, and the lookup
    of a customer by tax ID. Each account operation and the recording
    method are proved against the functions of module Regras. */
module Banco {
  import opened Registros
  import opened Regras

  datatype Option<T> = None | Some(value: T)

  /** The append-only log of one account. */
  class Historico {
    var transacoes: seq<Registro>

    constructor ()
      ensures transacoes == []
    {
      transacoes := [];
    }

    /** Appends the record of `t`, stamped `data`, and changes nothing else. */
    method AdicionarTransacao(t: Transacao, data: Stamp)
      modifies this
      ensures transacoes == old(transacoes) + [RegistroDe(t, data)]
      ensures |transacoes| == |old(transacoes)| + 1
      ensures forall i :: 0 <= i < |old(transacoes)| ==> transacoes[i] == old(transacoes)[i]
    {
      transacoes := transacoes + [RegistroDe(t, data)];
    }
  }

  /** A customer (a natural person) and the accounts it holds, in the order
      they were opened. */
  class Cliente {
    const nome: string
    const cpf: string
    const endereco: string
    const dataNascimento: string
    var contas: seq<Conta>

    constructor (nome: string, cpf: string, endereco: string, dataNascimento: string)
      ensures this.nome == nome && this.cpf == cpf
      ensures this.endereco == endereco && this.dataNascimento == dataNascimento
      ensures contas == []
    {
      this.nome := nome;
      this.cpf := cpf;
      this.endereco := endereco;
      this.dataNascimento := dataNascimento;
      contas := [];
    }

    /** Delegates to the transaction's recording protocol; it does not check
        that `conta` is one of this customer's accounts. */
    method RealizarTransacao(conta: Conta, t: Transacao, data: Stamp)
      modifies conta, conta.historico
      ensures conta.Atual() == Aplicar(conta.modalidade, old(conta.Atual()), t, data)
    {
      Registrar(t, conta, data);
    }

    /** Appends `conta` to the accounts the customer holds. */
    method AdicionarConta(conta: Conta)
      modifies this
      ensures contas == old(contas) + [conta]
    {
      contas := contas + [conta];
    }
  }

  /** An account. `modalidade` says whether it is a base account or a
      checking account with its two limits; both are fixed at creation. Of
      its methods, only `Depositar` and `SacarBase` change the balance. */
  class Conta {
    const numero: int
    const agencia: string
    const cliente: Cliente
    const modalidade: Modalidade
    const historico: Historico
    var saldo: int

    /** A base account, opened with `saldoInicial` (0 by default). */
    constructor (numero: int, cliente: Cliente, saldoInicial: int := 0)
      ensures this.numero == numero && this.cliente == cliente && agencia == "0001"
      ensures modalidade == Simples
      ensures Atual() == Estado(saldoInicial, []) && fresh(historico)
    {
      this.numero := numero;
      this.cliente := cliente;
      agencia := "0001";
      modalidade := Simples;
      historico := new Historico();
      saldo := saldoInicial;
    }

    /** A checking account, always opened at balance 0, with a ceiling of
        `limite` on one withdrawal (R$500 by default) and a cap of
        `limiteSaques` withdrawals. */
    constructor NovaCorrente(numero: int, cliente: Cliente, limiteSaques: int := 3, limite: int := 50000)
      ensures this.numero == numero && this.cliente == cliente && agencia == "0001"
      ensures modalidade == Corrente(limite, limiteSaques)
      ensures Atual() == Estado(0, []) && fresh(historico)
    {
      this.numero := numero;
      this.cliente := cliente;
      agencia := "0001";
      modalidade := Corrente(limite, limiteSaques);
      historico := new Historico();
      saldo := 0;
    }

    /** The balance and the history, as the rules see them. */
    function Atual(): Estado
      reads this, historico
    {
      Estado(saldo, historico.transacoes)
    }

    /** `depositar`: adds a positive amount to the balance; refuses anything
        else and leaves the balance as it was. */
    method Depositar(valor: int) returns (ok: bool)
      modifies this
      ensures ok <==> ResultadoDeposito(valor) == Sucesso
      ensures saldo == SaldoApos(modalidade, old(Atual()), Transacao(Deposito, valor))
    {
      if valor > 0 {
        saldo := saldo + valor;
      } else {
        return false;  // refused: amount not positive
      }
      return true;
    }

    /** The base `sacar`: refuses an amount above the balance, then a
        non-positive amount, and otherwise takes the amount off. */
    method SacarBase(valor: int) returns (ok: bool)
      modifies this
      ensures ok <==> ResultadoSaqueBase(old(saldo), valor) == Sucesso
      ensures saldo == if ok then old(saldo) - valor else old(saldo)
    {
      var excedeuSaldo := valor > saldo;
      if excedeuSaldo {
        // refused: insufficient funds
      } else if valor > 0 {
        saldo := saldo - valor;
        return true;
      }
      return false;
    }

    /** `sacar` as the account's kind dispatches it: the base withdrawal, or
        the checking account's override, which checks the ceiling, then the
        number of withdrawals already recorded, then the balance, and only
        then runs the base withdrawal. */
    method Sacar(valor: int) returns (ok: bool)
      modifies this
      ensures ok <==> ResultadoSaque(modalidade, old(saldo), historico.transacoes, valor) == Sucesso
      ensures saldo == SaldoApos(modalidade, old(Atual()), Transacao(Saque, valor))
    {
      match modalidade
      case Simples =>
        ok := SacarBase(valor);
      case Corrente(limite, limiteSaques) =>
        var numeroSaques := NumeroSaques(historico.transacoes);
        var excedeuLimite := valor > limite;
        var excedeuSaques := numeroSaques >= limiteSaques;
        if excedeuLimite {
          ok := false;  // above the ceiling
        } else if excedeuSaques {
          ok := false;  // withdrawal cap reached
        } else if valor > saldo {
          ok := false;  // insufficient funds
        } else {
          ok := SacarBase(valor);
        }
    }
  }

  /** `Deposito.registrar` and `Saque.registrar`: run the account operation
      the transaction's kind calls for and, only if it reports success,
      append the transaction to the account's history. */
  method Registrar(t: Transacao, conta: Conta, data: Stamp)
    modifies conta, conta.historico
    ensures conta.Atual() == Aplicar(conta.modalidade, old(conta.Atual()), t, data)
  {
    var sucesso;
    match t.tipo {
      case Saque =>
        sucesso := conta.Sacar(t.valor);
      case Deposito =>
        sucesso := conta.Depositar(t.valor);
    }
    if sucesso {
      conta.historico.AdicionarTransacao(t, data);
    }
  }

  /** `filtrar_cliente`: the first customer, in list order, whose tax ID is
      `cpf`, or none when no customer has it. */
  function FiltrarCliente(cpf: string, clientes: seq<Cliente>): (r: Option<Cliente>)
    ensures r.None? <==> forall i :: 0 <= i < |clientes| ==> clientes[i].cpf != cpf
    ensures r.Some? ==>
      exists i :: 0 <= i < |clientes| && clientes[i] == r.value && clientes[i].cpf == cpf &&
        forall j :: 0 <= j < i ==> clientes[j].cpf != cpf
  {
    if clientes == [] then None
    else if clientes[0].cpf == cpf then Some(clientes[0])
    else FiltrarCliente(cpf, clientes[1..])
  }

  /** A new checking account with the default limits: withdraw R$100 at
      balance 0 (refused by the checking account's own balance check);
      deposit R$1000; withdraw R$1500 and R$600 (both refused, above the
      ceiling of R$500, which is checked before the balance); withdraw R$400. Returns
      the final balance, the number of records in the history and the
      branch each refused withdrawal took: refused withdrawals leave no trace. */
  method CenarioRecusas() returns (saldo: int, registros: nat, recusas: seq<Resultado>)
    ensures saldo == 60000 && registros == 2
    ensures recusas == [SaldoInsuficiente, LimiteExcedido, LimiteExcedido]
  {
    var cliente := new Cliente("Maria", "12345678900", "Rua A, 1", "01/01/1990");
    var conta := new Conta.NovaCorrente(1, cliente);
    cliente.AdicionarConta(conta);
    assert NumeroSaques([]) == 0;

    var saque := Transacao(Saque, 10000);
    recusas := [ResultadoDe(conta.modalidade, conta.Atual(), saque)];
    cliente.RealizarTransacao(conta, saque, "19/10");
    assert conta.saldo == 0 && conta.historico.transacoes == [];

    ghost var antes := conta.historico.transacoes;
    cliente.RealizarTransacao(conta, Transacao(Deposito, 100000), "19/10");
    NumeroSaquesAppend(antes, Registro(Deposito, 100000, "19/10"));
    assert conta.saldo == 100000 && |conta.historico.transacoes| == 1;
    assert NumeroSaques(conta.historico.transacoes) == 0;

    saque := Transacao(Saque, 150000);
    recusas := recusas + [ResultadoDe(conta.modalidade, conta.Atual(), saque)];
    cliente.RealizarTransacao(conta, saque, "19/10");
    assert conta.saldo == 100000 && |conta.historico.transacoes| == 1;

    saque := Transacao(Saque, 60000);
    recusas := recusas + [ResultadoDe(conta.modalidade, conta.Atual(), saque)];
    cliente.RealizarTransacao(conta, saque, "19/10");
    assert conta.saldo == 100000 && |conta.historico.transacoes| == 1;

    cliente.RealizarTransacao(conta, Transacao(Saque, 40000), "19/10");
    saldo := conta.saldo;
    registros := |conta.historico.transacoes|;
  }

  /** A new checking account with the default limits and a deposit of R$10:
      three withdrawals of R$1 are recorded; a fourth, on the next day, is
      refused by the withdrawal cap although the funds are there, because
      the cap counts every withdrawal ever recorded. Returns the final
      balance, the number of records and the number of withdrawals. */
  method CenarioTetoDeSaques() returns (saldo: int, registros: nat, saques: nat)
    ensures saldo == 700 && registros == 4 && saques == 3
  {
    var cliente := new Cliente("Maria", "12345678900", "Rua A, 1", "01/01/1990");
    var conta := new Conta.NovaCorrente(1, cliente);
    cliente.AdicionarConta(conta);
    assert NumeroSaques([]) == 0;

    ghost var antes := conta.historico.transacoes;
    cliente.RealizarTransacao(conta, Transacao(Deposito, 1000), "19/10");
    NumeroSaquesAppend(antes, Registro(Deposito, 1000, "19/10"));
    assert conta.saldo == 1000 && NumeroSaques(conta.historico.transacoes) == 0;

    antes := conta.historico.transacoes;
    cliente.RealizarTransacao(conta, Transacao(Saque, 100), "19/10");
    NumeroSaquesAppend(antes, Registro(Saque, 100, "19/10"));
    assert conta.saldo == 900 && NumeroSaques(conta.historico.transacoes) == 1;

    antes := conta.historico.transacoes;
    cliente.RealizarTransacao(conta, Transacao(Saque, 100), "19/10");
    NumeroSaquesAppend(antes, Registro(Saque, 100, "19/10"));
    assert conta.saldo == 800 && NumeroSaques(conta.historico.transacoes) == 2;

    antes := conta.historico.transacoes;
    cliente.RealizarTransacao(conta, Transacao(Saque, 100), "19/10");
    NumeroSaquesAppend(antes, Registro(Saque, 100, "19/10"));
    assert conta.saldo == 700 && NumeroSaques(conta.historico.transacoes) == 3;

    cliente.RealizarTransacao(conta, Transacao(Saque, 100), "20/10");
    saldo := conta.saldo;
    registros := |conta.historico.transacoes|;
    saques := NumeroSaques(conta.historico.transacoes);
  }
}
