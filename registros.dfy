/** The records an account's history is made of, and the queries the
    withdrawal rules and the balance bookkeeping ask of a history. */
module Registros {

  /** The kind of a transaction: the program tags each history record with
      the class name of the transaction, "Deposito" or "Saque". */
  datatype Tipo = Deposito | Saque

  /** A transaction as the customer issues it: a kind and an amount, in
      centavos (the program reads amounts in reais; R$10.50 is 1050). */
  datatype Transacao = Transacao(tipo: Tipo, valor: int)

  /** The recording time of a history record. The program formats the wall
      clock as "dd/mm/YYYY HH:MM:SS"; here the caller supplies it. */
  type Stamp = string

  /** One history record: `{tipo, valor, data}`. */
  datatype Registro = Registro(tipo: Tipo, valor: int, data: Stamp)

  /** The record `adicionar_transacao` makes of a transaction at time `data`. */
  function RegistroDe(t: Transacao, data: Stamp): (r: Registro)
    ensures r.tipo == t.tipo && r.valor == t.valor && r.data == data
    ensures Efeito(r) == if t.tipo == Deposito then t.valor else -t.valor
  {
    Registro(t.tipo, t.valor, data)
  }

  /** The withdrawal records of a history, in order: the list comprehension
      that `ContaCorrente.sacar` takes the length of. */
  function Saques(h: seq<Registro>): (r: seq<Registro>)
    ensures |r| <= |h|
  {
    if h == [] then []
    else (if h[0].tipo == Saque then [h[0]] else []) + Saques(h[1..])
  }

  /** The filtered list holds exactly the withdrawal records of the history. */
  lemma {:induction false} SaquesFiltra(h: seq<Registro>)
    ensures forall x :: x in Saques(h) <==> x in h && x.tipo == Saque
  {
    if h != [] {
      SaquesFiltra(h[1..]);
      assert forall x :: x in h <==> x == h[0] || x in h[1..];
    }
  }

  /** The number of withdrawals a history records. */
  function NumeroSaques(h: seq<Registro>): (r: nat)
    ensures r <= |h|
  {
    |Saques(h)|
  }

  /** Filtering distributes over concatenation. */
  lemma {:induction false} SaquesConcat(a: seq<Registro>, b: seq<Registro>)
    ensures Saques(a + b) == Saques(a) + Saques(b)
    ensures NumeroSaques(a + b) == NumeroSaques(a) + NumeroSaques(b)
  {
    if a == [] {
      assert a + b == b;
    } else {
      var cabeca := if a[0].tipo == Saque then [a[0]] else [];
      calc {
        Saques(a + b);
        { assert (a + b)[0] == a[0] && (a + b)[1..] == a[1..] + b; }
        cabeca + Saques(a[1..] + b);
        { SaquesConcat(a[1..], b); }
        cabeca + (Saques(a[1..]) + Saques(b));
        (cabeca + Saques(a[1..])) + Saques(b);
        Saques(a) + Saques(b);
      }
    }
  }

  /** Appending one record raises the withdrawal count by one exactly when
      the record is a withdrawal. */
  lemma NumeroSaquesAppend(h: seq<Registro>, r: Registro)
    ensures NumeroSaques(h + [r]) == NumeroSaques(h) + (if r.tipo == Saque then 1 else 0)
  {
    SaquesConcat(h, [r]);
    assert [r][1..] == [];
  }

  /** The withdrawal count looks only at the kinds of the records: two
      histories that agree on every kind, whatever their amounts and stamps,
      count the same. In particular the count ignores `data`, so the
      per-day cap it feeds is a cap over the account's whole life. */
  lemma {:induction false} NumeroSaquesIgnoraData(h: seq<Registro>, g: seq<Registro>)
    requires |h| == |g|
    requires forall i :: 0 <= i < |h| ==> h[i].tipo == g[i].tipo
    ensures NumeroSaques(h) == NumeroSaques(g)
  {
    if h != [] {
      NumeroSaquesIgnoraData(h[1..], g[1..]);
    }
  }

  /** What a record contributes to the balance: a deposit adds its amount,
      a withdrawal takes it away. */
  function Efeito(r: Registro): int
  {
    match r.tipo
    case Deposito => r.valor
    case Saque => -r.valor
  }

  /** The net movement a history records. */
  function Liquido(h: seq<Registro>): int
  {
    if h == [] then 0 else Efeito(h[0]) + Liquido(h[1..])
  }

  /** The net movement of two histories laid end to end is the sum of theirs. */
  lemma {:induction false} LiquidoConcat(a: seq<Registro>, b: seq<Registro>)
    ensures Liquido(a + b) == Liquido(a) + Liquido(b)
  {
    if a == [] {
      assert a + b == b;
    } else {
      assert (a + b)[1..] == a[1..] + b;
      LiquidoConcat(a[1..], b);
    }
  }
}
