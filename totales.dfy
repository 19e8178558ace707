/** Sums of balances over a list of accounts, and how a transfer changes them. The
    lists may hold the same account more than once, as a bank's list can. */
module Totales {

  /** The sum of a list of balances. */
  function Suma(xs: seq<real>): real
    decreases |xs|
  {
    if xs == [] then 0.0 else xs[0] + Suma(xs[1..])
  }

  /** How much a transfer of `monto` from `origen` to `destino` changes the balance
      held in list entry `c`; zero when `origen` and `destino` are the same entry. */
  function Ajuste<T(==)>(c: T, origen: T, destino: T, monto: real): real {
    (if c == destino then monto else 0.0) - (if c == origen then monto else 0.0)
  }

  /** How many times `x` is listed in `cs`. */
  function Veces<T(==)>(cs: seq<T>, x: T): nat
    decreases |cs|
  {
    if cs == [] then 0 else (if cs[0] == x then 1 else 0) + Veces(cs[1..], x)
  }

  /** `Veces` is the multiplicity of `x` in the list. */
  lemma {:induction false} VecesEsMultiplicidad<T>(cs: seq<T>, x: T)
    ensures Veces(cs, x) == multiset(cs)[x]
    decreases |cs|
  {
    if cs != [] {
      VecesEsMultiplicidad(cs[1..], x);
      assert cs == [cs[0]] + cs[1..];
      assert multiset(cs) == multiset{cs[0]} + multiset(cs[1..]);
    }
  }

  /** `k` copies of `monto` added together. */
  function Repetir(k: nat, monto: real): real
    decreases k
  {
    if k == 0 then 0.0 else monto + Repetir(k - 1, monto)
  }

  /** One more copy of an amount adds the amount once. */
  lemma UnoMas(k: nat, monto: real)
    requires k > 0
    ensures k as real * monto == monto + (k - 1) as real * monto
  {
  }

  /** Adding `k` copies of an amount is multiplying it by `k`. */
  lemma {:induction false} RepetirEsProducto(k: nat, monto: real)
    ensures Repetir(k, monto) == k as real * monto
    decreases k
  {
    if k > 0 {
      RepetirEsProducto(k - 1, monto);
      UnoMas(k, monto);
    }
  }

  /** The total change a transfer of `monto` from `origen` to `destino` makes to a
      list of balances: the sum of the changes to each entry. */
  function Neto<T(==)>(cs: seq<T>, origen: T, destino: T, monto: real): real
    decreases |cs|
  {
    if cs == [] then 0.0 else Ajuste(cs[0], origen, destino, monto) + Neto(cs[1..], origen, destino, monto)
  }

  /** The total change of a transfer is the amount once for every time the
      destination is listed, less the amount once for every time the source is listed. */
  lemma {:induction false} NetoPorVeces<T>(cs: seq<T>, origen: T, destino: T, monto: real)
    ensures Neto(cs, origen, destino, monto)
         == Repetir(Veces(cs, destino), monto) - Repetir(Veces(cs, origen), monto)
    decreases |cs|
  {
    if cs != [] {
      NetoPorVeces(cs[1..], origen, destino, monto);
    }
  }

  /** When each entry of a list of balances changes by what a transfer gives it, the
      sum changes by the transfer's total change. */
  lemma {:induction false} SumaTrasAjuste<T>(cs: seq<T>, antes: seq<real>, despues: seq<real>,
                                            origen: T, destino: T, monto: real)
    requires |antes| == |cs| && |despues| == |cs|
    requires forall k :: 0 <= k < |cs| ==> despues[k] == antes[k] + Ajuste(cs[k], origen, destino, monto)
    ensures Suma(despues) == Suma(antes) + Neto(cs, origen, destino, monto)
    decreases |cs|
  {
    if cs != [] {
      SumaTrasAjuste(cs[1..], antes[1..], despues[1..], origen, destino, monto);
    }
  }

  /** The total change of a transfer in closed form: the amount times the number of
      times the destination is listed less the number of times the source is listed. */
  lemma {:induction false} NetoEnProductos<T>(cs: seq<T>, origen: T, destino: T, monto: real)
    ensures Neto(cs, origen, destino, monto)
         == (Veces(cs, destino) - Veces(cs, origen)) as real * monto
  {
    NetoPorVeces(cs, origen, destino, monto);
    DiferenciaDeRepetidos(Veces(cs, destino), Veces(cs, origen), monto);
  }

  /** The difference of two repeated additions of the same amount, as one product. */
  lemma DiferenciaDeRepetidos(d: nat, o: nat, monto: real)
    ensures Repetir(d, monto) - Repetir(o, monto) == (d - o) as real * monto
  {
    RepetirEsProducto(d, monto);
    RepetirEsProducto(o, monto);
    assert (d - o) as real * monto == d as real * monto - o as real * monto;
  }

  /** Conservation of money: a transfer from an account to itself, or between two
      accounts listed equally often (once each, say), makes no total change. */
  lemma TransferenciaConserva<T>(cs: seq<T>, origen: T, destino: T, monto: real)
    requires origen == destino || multiset(cs)[origen] == multiset(cs)[destino]
    ensures Neto(cs, origen, destino, monto) == 0.0
  {
    NetoPorVeces(cs, origen, destino, monto);
    if origen != destino {
      VecesEsMultiplicidad(cs, origen);
      VecesEsMultiplicidad(cs, destino);
    }
  }
}
