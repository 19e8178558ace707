/** Exact balance arithmetic of an account (`Cuenta`), as pure functions.
    Balances and amounts are `java.math.BigDecimal` in the Java program; here they
    are Dafny `real`, an exact rational, so no rounding can occur in any operation. */
module Saldo {
  import opened Exceptions

  /** The outcome of `debito(monto)` on an account holding `saldo`: the new balance,
      or `DineroInsuficienteException` when the balance would become negative.
      A debit of exactly the whole balance succeeds and leaves zero. */
  function Debito(saldo: real, monto: real): (r: Result<real>)
    ensures r.Ok? <==> monto <= saldo
    ensures r.Ok? ==> r.value + monto == saldo && r.value >= 0.0
    ensures r.Err? ==> r.error == DineroInsuficiente
  {
    var nuevoSaldo := saldo - monto;
    if nuevoSaldo < 0.0 then Err(DineroInsuficiente) else Ok(nuevoSaldo)
  }

  /** The balance `credito(monto)` leaves on an account holding `saldo`; it cannot fail. */
  function Credito(saldo: real, monto: real): (r: real)
    ensures r - monto == saldo
    ensures monto >= 0.0 ==> r >= saldo
  {
    saldo + monto
  }

  /** One balance movement an account can undergo. */
  datatype Movimiento = Debitar(monto: real) | Acreditar(monto: real)

  /** The balance after one movement; a debit that throws leaves the balance as it was. */
  function Aplicar(saldo: real, m: Movimiento): real {
    match m
    case Debitar(monto) => (match Debito(saldo, monto) case Ok(s) => s case Err(_) => saldo)
    case Acreditar(monto) => Credito(saldo, monto)
  }

  /** The balance after a history of movements, applied in order. */
  function Historial(saldo: real, ms: seq<Movimiento>): real
    decreases |ms|
  {
    if ms == [] then saldo else Historial(Aplicar(saldo, ms[0]), ms[1..])
  }

  /** Every credit in the history adds a non-negative amount. */
  predicate CreditosNoNegativos(ms: seq<Movimiento>) {
    forall i :: 0 <= i < |ms| && ms[i].Acreditar? ==> ms[i].monto >= 0.0
  }

  /** The non-negative-balance invariant: starting from a non-negative balance, no
      history of debits and non-negative credits ever drives the balance below zero,
      because a debit that would do so throws instead of committing. */
  lemma {:induction false} HistorialNoNegativo(saldo: real, ms: seq<Movimiento>)
    requires saldo >= 0.0
    requires CreditosNoNegativos(ms)
    ensures Historial(saldo, ms) >= 0.0
    decreases |ms|
  {
    if ms != [] {
      assert Aplicar(saldo, ms[0]) >= 0.0;
      assert CreditosNoNegativos(ms[1..]) by {
        forall i | 0 <= i < |ms[1..]| && ms[1..][i].Acreditar?
          ensures ms[1..][i].monto >= 0.0
        {
          assert ms[1..][i] == ms[i + 1];
        }
      }
      HistorialNoNegativo(Aplicar(saldo, ms[0]), ms[1..]);
    }
  }

  /** Exactness: crediting an amount and then debiting the same amount restores a
      non-negative balance exactly, with nothing lost to rounding. */
  lemma CreditoLuegoDebito(saldo: real, monto: real)
    requires saldo >= 0.0
    ensures Historial(saldo, [Acreditar(monto), Debitar(monto)]) == saldo
  {
    var ms := [Acreditar(monto), Debitar(monto)];
    assert ms[1..] == [Debitar(monto)] && [Debitar(monto)][1..] == [];
    assert Historial(saldo, ms) == Historial(saldo + monto, [Debitar(monto)]);
    assert Historial(saldo + monto, [Debitar(monto)]) == Historial(saldo, []);
  }

  /** Exactness the other way round: a debit that succeeds is undone exactly by a
      credit of the same amount. */
  lemma DebitoLuegoCredito(saldo: real, monto: real)
    requires monto <= saldo
    ensures Historial(saldo, [Debitar(monto), Acreditar(monto)]) == saldo
  {
    var ms := [Debitar(monto), Acreditar(monto)];
    assert ms[1..] == [Acreditar(monto)] && [Acreditar(monto)][1..] == [];
    assert Historial(saldo, ms) == Historial(saldo - monto, [Acreditar(monto)]);
    assert Historial(saldo - monto, [Acreditar(monto)]) == Historial(saldo, []);
  }
}
