/** The ledger's two mutable entities: an account (`Cuenta`) that holds an exact
    balance and a back-reference to its bank, and a bank (`Banco`) that holds a name
    and a list of accounts and moves money between accounts. */
module Models {
  import opened Exceptions
  import Saldo
  import Totales

  /** An account: its owner (`persona`), its balance (`saldo`) and the bank it was
      last added to (`banco`, null until then). */
  class Cuenta {
    var persona: string
    var saldo: real
    var banco: Banco?

    /** `new Cuenta(persona, saldo)`: keeps the owner and the balance exactly as given,
        and belongs to no bank yet. The initial balance is not checked. */
    constructor (persona: string, saldo: real)
      ensures this.persona == persona && this.saldo == saldo && banco == null
    {
      this.persona := persona;
      this.saldo := saldo;
      banco := null;
    }

    /** `debito(monto)`: takes `monto` off the balance, or throws
        `DineroInsuficienteException` and leaves the balance as it was when the
        balance would become negative. Owner and bank never change. */
    method Debito(monto: real) returns (r: Outcome)
      modifies this`saldo
      ensures r.Pass? <==> monto <= old(saldo)
      ensures r.Pass? ==> saldo == old(saldo) - monto && saldo >= 0.0
      ensures r.Fail? ==> r.error == DineroInsuficiente && saldo == old(saldo)
      ensures saldo == Saldo.Aplicar(old(saldo), Saldo.Debitar(monto))
    {
      match Saldo.Debito(saldo, monto)
      case Ok(nuevoSaldo) =>
        saldo := nuevoSaldo;
        r := Pass;
      case Err(e) =>
        r := Fail(e);
    }

    /** `credito(monto)`: adds `monto` to the balance; it cannot fail. */
    method Credito(monto: real)
      modifies this`saldo
      ensures saldo == old(saldo) + monto
      ensures saldo == Saldo.Aplicar(old(saldo), Saldo.Acreditar(monto))
    {
      saldo := saldo + monto;
    }

    /** `setBanco(banco)`: records the bank this account belongs to. */
    method SetBanco(banco: Banco)
      modifies this`banco
      ensures this.banco == banco
    {
      this.banco := banco;
    }

    /** `equals`: two accounts are equal when they have the same owner and the same
        balance, whatever their identity. */
    predicate Equals(other: Cuenta)
      reads this, other
    {
      persona == other.persona && saldo == other.saldo
    }
  }

  /** `equals` compares values, not identities: two accounts built from the same
      owner and balance are two distinct objects, and each equals the other. */
  method IgualdadPorValor(persona: string, saldo: real)
    returns (mismoObjeto: bool, iguales: bool, igualesInverso: bool)
    ensures !mismoObjeto && iguales && igualesInverso
  {
    var cuenta := new Cuenta(persona, saldo);
    var copia := new Cuenta(persona, saldo);
    mismoObjeto := cuenta == copia;
    iguales := cuenta.Equals(copia);
    igualesInverso := copia.Equals(cuenta);
  }

  /** Equality follows the balance: an account that debits a non-zero amount no
      longer equals an untouched copy of itself, while one whose debit throws, or
      debits nothing, still does. */
  method DebitoYIgualdad(persona: string, saldo: real, monto: real)
    returns (r: Outcome, iguales: bool)
    ensures r.Pass? <==> monto <= saldo
    ensures iguales <==> r.Fail? || monto == 0.0
  {
    var cuenta := new Cuenta(persona, saldo);
    var copia := new Cuenta(persona, saldo);
    r := cuenta.Debito(monto);
    iguales := cuenta.Equals(copia);
  }

  /** The balances of a list of accounts, entry by entry. */
  function Saldos(cs: seq<Cuenta>): (r: seq<real>)
    reads cs
    ensures |r| == |cs|
    ensures forall k :: 0 <= k < |cs| ==> r[k] == cs[k].saldo
    decreases |cs|
  {
    if cs == [] then [] else [cs[0].saldo] + Saldos(cs[1..])
  }

  /** A bank: its name (`nombre`) and the accounts added to it (`cuentas`), in the
      order they were added, repetitions included. */
  class Banco {
    var nombre: string
    var cuentas: seq<Cuenta>

    /** `new Banco()`: no accounts, and a name not yet set. */
    constructor ()
      ensures nombre == "" && cuentas == []
    {
      nombre := "";
      cuentas := [];
    }

    /** `setNombre(nombre)`. */
    method SetNombre(nombre: string)
      modifies this`nombre
      ensures this.nombre == nombre
    {
      this.nombre := nombre;
    }

    /** `addCuenta(cuenta)`: appends the account to the list, without looking for it
        there first, and makes the account refer back to this very bank. */
    method AddCuenta(cuenta: Cuenta)
      modifies this`cuentas, cuenta`banco
      ensures cuentas == old(cuentas) + [cuenta]
      ensures |cuentas| == old(|cuentas|) + 1
      ensures cuenta.banco == this
    {
      cuentas := cuentas + [cuenta];
      cuenta.SetBanco(this);
    }

    /** The money held by the bank's accounts, each listed entry counted once. */
    ghost function Total(): real
      reads this, cuentas
    {
      Totales.Suma(Saldos(cuentas))
    }

    /** `transferir(origen, destino, monto)`: debits `origen` and, when that succeeds,
        credits `destino` by the same amount. A failed debit throws and changes no
        balance. Neither account has to belong to this bank; when `origen` and
        `destino` are the same account its balance ends where it started. */
    method Transferir(origen: Cuenta, destino: Cuenta, monto: real) returns (r: Outcome)
      modifies origen`saldo, destino`saldo
      ensures r.Pass? <==> monto <= old(origen.saldo)
      ensures r.Fail? ==> r.error == DineroInsuficiente
      ensures r.Fail? ==> origen.saldo == old(origen.saldo) && destino.saldo == old(destino.saldo)
      ensures r.Pass? && origen != destino ==>
                origen.saldo == old(origen.saldo) - monto && destino.saldo == old(destino.saldo) + monto
      ensures r.Pass? && origen == destino ==> origen.saldo == old(origen.saldo)
      ensures r.Fail? ==> Total() == old(Total())
      ensures r.Pass? ==> Total() == old(Total()) + Totales.Neto(cuentas, origen, destino, monto)
    {
      ghost var antes := Saldos(cuentas);
      r := origen.Debito(monto);
      if r.Fail? {
        assert Saldos(cuentas) == antes;
        return;
      }
      destino.Credito(monto);
      ghost var despues := Saldos(cuentas);
      forall k | 0 <= k < |cuentas|
        ensures despues[k] == antes[k] + Totales.Ajuste(cuentas[k], origen, destino, monto)
      {
      }
      Totales.SumaTrasAjuste(cuentas, antes, despues, origen, destino, monto);
    }
  }
}
